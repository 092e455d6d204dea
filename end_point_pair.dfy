/**
 * MessageReceive.EndPointPair: the key of the provider address registry, a
 * local endpoint name and a service number that may be absent (null).
 */
module EndPointPairs {
  import opened Wrappers
  import opened JavaLang

  datatype EndPointPair = EndPointPair(first: string, second: Option<int>)
  {
    /**
     * compareTo: by name, then by service number; when exactly one service is
     * absent the result is -1 whichever side is absent.
     */
    function CompareTo(other: EndPointPair): (r: int)
    {
      var irv := StringCompareTo(first, other.first);
      if irv == 0 then
        if second.Some? then
          if other.second.None? then -1 else IntegerCompareTo(second.value, other.second.value)
        else
          if other.second.None? then 0 else -1
      else irv
    }

    /**
     * The ordering evidently intended: by name, then by service number, with
     * an absent service sorting before every present one.
     */
    function CompareToAbsentFirst(other: EndPointPair): (r: int)
    {
      var irv := StringCompareTo(first, other.first);
      if irv == 0 then
        if second.Some? then
          if other.second.None? then 1 else IntegerCompareTo(second.value, other.second.value)
        else
          if other.second.None? then 0 else -1
      else irv
    }

    /** equals: equal names and equal (or both absent) service numbers. */
    predicate Equals(other: EndPointPair)
    {
      first == other.first && second == other.second
    }

    /** hashCode, with unbounded arithmetic; an Integer hashes to its own value. */
    function HashCode(): (r: int)
    {
      var hash := 5;
      var hash := 71 * hash + StringHashCode(first);
      71 * hash + (if second.Some? then second.value else 0)
    }
  }

  /** equals is value equality of the pair, so a map keyed by pairs looks up by equals. */
  lemma EqualsIsValueEquality(a: EndPointPair, b: EndPointPair)
    ensures a.Equals(b) <==> a == b
  {
  }

  /** compareTo returns 0 exactly when equals holds. */
  lemma {:induction false} CompareToZeroIffEquals(a: EndPointPair, b: EndPointPair)
    ensures a.CompareTo(b) == 0 <==> a.Equals(b)
  {
    StringCompareToZeroIffEqual(a.first, b.first);
  }

  /**
   * compareTo is not antisymmetric: with equal names and exactly one service
   * absent, each pair compares below the other.
   */
  lemma {:induction false} CompareToNotAntisymmetric(name: string, service: int)
    ensures EndPointPair(name, Some(service)).CompareTo(EndPointPair(name, None)) == -1
    ensures EndPointPair(name, None).CompareTo(EndPointPair(name, Some(service))) == -1
  {
    StringCompareToZeroIffEqual(name, name);
  }

  /** In every other case swapping the operands negates compareTo. */
  lemma {:induction false} CompareToAntisymmetricOtherwise(a: EndPointPair, b: EndPointPair)
    requires a.first != b.first || a.second.Some? == b.second.Some?
    ensures a.CompareTo(b) == -b.CompareTo(a)
  {
    StringCompareToAntisymmetric(a.first, b.first);
    StringCompareToZeroIffEqual(a.first, b.first);
  }

  /** Equal pairs hash alike. */
  lemma HashConsistentWithEquals(a: EndPointPair, b: EndPointPair)
    requires a.Equals(b)
    ensures a.HashCode() == b.HashCode()
  {
  }

  /** The intended ordering answers 0 exactly for equal pairs. */
  lemma {:induction false} CompareToAbsentFirstZeroIffEquals(a: EndPointPair, b: EndPointPair)
    ensures a.CompareToAbsentFirst(b) == 0 <==> a.Equals(b)
  {
    StringCompareToZeroIffEqual(a.first, b.first);
  }

  /** The intended ordering is antisymmetric for every pair of keys. */
  lemma {:induction false} CompareToAbsentFirstAntisymmetric(a: EndPointPair, b: EndPointPair)
    ensures a.CompareToAbsentFirst(b) == -b.CompareToAbsentFirst(a)
  {
    StringCompareToAntisymmetric(a.first, b.first);
    StringCompareToZeroIffEqual(a.first, b.first);
  }

  /** Under the intended ordering an absent service sorts first at an equal name. */
  lemma {:induction false} AbsentServiceSortsFirst(name: string, service: int)
    ensures EndPointPair(name, None).CompareToAbsentFirst(EndPointPair(name, Some(service))) < 0
    ensures EndPointPair(name, Some(service)).CompareToAbsentFirst(EndPointPair(name, None)) > 0
  {
    StringCompareToZeroIffEqual(name, name);
  }

  /** The two orderings differ only where compareTo as written gives -1 for a present service against an absent one. */
  lemma {:induction false} OrderingsAgreeOtherwise(a: EndPointPair, b: EndPointPair)
    requires !(a.first == b.first && a.second.Some? && b.second.None?)
    ensures a.CompareTo(b) == a.CompareToAbsentFirst(b)
  {
    StringCompareToZeroIffEqual(a.first, b.first);
  }
}
