/**
 * What the subscription filter promises: how its domain literal is built, what
 * a match implies, and how its identity (equals, hashCode, compareTo) relates
 * to matching.
 */
module SubscriptionKeyProperties {
  import opened Wrappers
  import opened JavaLang
  import opened SubscriptionKeys

  // ---------------------------------------------------------------------------
  // The domain literal

  predicate AllNonEmpty(segments: seq<string>)
  {
    forall i | 0 <= i < |segments| :: |segments[i]| > 0
  }

  lemma {:induction false} DotJoinNonEmpty(segments: seq<string>)
    requires AllNonEmpty(segments) && segments != []
    ensures |DotJoin(segments)| > 0
  {
  }

  /** Appending one more segment to a dot-joined domain is joining one more segment. */
  lemma {:induction false} AppendSegmentJoins(segments: seq<string>, id: string)
    requires AllNonEmpty(segments) && id != ALL_ID
    ensures AppendSegment(DotJoin(segments), id) == DotJoin(segments + [id])
  {
    assert (segments + [id])[..|segments|] == segments;
    if segments != [] {
      DotJoinNonEmpty(segments);
    }
  }

  /**
   * When no segment is empty, the constructor's loop dot-joins the prefix's
   * segments with the non-wildcard sub-domain segments, with no leading dot.
   */
  lemma {:induction false} ExtendDomainIsDotJoin(prefix: seq<string>, segments: seq<string>)
    requires AllNonEmpty(prefix) && AllNonEmpty(segments)
    ensures ExtendDomain(DotJoin(prefix), segments) == DotJoin(prefix + NonWildcard(segments))
    decreases |segments|
  {
    if segments == [] {
      assert prefix + [] == prefix;
    } else {
      var init := segments[..|segments| - 1];
      var last := segments[|segments| - 1];
      ExtendDomainIsDotJoin(prefix, init);
      var joined := prefix + NonWildcard(init);
      if last != ALL_ID {
        assert AllNonEmpty(NonWildcard(init)) by {
          forall i | 0 <= i < |NonWildcard(init)|
            ensures |NonWildcard(init)[i]| > 0
          {
            assert NonWildcard(init)[i] in init;
          }
        }
        AppendSegmentJoins(joined, last);
        assert joined + [last] == prefix + NonWildcard(segments);
      } else {
        assert NonWildcard(segments) == NonWildcard(init);
      }
    }
  }

  /** The constructed domain is the header's segments and the non-wildcard sub-domain segments, dot-joined. */
  lemma {:induction false} ConstructedDomainIsDotJoin(mdomain: Option<seq<string>>, sdomain: Option<seq<string>>)
    requires mdomain.Some? ==> AllNonEmpty(mdomain.value)
    requires sdomain.Some? ==> AllNonEmpty(sdomain.value)
    ensures var header := if mdomain.Some? then mdomain.value else [];
      var sub := if sdomain.Some? then sdomain.value else [];
      ConstructedDomain(mdomain, sdomain) == DotJoin(header + NonWildcard(sub))
  {
    var header := if mdomain.Some? then mdomain.value else [];
    var sub := if sdomain.Some? then sdomain.value else [];
    if mdomain.None? && sdomain.None? {
      assert header + NonWildcard(sub) == [];
    } else {
      assert HeaderDomain(mdomain) == DotJoin(header);
      ExtendDomainIsDotJoin(header, sub);
    }
  }

  /** A sub-domain made of wildcards only leaves the header's domain as it is. */
  lemma {:induction false} WildcardsAddNoText(buf: string, segments: seq<string>)
    requires forall i | 0 <= i < |segments| :: segments[i] == ALL_ID
    ensures ExtendDomain(buf, segments) == buf
    decreases |segments|
  {
    if segments != [] {
      WildcardsAddNoText(buf, segments[..|segments| - 1]);
    }
  }

  // ---------------------------------------------------------------------------
  // Matching

  /** A match means the update's domain starts with the filter's domain, as text. */
  lemma MatchesImpliesLiteralPrefix(k: SubscriptionKey, u: UpdateKey)
    requires k.Matches(u)
    ensures |k.domain| <= |u.domain| && u.domain[..|k.domain|] == k.domain
  {
  }

  /** An update deeper than the filter's domain matches only a filter that covers sub-domains. */
  lemma MatchesLongerNeedsFlag(k: SubscriptionKey, u: UpdateKey)
    requires k.Matches(u) && |k.domain| < |u.domain|
    ensures k.andSubDomains
  {
  }

  /** On the filter's own domain, the sub-domain flag makes no difference. */
  lemma FlagIrrelevantOnEqualDomain(k: SubscriptionKey, u: UpdateKey, flag: bool)
    requires u.domain == k.domain
    ensures k.Matches(u) <==> k.(andSubDomains := flag).Matches(u)
  {
  }

  /** Setting the sub-domain flag only ever widens a filter. */
  lemma FlagOnlyWidens(k: SubscriptionKey, u: UpdateKey)
    requires k.Matches(u)
    ensures k.(andSubDomains := true).Matches(u)
  {
  }

  predicate FieldMatch(mine: Option<string>, theirs: Option<string>)
  {
    mine == Some(ALL_ID) || theirs == Some(ALL_ID) || mine == theirs
  }

  /** Any one field whose two values differ and neither of which is the wildcard spoils the match. */
  lemma FieldMismatchFails(k: SubscriptionKey, u: UpdateKey)
    requires || !FieldMatch(k.area, u.area) || !FieldMatch(k.service, u.service)
             || !FieldMatch(k.operation, u.operation) || !FieldMatch(k.key1, u.key1)
             || !FieldMatch(k.key2, u.key2) || !FieldMatch(k.key3, u.key3) || !FieldMatch(k.key4, u.key4)
    ensures !k.Matches(u)
  {
  }

  /**
   * A field of a filter built from a request (getIdValueOrWildcard) matches an
   * update's field exactly when the request asked for all, either side is the
   * wildcard, or the update carries the identifier's own value (both absent
   * included).
   */
  lemma RequestFieldMatches(id: Option<Identifier>, all: bool, theirs: Option<string>)
    ensures MatchedSubkey(IdValueOrWildcard(id, all), theirs)
        <==> all || IdValue(id) == Some(ALL_ID) || theirs == Some(ALL_ID) || theirs == IdValue(id)
  {
  }

  /**
   * A filter built from a REGISTER request matches the update that carries the
   * header's own domain-and-sub-domain literal, area, service and operation and
   * the entity key's own four sub-keys (each read with getIdValue).
   */
  lemma FilterMatchesItsOwnKey(hdr: MessageHeader, rqst: EntityRequest, lst: EntityKey, k: SubscriptionKey)
    requires k.domain == ConstructedDomain(hdr.domain, rqst.subDomain)
    requires k.area == IdValueOrWildcard(hdr.area, rqst.allAreas)
    requires k.service == IdValueOrWildcard(hdr.service, rqst.allServices)
    requires k.operation == IdValueOrWildcard(hdr.operation, rqst.allOperations)
    requires k.key1 == IdValue(lst.firstSubKey) && k.key2 == IdValue(lst.secondSubKey)
    requires k.key3 == IdValue(lst.thirdSubKey) && k.key4 == IdValue(lst.fourthSubKey)
    ensures k.Matches(UpdateKey(ConstructedDomain(hdr.domain, rqst.subDomain),
                                IdValue(hdr.area), IdValue(hdr.service), IdValue(hdr.operation),
                                IdValue(lst.firstSubKey), IdValue(lst.secondSubKey),
                                IdValue(lst.thirdSubKey), IdValue(lst.fourthSubKey)))
  {
  }

  /** matchedSubkey does not depend on which side is the filter. */
  lemma MatchedSubkeySymmetric(a: Option<string>, b: Option<string>)
    ensures MatchedSubkey(a, b) <==> MatchedSubkey(b, a)
  {
  }

  /**
   * The domain test is a text prefix, not a segment prefix: a filter on "a.b"
   * that covers sub-domains also matches an update in "a.bc".
   */
  lemma LiteralPrefixMatchesSiblingDomain()
    ensures var k := SubscriptionKey("a.b", true, Some(ALL_ID), Some(ALL_ID), Some(ALL_ID),
                                     Some(ALL_ID), Some(ALL_ID), Some(ALL_ID), Some(ALL_ID));
      var u := UpdateKey("a.bc", Some("X"), Some("Y"), Some("Z"), Some("1"), Some("2"), Some("3"), Some("4"));
      k.Matches(u)
  {
    assert "a.bc"[..3] == "a.b";
  }

  /** The filter {a.b with sub-domains, area X, everything else wildcard} against an update in a.b.c. */
  lemma SubdomainFlagDecidesDeeperUpdate(flag: bool)
    ensures var k := SubscriptionKey("a.b", flag, Some("X"), Some(ALL_ID), Some(ALL_ID),
                                     Some(ALL_ID), Some(ALL_ID), Some(ALL_ID), Some(ALL_ID));
      var u := UpdateKey("a.b.c", Some("X"), Some("Y"), Some("Z"), Some("1"), Some("2"), Some("3"), Some("4"));
      k.Matches(u) <==> flag
  {
    assert "a.b.c"[..3] == "a.b";
  }

  /**
   * A trailing wildcard segment in the sub-domain adds no text to the domain
   * literal (it only sets the sub-domain flag).
   */
  lemma {:induction false} TrailingWildcardAddsNoText(mdomain: Option<seq<string>>, segments: seq<string>)
    ensures ConstructedDomain(mdomain, Some(segments + [ALL_ID])) == ConstructedDomain(mdomain, Some(segments))
  {
    assert (segments + [ALL_ID])[..|segments|] == segments;
  }

  // ---------------------------------------------------------------------------
  // Identity and ordering

  /** Equal filters hash alike. */
  lemma HashConsistentWithEquals(a: SubscriptionKey, b: SubscriptionKey)
    requires a.Equals(b)
    ensures a.HashCode() == b.HashCode()
  {
  }

  /**
   * Identity is narrower than matching: two filters can be equal and hash
   * alike, yet one matches an update that the other does not.
   */
  lemma EqualsIgnoresScope()
    ensures var wide := SubscriptionKey("a", true, Some(ALL_ID), Some(ALL_ID), Some(ALL_ID),
                                        Some("k"), None, None, None);
      var narrow := SubscriptionKey("a", false, Some(ALL_ID), Some(ALL_ID), Some(ALL_ID),
                                    Some("k"), None, None, None);
      var u := UpdateKey("a.b", None, None, None, Some("k"), None, None, None);
      && wide.Equals(narrow) && wide.HashCode() == narrow.HashCode()
      && wide.Matches(u) && !narrow.Matches(u)
  {
    assert "a.b"[..1] == "a";
  }

  /** compareTo answers 0 exactly for equal filters. */
  lemma CompareToZeroIffEquals(a: SubscriptionKey, b: SubscriptionKey)
    ensures a.CompareTo(b) == 0 <==> a.Equals(b)
  {
  }

  /** Swapping the operands negates compareTo. */
  lemma {:induction false} CompareSubkeyAntisymmetric(a: Option<string>, b: Option<string>)
    ensures CompareSubkey(a, b) == -CompareSubkey(b, a)
  {
    if a.Some? && b.Some? {
      StringCompareToAntisymmetric(a.value, b.value);
    }
  }

  lemma {:induction false} CompareToAntisymmetric(a: SubscriptionKey, b: SubscriptionKey)
    ensures a.CompareTo(b) == -b.CompareTo(a)
  {
    CompareSubkeyAntisymmetric(a.key1, b.key1);
    CompareSubkeyAntisymmetric(a.key2, b.key2);
    CompareSubkeyAntisymmetric(a.key3, b.key3);
    CompareSubkeyAntisymmetric(a.key4, b.key4);
  }

  /** A filter with no first sub-key sorts before every filter that has one. */
  lemma NullSortsFirst(a: SubscriptionKey, b: SubscriptionKey)
    requires a.key1.None? && b.key1.Some?
    ensures a.CompareTo(b) < 0
  {
  }

  lemma {:induction false} CompareSubkeyTransitive(a: Option<string>, b: Option<string>, c: Option<string>)
    requires CompareSubkey(a, b) < 0 && CompareSubkey(b, c) < 0
    ensures CompareSubkey(a, c) < 0
  {
    if a.Some? && b.Some? && c.Some? {
      StringCompareToTransitive(a.value, b.value, c.value);
      StringCompareToZeroIffEqual(a.value, c.value);
    }
  }

  /** The four sub-keys in the order compareTo visits them. */
  function Subkeys(k: SubscriptionKey): (r: seq<Option<string>>)
  {
    [k.key1, k.key2, k.key3, k.key4]
  }

  /** Lexicographic comparison of sub-key sequences: the first part that differs decides. */
  function Lexicographic(a: seq<Option<string>>, b: seq<Option<string>>): (r: int)
    requires |a| == |b|
    decreases |a|
  {
    if a == [] then 0
    else if CompareSubkey(a[0], b[0]) != 0 then CompareSubkey(a[0], b[0])
    else Lexicographic(a[1..], b[1..])
  }

  lemma CompareToIsLexicographic(a: SubscriptionKey, b: SubscriptionKey)
    ensures a.CompareTo(b) == Lexicographic(Subkeys(a), Subkeys(b))
  {
    var sa, sb := Subkeys(a), Subkeys(b);
    assert sa[3..] == [a.key4] && sb[3..] == [b.key4];
    var last := Lexicographic(sa[3..], sb[3..]);
    assert last == CompareSubkey(a.key4, b.key4) by {
      assert [a.key4][1..] == [] && [b.key4][1..] == [];
      assert Lexicographic([], []) == 0;
    }
    assert sa[2..][1..] == sa[3..] && sb[2..][1..] == sb[3..];
    var third := Lexicographic(sa[2..], sb[2..]);
    assert third == if CompareSubkey(a.key3, b.key3) != 0 then CompareSubkey(a.key3, b.key3) else last;
    assert sa[1..][1..] == sa[2..] && sb[1..][1..] == sb[2..];
    var second := Lexicographic(sa[1..], sb[1..]);
    assert second == if CompareSubkey(a.key2, b.key2) != 0 then CompareSubkey(a.key2, b.key2) else third;
  }

  lemma {:induction false} LexicographicTransitive(a: seq<Option<string>>, b: seq<Option<string>>, c: seq<Option<string>>)
    requires |a| == |b| == |c|
    requires Lexicographic(a, b) < 0 && Lexicographic(b, c) < 0
    ensures Lexicographic(a, c) < 0
    decreases |a|
  {
    var ab := CompareSubkey(a[0], b[0]);
    var bc := CompareSubkey(b[0], c[0]);
    if ab < 0 && bc < 0 {
      CompareSubkeyTransitive(a[0], b[0], c[0]);
    } else if ab == 0 && bc == 0 {
      LexicographicTransitive(a[1..], b[1..], c[1..]);
    }
  }

  /** compareTo orders filters transitively. */
  lemma {:induction false} CompareToTransitive(a: SubscriptionKey, b: SubscriptionKey, c: SubscriptionKey)
    requires a.CompareTo(b) < 0 && b.CompareTo(c) < 0
    ensures a.CompareTo(c) < 0
  {
    CompareToIsLexicographic(a, b);
    CompareToIsLexicographic(b, c);
    CompareToIsLexicographic(a, c);
    LexicographicTransitive(Subkeys(a), Subkeys(b), Subkeys(c));
  }
}
