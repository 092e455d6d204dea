/**
 * The broker's subscription filter: a domain literal with a "matches
 * sub-domains" flag, area, service and operation (each a value, the wildcard
 * "*" or absent) and four sub-keys, built once from a REGISTER request and
 * then matched against every published update key.
 *
 * Java null is Option.None throughout; the key is immutable, so it is a value.
 */
module SubscriptionKeys {
  import opened Wrappers
  import opened JavaLang

  /** The wildcard token. */
  const ALL_ID: string := "*"

  const HASH_MAGIC_NUMBER: int := 47

  /** A MAL Identifier: a reference whose value may itself be null. */
  datatype Identifier = Identifier(value: Option<string>)

  /** The parts of the REGISTER message header that the filter is built from. */
  datatype MessageHeader = MessageHeader(
    domain: Option<seq<string>>,
    area: Option<Identifier>,
    service: Option<Identifier>,
    operation: Option<Identifier>)

  /** One entity request of the subscription. */
  datatype EntityRequest = EntityRequest(
    subDomain: Option<seq<string>>,
    allAreas: bool,
    allServices: bool,
    allOperations: bool)

  /** The four-part entity key of the entity request. */
  datatype EntityKey = EntityKey(
    firstSubKey: Option<Identifier>,
    secondSubKey: Option<Identifier>,
    thirdSubKey: Option<Identifier>,
    fourthSubKey: Option<Identifier>)

  /** The key of one published update, as the broker hands it to matches. */
  datatype UpdateKey = UpdateKey(
    domain: string,
    area: Option<string>,
    service: Option<string>,
    operation: Option<string>,
    key1: Option<string>,
    key2: Option<string>,
    key3: Option<string>,
    key4: Option<string>)

  // ---------------------------------------------------------------------------
  // Construction helpers

  /** getIdValue: the identifier's value, or null when the identifier or its value is null. */
  function IdValue(id: Option<Identifier>): (r: Option<string>)
    ensures r.Some? <==> id.Some? && id.value.value.Some?
    ensures r.Some? ==> r.value == id.value.value.value
  {
    if id.Some? && id.value.value.Some? then id.value.value else None
  }

  /** getIdValueOrWildcard: the wildcard when the request asks for all, else the identifier's value. */
  function IdValueOrWildcard(id: Option<Identifier>, isWildcard: bool): (r: Option<string>)
    ensures isWildcard ==> r == Some(ALL_ID)
    ensures !isWildcard ==> r == IdValue(id)
  {
    if isWildcard then Some(ALL_ID) else IdValue(id)
  }

  /** Segments joined with '.', as StructureHelper.domainToString renders a domain. */
  function DotJoin(segments: seq<string>): (r: string)
    decreases |segments|
  {
    if |segments| == 0 then ""
    else if |segments| == 1 then segments[0]
    else DotJoin(segments[..|segments| - 1]) + "." + segments[|segments| - 1]
  }

  /** One turn of the constructor's loop: a wildcard adds no text, anything else is appended after a dot. */
  function AppendSegment(buf: string, id: string): (r: string)
    ensures id == ALL_ID ==> r == buf
    ensures id != ALL_ID ==> r == (if |buf| == 0 then id else buf + "." + id)
  {
    if id == ALL_ID then buf
    else (if 0 < |buf| then buf + "." else buf) + id
  }

  /** The buffer after the constructor's loop has run over the given sub-domain segments. */
  function ExtendDomain(buf: string, segments: seq<string>): (r: string)
    decreases |segments|
  {
    if |segments| == 0 then buf
    else AppendSegment(ExtendDomain(buf, segments[..|segments| - 1]), segments[|segments| - 1])
  }

  /** The sub-domain segments that are not the wildcard, in order. */
  function NonWildcard(segments: seq<string>): (r: seq<string>)
    ensures forall s | s in r :: s in segments && s != ALL_ID
    ensures forall s | s in segments && s != ALL_ID :: s in r
    decreases |segments|
  {
    if |segments| == 0 then []
    else
      var last := segments[|segments| - 1];
      NonWildcard(segments[..|segments| - 1]) + (if last == ALL_ID then [] else [last])
  }

  /** The header's domain as text: empty when absent or empty. */
  function HeaderDomain(mdomain: Option<seq<string>>): (r: string)
  {
    if mdomain.Some? && 0 < |mdomain.value| then DotJoin(mdomain.value) else ""
  }

  /** The domain literal the constructor builds from the header domain and the request's sub-domain. */
  function ConstructedDomain(mdomain: Option<seq<string>>, sdomain: Option<seq<string>>): (r: string)
  {
    if mdomain.None? && sdomain.None? then ""
    else ExtendDomain(HeaderDomain(mdomain), if sdomain.Some? then sdomain.value else [])
  }

  // ---------------------------------------------------------------------------
  // The filter

  /** A subscription filter. */
  datatype SubscriptionKey = SubscriptionKey(
    domain: string,
    andSubDomains: bool,
    area: Option<string>,
    service: Option<string>,
    operation: Option<string>,
    key1: Option<string>,
    key2: Option<string>,
    key3: Option<string>,
    key4: Option<string>)
  {
    /**
     * matches: the update's domain must start with the filter's domain, may be
     * longer only when the filter covers sub-domains, and every one of the
     * seven fields must match.
     */
    predicate Matches(rhs: UpdateKey)
    {
      if !StartsWith(rhs.domain, domain) then false
      else if |domain| < |rhs.domain| && !andSubDomains then false
      else
        && MatchedSubkey(area, rhs.area)
        && MatchedSubkey(service, rhs.service)
        && MatchedSubkey(operation, rhs.operation)
        && MatchedSubkey(key1, rhs.key1)
        && MatchedSubkey(key2, rhs.key2)
        && MatchedSubkey(key3, rhs.key3)
        && MatchedSubkey(key4, rhs.key4)
    }

    /** equals: the identity of a filter is its four sub-keys only. */
    predicate Equals(other: SubscriptionKey)
    {
      key1 == other.key1 && key2 == other.key2 && key3 == other.key3 && key4 == other.key4
    }

    /** hashCode over the four sub-keys, with unbounded arithmetic. */
    function HashCode(): (r: int)
    {
      var hash := 7;
      var hash := HASH_MAGIC_NUMBER * hash + SubkeyHash(key1);
      var hash := HASH_MAGIC_NUMBER * hash + SubkeyHash(key2);
      var hash := HASH_MAGIC_NUMBER * hash + SubkeyHash(key3);
      HASH_MAGIC_NUMBER * hash + SubkeyHash(key4)
    }

    /** compareTo: the four sub-keys in turn, the first that differs decides. */
    function CompareTo(rhs: SubscriptionKey): (r: int)
    {
      var rv := CompareSubkey(key1, rhs.key1);
      if 0 != rv then rv
      else
        var rv := CompareSubkey(key2, rhs.key2);
        if 0 != rv then rv
        else
          var rv := CompareSubkey(key3, rhs.key3);
          if 0 != rv then rv
          else CompareSubkey(key4, rhs.key4)
    }
  }

  function SubkeyHash(part: Option<string>): (r: int)
  {
    if part.Some? then StringHashCode(part.value) else 0
  }

  /**
   * matchedSubkey: a wildcard on either side matches anything, two absent
   * parts match, and two present parts match when they are equal.
   */
  predicate MatchedSubkey(mine: Option<string>, theirs: Option<string>)
    ensures MatchedSubkey(mine, theirs) <==> mine == Some(ALL_ID) || theirs == Some(ALL_ID) || mine == theirs
  {
    if mine == Some(ALL_ID) || theirs == Some(ALL_ID) then true
    else if mine.None? || theirs.None? then mine.None? && theirs.None?
    else mine.value == theirs.value
  }

  /** compareSubkey: null sorts before every string; two strings compare as Java strings. */
  function CompareSubkey(mine: Option<string>, theirs: Option<string>): (r: int)
    ensures r == 0 <==> mine == theirs
    ensures mine.None? && theirs.Some? ==> r == -1
    ensures mine.Some? && theirs.None? ==> r == 1
  {
    if mine.None? || theirs.None? then
      if mine.Some? || theirs.Some? then
        if mine.None? then -1 else 1
      else 0
    else if mine.value != theirs.value then
      StringCompareToZeroIffEqual(mine.value, theirs.value);
      StringCompareTo(mine.value, theirs.value)
    else 0
  }

  /**
   * The constructor: the header domain followed by every sub-domain segment
   * that is not the wildcard, dot-joined; a wildcard segment sets the
   * sub-domain flag instead. Area, service and operation become the wildcard
   * when the request asks for all of them; the sub-keys are copied.
   */
  method NewSubscriptionKey(hdr: MessageHeader, rqst: EntityRequest, lst: EntityKey) returns (k: SubscriptionKey)
    ensures k.domain == ConstructedDomain(hdr.domain, rqst.subDomain)
    ensures k.andSubDomains <==> rqst.subDomain.Some? && ALL_ID in rqst.subDomain.value
    ensures k.area == IdValueOrWildcard(hdr.area, rqst.allAreas)
    ensures k.service == IdValueOrWildcard(hdr.service, rqst.allServices)
    ensures k.operation == IdValueOrWildcard(hdr.operation, rqst.allOperations)
    ensures k.key1 == IdValue(lst.firstSubKey) && k.key2 == IdValue(lst.secondSubKey)
    ensures k.key3 == IdValue(lst.thirdSubKey) && k.key4 == IdValue(lst.fourthSubKey)
  {
    var tmpDomain := "";
    var tmpAndSubDomains := false;
    var mdomain := hdr.domain;
    var sdomain := rqst.subDomain;
    if mdomain.Some? || sdomain.Some? {
      var buf := "";
      if mdomain.Some? && 0 < |mdomain.value| {
        buf := DotJoin(mdomain.value);
      }
      if sdomain.Some? && 0 < |sdomain.value| {
        var segments := sdomain.value;
        var start := buf;
        var i := 0;
        while i < |segments|
          invariant 0 <= i <= |segments|
          invariant buf == ExtendDomain(start, segments[..i])
          invariant tmpAndSubDomains <==> ALL_ID in segments[..i]
        {
          assert segments[..i + 1][..i] == segments[..i];
          assert segments[..i + 1] == segments[..i] + [segments[i]];
          var id := segments[i];
          if id != ALL_ID {
            if 0 < |buf| {
              buf := buf + ".";
            }
            buf := buf + id;
          } else {
            tmpAndSubDomains := true;
          }
          i := i + 1;
        }
        assert segments[..i] == segments;
      }
      tmpDomain := buf;
    }
    k := SubscriptionKey(tmpDomain, tmpAndSubDomains,
                         IdValueOrWildcard(hdr.area, rqst.allAreas),
                         IdValueOrWildcard(hdr.service, rqst.allServices),
                         IdValueOrWildcard(hdr.operation, rqst.allOperations),
                         IdValue(lst.firstSubKey), IdValue(lst.secondSubKey),
                         IdValue(lst.thirdSubKey), IdValue(lst.fourthSubKey));
  }
}
