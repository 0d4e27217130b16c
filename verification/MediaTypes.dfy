/** Accept negotiation (media_type.go, and the content negotiation criterion of
    matcher.go). Type names are the lower-case ones the header parser returns. */
module MediaTypes {
  import opened Options
  import opened Strings

  datatype MediaType = MediaType(typ: string, subtype: string, q: real)

  /** The header parser for one media range; None when it is malformed. */
  type RangeParser = string -> Option<MediaType>

  const ANY := MediaType("*", "*", 1.0)
  const OCTET_STREAM := MediaType("application", "octet-stream", 1.0)

  predicate MatchesMediaRange(accept: MediaType, ct: MediaType) {
    (accept.typ == "*" && accept.subtype == "*") ||
    (accept.typ == ct.typ && (accept.subtype == "*" || accept.subtype == ct.subtype))
  }

  function Specificity(m: MediaType): (n: int)
    ensures 1 <= n <= 3
  {
    if m.typ == "*" && m.subtype == "*" then 1 else if m.subtype == "*" then 2 else 3
  }

  /** Sorting order of ranges: higher q first, then the more specific. */
  predicate Before(a: MediaType, b: MediaType) {
    a.q > b.q || (a.q == b.q && Specificity(a) > Specificity(b))
  }

  function InsertRange(m: MediaType, rs: seq<MediaType>): seq<MediaType> {
    if rs == [] then [m]
    else if Before(rs[0], m) then [rs[0]] + InsertRange(m, rs[1..])
    else [m] + rs
  }

  /** The library's stable sort: an element never moves past an equal one. */
  function SortRanges(rs: seq<MediaType>): seq<MediaType> {
    if rs == [] then [] else InsertRange(rs[0], SortRanges(rs[1..]))
  }

  /** One comma-separated part: blank and malformed ones are skipped. */
  function ParseRange(part: string, parse: RangeParser): seq<MediaType> {
    if TrimSpace(part) == "" then []
    else match parse(TrimSpace(part)) case None => [] case Some(m) => [m]
  }

  function ParseRanges(parts: seq<string>, parse: RangeParser): seq<MediaType> {
    if parts == [] then [] else ParseRange(parts[0], parse) + ParseRanges(parts[1..], parse)
  }

  function OrAny(rs: seq<MediaType>): seq<MediaType> { if rs == [] then [ANY] else rs }

  /** The ranges an Accept header lists, in header order. */
  function AcceptRanges(accept: string, parse: RangeParser): seq<MediaType> {
    var header := TrimSpace(accept);
    if header == "" then [ANY] else OrAny(ParseRanges(Split(header, ','), parse))
  }

  lemma SortOfOne(m: MediaType)
    ensures SortRanges([m]) == [m]
  {
    assert [m][1..] == [];
  }

  method ParseAccept(accept: string, parse: RangeParser) returns (r: seq<MediaType>)
    ensures r == SortRanges(AcceptRanges(accept, parse))
  {
    hide TrimSpace, Split, SortRanges;
    SortOfOne(ANY);
    var header := TrimSpace(accept);
    if header == "" {
      return [ANY];
    }
    var result := ParseParts(Split(header, ','), parse);
    if |result| == 0 {
      return [ANY];
    }
    return SortRanges(result);
  }

  /** The loop that appends the well-formed ranges. */
  method ParseParts(parts: seq<string>, parse: RangeParser) returns (result: seq<MediaType>)
    ensures result == ParseRanges(parts, parse)
  {
    hide ParseRange, ParseRanges;
    result := [];
    assert parts[0..] == parts;
    for i := 0 to |parts|
      invariant ParseRanges(parts, parse) == result + ParseRanges(parts[i..], parse)
    {
      ParseRangesStep(result, parts, i, parse);
      result := result + ParseRange(parts[i], parse);
    }
    assert parts[|parts|..] == [];
    ParseRangesEmpty(parse);
  }

  lemma ParseRangesEmpty(parse: RangeParser)
    ensures ParseRanges([], parse) == []
  {
  }

  lemma ParseRangesStep(done: seq<MediaType>, parts: seq<string>, i: nat, parse: RangeParser)
    requires i < |parts|
    ensures done + ParseRanges(parts[i..], parse) ==
      done + ParseRange(parts[i], parse) + ParseRanges(parts[i + 1..], parse)
  {
    hide ParseRange;
    assert parts[i..][1..] == parts[i + 1..];
  }

  // ----- the score -----

  predicate Excludes(rs: seq<MediaType>, ct: MediaType) {
    exists i :: 0 <= i < |rs| && rs[i].q == 0.0 && MatchesMediaRange(rs[i], ct)
  }

  function FirstMatch(rs: seq<MediaType>, ct: MediaType): int {
    if rs == [] then 0
    else if rs[0].q != 0.0 && MatchesMediaRange(rs[0], ct) then Specificity(rs[0]) + 2
    else FirstMatch(rs[1..], ct)
  }

  /** Score of a content type against ranges in the given order. */
  function RangeScore(rs: seq<MediaType>, ct: MediaType): int {
    if Excludes(rs, ct) then 0 else FirstMatch(rs, ct)
  }

  /** The two passes over the sorted ranges. */
  method ScoreSorted(acceptRanges: seq<MediaType>, ct: MediaType) returns (score: int)
    ensures score == RangeScore(acceptRanges, ct)
  {
    for i := 0 to |acceptRanges|
      invariant forall k :: 0 <= k < i ==> !(acceptRanges[k].q == 0.0 && MatchesMediaRange(acceptRanges[k], ct))
    {
      if acceptRanges[i].q == 0.0 && MatchesMediaRange(acceptRanges[i], ct) {
        return 0;
      }
    }
    assert acceptRanges[0..] == acceptRanges;
    for i := 0 to |acceptRanges|
      invariant FirstMatch(acceptRanges, ct) == FirstMatch(acceptRanges[i..], ct)
    {
      assert acceptRanges[i..][1..] == acceptRanges[i + 1..];
      if acceptRanges[i].q != 0.0 && MatchesMediaRange(acceptRanges[i], ct) {
        return Specificity(acceptRanges[i]) + 2;
      }
    }
    return 0;
  }

  /** The criterion: a missing Content-Type counts as octets, a malformed one
      matches nothing. */
  method ContentNegotiationScore(accept: string, contentType: string, parse: RangeParser) returns (score: int)
    ensures contentType == "" ==>
      score == RangeScore(SortRanges(AcceptRanges(accept, parse)), MediaType("application", "octet-stream", 1.0))
    ensures contentType != "" ==>
      match parse(contentType)
      case None => score == 0
      case Some(ct) => score == RangeScore(SortRanges(AcceptRanges(accept, parse)), ct)
  {
    var acceptRanges := ParseAccept(accept, parse);
    var ct := OCTET_STREAM;
    if contentType != "" {
      match parse(contentType) {
        case None => return 0;
        case Some(m) => ct := m;
      }
    }
    score := ScoreSorted(acceptRanges, ct);
  }

  // ----- the declarative rule -----

  ghost predicate Matching(r: MediaType, rs: seq<MediaType>, ct: MediaType) {
    r in rs && MatchesMediaRange(r, ct)
  }

  ghost predicate Best(r: MediaType, rs: seq<MediaType>, ct: MediaType) {
    Matching(r, rs, ct) && forall o :: Matching(o, rs, ct) ==> !Before(o, r)
  }

  /** 0 if a matching range has q=0 or none matches; otherwise two more than the
      specificity of the matching range greatest in (q, specificity). */
  ghost predicate Rule(rs: seq<MediaType>, ct: MediaType, score: int) {
    if (exists r :: Matching(r, rs, ct) && r.q == 0.0) || !(exists r :: Matching(r, rs, ct)) then score == 0
    else exists r :: Best(r, rs, ct) && score == Specificity(r) + 2
  }

  lemma RuleIsFunctional(rs: seq<MediaType>, ct: MediaType, a: int, b: int)
    requires Rule(rs, ct, a) && Rule(rs, ct, b)
    ensures a == b
  {
    if !((exists r :: Matching(r, rs, ct) && r.q == 0.0) || !(exists r :: Matching(r, rs, ct))) {
      var x :| Best(x, rs, ct) && a == Specificity(x) + 2;
      var y :| Best(y, rs, ct) && b == Specificity(y) + 2;
      assert !Before(x, y) && !Before(y, x);
    }
  }

  predicate Ordered(rs: seq<MediaType>) {
    forall i, j :: 0 <= i < j < |rs| ==> !Before(rs[j], rs[i])
  }

  lemma InMultiset(rs: seq<MediaType>, x: MediaType, m: MediaType, r: seq<MediaType>)
    requires multiset(r) == multiset(rs) + multiset{m} && x in r
    ensures x == m || x in rs
  {
    assert x in multiset(r);
  }

  lemma {:induction false} InsertRangeSorts(m: MediaType, rs: seq<MediaType>)
    requires Ordered(rs)
    ensures Ordered(InsertRange(m, rs))
    ensures multiset(InsertRange(m, rs)) == multiset(rs) + multiset{m}
  {
    if rs == [] {
    } else if Before(rs[0], m) {
      var r := InsertRange(m, rs[1..]);
      assert rs == [rs[0]] + rs[1..];
      InsertRangeSorts(m, rs[1..]);
      forall x | x in r ensures !Before(x, rs[0]) {
        InMultiset(rs[1..], x, m, r);
      }
    } else {
      forall x | x in rs ensures !Before(x, m) {
        var j :| 0 <= j < |rs| && rs[j] == x;
        assert j == 0 || !Before(rs[j], rs[0]);
      }
    }
  }

  lemma {:induction false} SortRangesSorts(rs: seq<MediaType>)
    ensures Ordered(SortRanges(rs))
    ensures multiset(SortRanges(rs)) == multiset(rs)
  {
    if rs != [] {
      SortRangesSorts(rs[1..]);
      InsertRangeSorts(rs[0], SortRanges(rs[1..]));
      assert rs == [rs[0]] + rs[1..];
    }
  }

  /** In sorted order the first matching range is a best one. */
  lemma {:induction false} FirstMatchIsBest(rs: seq<MediaType>, ct: MediaType)
    requires Ordered(rs) && !Excludes(rs, ct)
    ensures if exists r :: Matching(r, rs, ct) then
      exists r :: Best(r, rs, ct) && FirstMatch(rs, ct) == Specificity(r) + 2
      else FirstMatch(rs, ct) == 0
  {
    if rs != [] {
      assert rs[0] in rs;
      if MatchesMediaRange(rs[0], ct) {
        assert rs[0].q != 0.0;
        assert Best(rs[0], rs, ct);
      } else {
        FirstMatchIsBest(rs[1..], ct);
        forall r ensures Matching(r, rs, ct) <==> Matching(r, rs[1..], ct) {
        }
        if exists r :: Matching(r, rs[1..], ct) {
          var r :| Best(r, rs[1..], ct) && FirstMatch(rs[1..], ct) == Specificity(r) + 2;
          assert Best(r, rs, ct);
        }
      }
    }
  }

  /** Sorting and taking the first match computes the declarative rule. */
  lemma ScoreMeetsRule(rs: seq<MediaType>, ct: MediaType)
    ensures Rule(rs, ct, RangeScore(SortRanges(rs), ct))
  {
    var sorted := SortRanges(rs);
    SortRangesSorts(rs);
    forall r ensures r in sorted <==> r in rs {
      assert r in multiset(sorted) <==> r in multiset(rs);
    }
    assert Excludes(sorted, ct) <==> exists r :: Matching(r, rs, ct) && r.q == 0.0 by {
      if exists r :: Matching(r, rs, ct) && r.q == 0.0 {
        var r :| Matching(r, rs, ct) && r.q == 0.0;
        var i :| 0 <= i < |sorted| && sorted[i] == r;
      }
      if Excludes(sorted, ct) {
        var i :| 0 <= i < |sorted| && sorted[i].q == 0.0 && MatchesMediaRange(sorted[i], ct);
        assert Matching(sorted[i], rs, ct);
      }
    }
    if !Excludes(sorted, ct) {
      FirstMatchIsBest(sorted, ct);
      forall r ensures Matching(r, sorted, ct) <==> Matching(r, rs, ct) {
      }
      forall r ensures Best(r, sorted, ct) <==> Best(r, rs, ct) {
      }
    }
  }

  /** The score depends only on which ranges are listed, not on their order. */
  lemma ScoreIsOrderIndependent(rs: seq<MediaType>, other: seq<MediaType>, ct: MediaType)
    requires forall r :: r in rs <==> r in other
    ensures RangeScore(SortRanges(rs), ct) == RangeScore(SortRanges(other), ct)
  {
    ScoreMeetsRule(rs, ct);
    ScoreMeetsRule(other, ct);
    forall r ensures Matching(r, rs, ct) <==> Matching(r, other, ct) {
    }
    forall r ensures Best(r, rs, ct) <==> Best(r, other, ct) {
    }
    RuleIsFunctional(rs, ct, RangeScore(SortRanges(rs), ct), RangeScore(SortRanges(other), ct));
  }

  // ----- against section 5.3.2 of RFC 7231 -----

  /** The RFC lets the most specific matching range decide. */
  ghost predicate RfcAccepts(rs: seq<MediaType>, ct: MediaType) {
    exists r :: Matching(r, rs, ct) && r.q > 0.0 &&
      forall o :: Matching(o, rs, ct) ==> Specificity(o) <= Specificity(r)
  }

  lemma MostSpecific(rs: seq<MediaType>, ct: MediaType) returns (r: MediaType)
    requires exists m :: Matching(m, rs, ct)
    ensures Matching(r, rs, ct) && forall o :: Matching(o, rs, ct) ==> Specificity(o) <= Specificity(r)
  {
    r :| Matching(r, rs, ct);
    while exists o :: Matching(o, rs, ct) && Specificity(o) > Specificity(r)
      invariant Matching(r, rs, ct)
      decreases 3 - Specificity(r)
    {
      var o :| Matching(o, rs, ct) && Specificity(o) > Specificity(r);
      r := o;
    }
  }

  /** The code accepts exactly when the RFC does and no matching range, however
      unspecific, has q=0. */
  lemma AcceptsIffRfcAndNoExclusion(rs: seq<MediaType>, ct: MediaType)
    requires forall r :: r in rs ==> r.q >= 0.0
    ensures RangeScore(SortRanges(rs), ct) > 0 <==>
      RfcAccepts(rs, ct) && !(exists r :: Matching(r, rs, ct) && r.q == 0.0)
  {
    ScoreMeetsRule(rs, ct);
    if RangeScore(SortRanges(rs), ct) > 0 {
      var r := MostSpecific(rs, ct);
      assert r.q > 0.0;
    }
  }

  /** "text/html, *;q=0" style headers: the RFC accepts HTML, the code refuses it. */
  lemma WildcardExclusionWins() returns (rs: seq<MediaType>, ct: MediaType)
    ensures RfcAccepts(rs, ct) && RangeScore(SortRanges(rs), ct) == 0
  {
    var html, none := MediaType("text", "html", 1.0), MediaType("*", "*", 0.0);
    rs, ct := [html, none], html;
    assert Matching(html, rs, ct) && Matching(none, rs, ct);
    AcceptsIffRfcAndNoExclusion(rs, ct);
    ScoreMeetsRule(rs, ct);
  }

  // ----- the range parser around the library's -----

  /** The library's parser of a media type and its parameters, with lower-case names;
      None is its error. */
  type MimeParser = string -> Option<(string, map<string, string>)>

  /** The library's parser of decimal numbers; None is its error. */
  type FloatParser = string -> Option<real>

  function Clamp(q: real): (r: real)
    ensures 0.0 <= r <= 1.0
    ensures 0.0 <= q <= 1.0 ==> r == q
  {
    if q < 0.0 then 0.0 else if q > 1.0 then 1.0 else q
  }

  /** The quality parameter: 1 when it is missing or no number. */
  function QualityOf(params: map<string, string>, float: FloatParser): (q: real)
    ensures 0.0 <= q <= 1.0
  {
    if "q" !in params then 1.0
    else match float(params["q"]) case None => 1.0 case Some(q) => Clamp(q)
  }

  predicate Clamped(m: MediaType) { 0.0 <= m.q <= 1.0 }

  /** One media range: type and subtype are what the first slash separates. */
  function MediaTypeOf(text: string, mime: MimeParser, float: FloatParser): (r: Option<MediaType>)
    ensures r.Some? ==> Clamped(r.value) && '/' !in r.value.typ
  {
    var s := TrimSpace(text);
    if s == "" then None
    else
      match mime(s)
      case None => None
      case Some(parsed) =>
        var slash := IndexByte(parsed.0, '/');
        if slash < 0 then None
        else Some(MediaType(parsed.0[..slash], parsed.0[slash + 1..], QualityOf(parsed.1, float)))
  }

  function RangeOf(mime: MimeParser, float: FloatParser): RangeParser {
    (s: string) => MediaTypeOf(s, mime, float)
  }

  method ParseMediaType(text: string, mime: MimeParser, float: FloatParser) returns (r: Option<MediaType>)
    ensures r == MediaTypeOf(text, mime, float)
  {
    var s := TrimSpace(text);
    if s == "" {
      return None;
    }
    var parsed := mime(s);
    if parsed.None? {
      return None;
    }
    var (mediaType, params) := parsed.value;
    var slashIdx := IndexByte(mediaType, '/');
    if slashIdx < 0 {
      return None;
    }
    var qvalue := 1.0;
    if "q" in params {
      var q := float(params["q"]);
      if q.Some? {
        qvalue := q.value;
        if qvalue < 0.0 { qvalue := 0.0; }
        if qvalue > 1.0 { qvalue := 1.0; }
      }
    }
    return Some(MediaType(mediaType[..slashIdx], mediaType[slashIdx + 1..], qvalue));
  }

  lemma {:induction false} RangesAreClamped(parts: seq<string>, mime: MimeParser, float: FloatParser)
    ensures forall r :: r in ParseRanges(parts, RangeOf(mime, float)) ==> Clamped(r)
  {
    if parts != [] {
      RangesAreClamped(parts[1..], mime, float);
      hide TrimSpace, MediaTypeOf;
      assert forall r :: r in ParseRange(parts[0], RangeOf(mime, float)) ==> Clamped(r);
    }
  }

  /** Of every Accept header: its ranges have a quality between 0 and 1, and a type is
      accepted if and only if the RFC accepts it and no matching range has q=0. */
  lemma HeaderAcceptsIff(accept: string, ct: MediaType, mime: MimeParser, float: FloatParser)
    ensures var rs := AcceptRanges(accept, RangeOf(mime, float));
      (forall r :: r in rs ==> Clamped(r)) &&
      (RangeScore(SortRanges(rs), ct) > 0 <==> RfcAccepts(rs, ct) && !(exists r :: Matching(r, rs, ct) && r.q == 0.0))
  {
    hide TrimSpace, RangeScore, SortRanges, Split, RfcAccepts;
    var rs := AcceptRanges(accept, RangeOf(mime, float));
    if TrimSpace(accept) != "" { RangesAreClamped(Split(TrimSpace(accept), ','), mime, float); }
    assert forall r :: r in rs ==> Clamped(r);
    AcceptsIffRfcAndNoExclusion(rs, ct);
  }
}
