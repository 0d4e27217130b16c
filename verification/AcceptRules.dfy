/** Accept negotiation in the terms of the header: which score a type gets and which
    range decides it, without the sort (media_type.go:34-201, matcher.go:518-559). */
module AcceptRules {
  import opened Options
  import opened Strings
  import opened MediaTypes

  // ----- the score of a list of ranges -----

  /** The type lies in the range: everything, a whole type, or that type alone. */
  predicate LiesIn(ct: MediaType, r: MediaType) {
    (r.typ == "*" && r.subtype == "*") || (r.typ == ct.typ && r.subtype == "*") || (r.typ == ct.typ && r.subtype == ct.subtype)
  }

  /** How precise a range is: a type in full, a whole type, everything. */
  predicate MorePrecise(a: MediaType, b: MediaType) {
    if b.subtype != "*" then false else if b.typ != "*" then a.subtype != "*" else a.subtype != "*" || a.typ != "*"
  }

  /** The range that decides: none the type lies in has a higher quality, or the same
      quality and more precision. */
  ghost predicate Decides(r: MediaType, rs: seq<MediaType>, ct: MediaType) {
    r in rs && LiesIn(ct, r) &&
    forall o :: o in rs && LiesIn(ct, o) ==> o.q < r.q || (o.q == r.q && !MorePrecise(o, r))
  }

  ghost predicate Refused(rs: seq<MediaType>, ct: MediaType) {
    (forall r :: r in rs ==> !LiesIn(ct, r)) || exists r :: r in rs && LiesIn(ct, r) && r.q == 0.0
  }

  lemma PrecisionIsSpecificity(a: MediaType, b: MediaType)
    ensures MorePrecise(a, b) <==> Specificity(a) > Specificity(b)
    ensures LiesIn(a, b) <==> MatchesMediaRange(b, a)
  {
  }

  lemma BestDecides(r: MediaType, rs: seq<MediaType>, ct: MediaType)
    ensures Best(r, rs, ct) <==> Decides(r, rs, ct)
  {
    hide LiesIn, MatchesMediaRange, MorePrecise, Specificity;
    forall o ensures (MorePrecise(o, r) <==> Specificity(o) > Specificity(r)) && (LiesIn(ct, o) <==> MatchesMediaRange(o, ct)) {
      PrecisionIsSpecificity(o, r);
      PrecisionIsSpecificity(ct, o);
    }
    forall o ensures Matching(o, rs, ct) <==> o in rs && LiesIn(ct, o) { }
  }

  /** A type is refused with 0 if it lies in no range or in one of quality 0; otherwise the
      deciding range gives it 5 if it names a type in full, 4 if a whole type, and 3 if
      everything. */
  lemma ScoreIsDecided(rs: seq<MediaType>, ct: MediaType)
    ensures var score := RangeScore(SortRanges(rs), ct);
      if Refused(rs, ct) then
        score == 0
      else
        (exists r :: Decides(r, rs, ct)) &&
        forall r :: Decides(r, rs, ct) ==>
          score == if r.subtype != "*" then 5 else if r.typ != "*" then 4 else 3
  {
    ScoreMeetsRule(rs, ct);
    var score := RangeScore(SortRanges(rs), ct);
    hide RangeScore, SortRanges;
    RefusedIsRule(rs, ct);
    if !Refused(rs, ct) {
      var b :| Best(b, rs, ct) && score == Specificity(b) + 2;
      BestDecides(b, rs, ct);
      forall r | Decides(r, rs, ct) ensures Specificity(r) == Specificity(b) {
        BestDecides(r, rs, ct);
        hide Decides;
        assert !Before(r, b) && !Before(b, r);
      }
    }
  }

  lemma RefusedIsRule(rs: seq<MediaType>, ct: MediaType)
    ensures Refused(rs, ct) <==> (exists r :: Matching(r, rs, ct) && r.q == 0.0) || !(exists r :: Matching(r, rs, ct))
  {
    hide LiesIn, MatchesMediaRange;
    forall r ensures Matching(r, rs, ct) <==> r in rs && LiesIn(ct, r) { PrecisionIsSpecificity(ct, r); }
  }

  // ----- the ranges of a header -----

  /** One range of a header, read: type and subtype are what the first slash separates, and
      the quality is the q parameter brought into 0..1, or 1 without a number there. */
  lemma RangeIsRead(text: string, typ: string, subtype: string, params: map<string, string>, mime: MimeParser, float: FloatParser)
    requires TrimSpace(text) != "" && mime(TrimSpace(text)) == Some((typ + "/" + subtype, params)) && '/' !in typ
    ensures MediaTypeOf(text, mime, float).Some?
    ensures var m := MediaTypeOf(text, mime, float).value;
      m.typ == typ && m.subtype == subtype &&
      if "q" in params && float(params["q"]).Some? then
        var q := float(params["q"]).value; m.q == (if q < 0.0 then 0.0 else if q > 1.0 then 1.0 else q)
      else m.q == 1.0
  {
    var s := typ + "/" + subtype;
    assert s == typ + ['/'] + subtype;
    IndexAfterPrefix(typ, '/', subtype);
    assert s[..|typ|] == typ && s[|typ| + 1..] == subtype;
  }

  /** It is malformed if and only if it is blank, the library refuses it, or no slash is
      in it. */
  lemma RangeIsMalformedIff(text: string, mime: MimeParser, float: FloatParser)
    ensures MediaTypeOf(text, mime, float) == None <==>
      TrimSpace(text) == "" || mime(TrimSpace(text)) == None || '/' !in mime(TrimSpace(text)).value.0
  {
    hide TrimSpace;
    var parsed := mime(TrimSpace(text));
    if parsed.Some? {
      var s := parsed.value.0;
      assert forall k :: 0 <= k < |s| ==> s[k] in s;
    }
  }

  /** A part of the header that is well formed. */
  predicate Reads(part: string, parse: RangeParser, r: MediaType) { TrimSpace(part) != "" && parse(TrimSpace(part)) == Some(r) }

  ghost predicate ReadFrom(parts: seq<string>, parse: RangeParser, r: MediaType) { exists p :: p in parts && Reads(p, parse, r) }

  lemma {:induction false} RangesAreRead(parts: seq<string>, parse: RangeParser, r: MediaType)
    ensures r in ParseRanges(parts, parse) <==> ReadFrom(parts, parse, r)
    decreases |parts|
  {
    hide TrimSpace;
    if parts != [] {
      RangesAreRead(parts[1..], parse, r);
      assert parts[0] in parts && forall p :: p in parts <==> p == parts[0] || p in parts[1..];
    }
  }

  ghost predicate SomeRead(parts: seq<string>, parse: RangeParser) { exists r :: ReadFrom(parts, parse, r) }

  lemma SomeReadIff(parts: seq<string>, parse: RangeParser)
    ensures SomeRead(parts, parse) <==> ParseRanges(parts, parse) != []
  {
    hide ReadFrom, ParseRanges;
    var rs := ParseRanges(parts, parse);
    if rs != [] {
      RangesAreRead(parts, parse, rs[0]);
    }
    if r :| ReadFrom(parts, parse, r) {
      RangesAreRead(parts, parse, r);
      assert r in rs;
    }
  }

  /** The ranges of a header are its well-formed parts between commas; a header without
      one, or blank, accepts everything with quality 1. */
  lemma HeaderIsItsParts(accept: string, parse: RangeParser, r: MediaType)
    ensures var parts := Split(TrimSpace(accept), ',');
      if TrimSpace(accept) == "" || !SomeRead(parts, parse) then
        AcceptRanges(accept, parse) == [MediaType("*", "*", 1.0)]
      else
        r in AcceptRanges(accept, parse) <==> ReadFrom(parts, parse, r)
  {
    hide TrimSpace, Split, ReadFrom, SomeRead, ParseRanges;
    SomeReadIff(Split(TrimSpace(accept), ','), parse);
    RangesAreRead(Split(TrimSpace(accept), ','), parse, r);
  }
}
