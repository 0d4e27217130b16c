/** Deterministic fakers (faker.go). The keyed hash is a parameter: any function
    returning blocks of 32 bytes. */
module Faker {
  import opened Strings
  import opened JsonTree
  import opened Sanitizer

  type Byte = x: int | 0 <= x < 256

  const BLOCK := 32

  function ZeroBlock(key: string, message: string): seq<Byte> { seq(BLOCK, _ => 0) }

  type Hmac = h: (string, string) -> seq<Byte> | forall k, m :: |h(k, m)| == BLOCK witness ZeroBlock

  // ----- leaf fakers and the rewriting order -----

  /** Every faker but the fixed one only replaces strings, numbers and booleans by
      values of the same kind. */
  function LeafFaker(onStr: string -> string, onNum: real -> real, onBool: bool -> bool): Json -> Json {
    (v: Json) =>
      match v
      case Str(s) => Str(onStr(s))
      case Num(n) => Num(onNum(n))
      case Bool(b) => Bool(onBool(b))
      case _ => v
  }

  ghost predicate IsLeafFaker(f: Json -> Json) { exists s, n, b :: f == LeafFaker(s, n, b) }

  lemma LeafFakersKeepContainers(onStr: string -> string, onNum: real -> real, onBool: bool -> bool)
    ensures KeepsContainers(LeafFaker(onStr, onNum, onBool))
  {
  }

  /** A faker run over a map of paths gives one result whatever order the map is
      walked in, as long as every path has a leaf faker. */
  lemma LeafFakingIsOrderFree(j: Json, ps: seq<Pattern>, qs: seq<Pattern>, fakers: Fakers)
    requires multiset(ps) == multiset(qs)
    requires forall p :: IsLeafFaker(fakers(p))
    ensures RewriteAll(j, ps, fakers) == RewriteAll(j, qs, fakers)
  {
    forall p ensures KeepsContainers(fakers(p)) {
      assert IsLeafFaker(fakers(p));
      var s, n, b :| fakers(p) == LeafFaker(s, n, b);
      LeafFakersKeepContainers(s, n, b);
    }
    RewriteAllPermutes(j, ps, qs, fakers);
  }

  // ----- the Luhn check digit -----

  ghost predicate AllDigits(s: string) { forall c :: c in s ==> IsDigit(c) }

  /** A doubled digit, nine subtracted when it has two figures. */
  function Doubled(d: nat): (r: nat)
    requires d < 10
    ensures r < 10
  {
    if d * 2 > 9 then d * 2 - 9 else d * 2
  }

  function Weight(d: nat, doubled: bool): (w: nat)
    requires d < 10
    ensures w < 10
  {
    if doubled then Doubled(d) else d
  }

  /** Sum from the right, every second digit doubled, starting with or without
      the last one. */
  function LuhnSum(s: string, doubleLast: bool): nat
    requires AllDigits(s)
  {
    if s == "" then 0
    else
      var d := DigitValue(s[|s| - 1]);
      Weight(d, doubleLast) + LuhnSum(s[..|s| - 1], !doubleLast)
  }

  /** The Luhn test of Annex B of ISO/IEC 7812-1. */
  predicate LuhnValid(s: string)
    requires AllDigits(s)
  {
    LuhnSum(s, false) % 10 == 0
  }

  function CheckDigit(s: string): (d: nat)
    requires AllDigits(s)
    ensures d < 10
  {
    (10 - LuhnSum(s, true) % 10) % 10
  }

  method LuhnCheckDigit(digits: string) returns (d: nat)
    requires AllDigits(digits)
    ensures d == CheckDigit(digits)
  {
    var sum := 0;
    var i := |digits| - 1;
    assert digits[..|digits|] == digits;
    while i >= 0
      invariant -1 <= i < |digits|
      invariant LuhnSum(digits, true) == sum + LuhnSum(digits[..i + 1], (|digits| - 1 - i) % 2 == 0)
    {
      var v := DigitValue(digits[i]);
      var pos := |digits| - 1 - i;
      if pos % 2 == 0 {
        v := v * 2;
        if v > 9 { v := v - 9; }
      }
      assert digits[..i + 1][..i] == digits[..i];
      sum := sum + v;
      i := i - 1;
    }
    return (10 - sum % 10) % 10;
  }

  lemma LuhnSumSnoc(s: string, c: char, doubleLast: bool)
    requires AllDigits(s) && IsDigit(c)
    ensures AllDigits(s + [c])
    ensures LuhnSum(s + [c], doubleLast) ==
      Weight(DigitValue(c), doubleLast) + LuhnSum(s, !doubleLast)
  {
    var t := s + [c];
    assert t[..|t| - 1] == s && t[|t| - 1] == c;
  }

  /** Exactly one digit completes a digit string to a valid number. */
  lemma CheckDigitIsTheOne(s: string, c: char)
    requires AllDigits(s) && IsDigit(c)
    ensures AllDigits(s + [c])
    ensures LuhnValid(s + [c]) <==> c == DigitChar(CheckDigit(s))
  {
    LuhnSumSnoc(s, c, false);
    SameDigit(c, CheckDigit(s));
    hide LuhnSum, DigitValue, DigitChar;
    CompletingDigit(DigitValue(c), LuhnSum(s, true));
  }

  lemma SameDigit(c: char, d: nat)
    requires IsDigit(c) && d < 10
    ensures c == DigitChar(d) <==> DigitValue(c) == d
  {
  }

  lemma CompletingDigit(d: nat, sum: nat)
    requires d < 10
    ensures (d + sum) % 10 == 0 <==> d == (10 - sum % 10) % 10
  {
    SumModTen(d, sum);
    var m := sum % 10;
    assert (10 - m) % 10 == if m == 0 then 0 else 10 - m;
  }

  lemma ModShift(w: nat, a: nat, b: nat)
    requires a % 10 != b % 10
    ensures (w + a) % 10 != (w + b) % 10
  {
    SumModTen(w, a);
    SumModTen(w, b);
  }

  lemma SumModTen(x: nat, y: nat)
    ensures var m := x % 10 + y % 10; (x + y) % 10 == if m < 10 then m else m - 10
  {
    assert x == 10 * (x / 10) + x % 10 && y == 10 * (y / 10) + y % 10;
    var m := x % 10 + y % 10;
    var q := x / 10 + y / 10;
    assert x + y == 10 * q + m && 0 <= m < 20;
    if m < 10 { RemainderIs(x + y, q, m); } else { RemainderIs(x + y, q + 1, m - 10); }
  }

  lemma RemainderIs(n: nat, q: nat, r: nat)
    requires n == 10 * q + r && r < 10
    ensures n % 10 == r
  {
  }

  lemma LastDigitDiffers(init: string, a: char, b: char, doubleLast: bool)
    requires AllDigits(init) && IsDigit(a) && IsDigit(b) && a != b
    ensures AllDigits(init + [a]) && AllDigits(init + [b])
    ensures LuhnSum(init + [a], doubleLast) % 10 != LuhnSum(init + [b], doubleLast) % 10
  {
    hide LuhnSum, Weight;
    LuhnSumSnoc(init, a, doubleLast);
    LuhnSumSnoc(init, b, doubleLast);
    WeightIsInjective(DigitValue(a), DigitValue(b), doubleLast);
    DistinctBelowTen(LuhnSum(init, !doubleLast), Weight(DigitValue(a), doubleLast), Weight(DigitValue(b), doubleLast));
  }

  lemma DistinctBelowTen(x: nat, a: nat, b: nat)
    requires a < 10 && b < 10 && a != b
    ensures (a + x) % 10 != (b + x) % 10
  {
    ModShift(x, a, b);
  }

  lemma EarlierDigitsDiffer(x: string, y: string, last: char, doubleLast: bool)
    requires AllDigits(x) && AllDigits(y) && IsDigit(last)
    requires LuhnSum(x, !doubleLast) % 10 != LuhnSum(y, !doubleLast) % 10
    ensures AllDigits(x + [last]) && AllDigits(y + [last])
    ensures LuhnSum(x + [last], doubleLast) % 10 != LuhnSum(y + [last], doubleLast) % 10
  {
    hide LuhnSum;
    LuhnSumSnoc(x, last, doubleLast);
    LuhnSumSnoc(y, last, doubleLast);
    ModShift(Weight(DigitValue(last), doubleLast), LuhnSum(x, !doubleLast), LuhnSum(y, !doubleLast));
  }

  /** A single wrong digit is always caught. */
  lemma {:induction false} LuhnCatchesOneError(s: string, i: nat, c: char, doubleLast: bool)
    requires AllDigits(s) && i < |s| && IsDigit(c) && c != s[i]
    ensures AllDigits(s[i := c])
    ensures LuhnSum(s[i := c], doubleLast) % 10 != LuhnSum(s, doubleLast) % 10
  {
    hide LuhnSum;
    var n := |s| - 1;
    assert s[n] in s && s == s[..n] + [s[n]];
    if i == n {
      assert s[i := c] == s[..n] + [c];
      LastDigitDiffers(s[..n], c, s[n], doubleLast);
    } else {
      assert s[i := c] == s[..n][i := c] + [s[n]];
      LuhnCatchesOneError(s[..n], i, c, !doubleLast);
      EarlierDigitsDiffer(s[..n][i := c], s[..n], s[n], doubleLast);
    }
  }

  lemma WeightIsInjective(a: nat, b: nat, doubled: bool)
    requires a < 10 && b < 10
    ensures Weight(a, doubled) == Weight(b, doubled) ==> a == b
  {
  }

  // ----- credit card numbers -----

  function DigitsOf(s: string): (r: string)
    ensures AllDigits(r)
  {
    if s == "" then "" else (if IsDigit(s[0]) then [s[0]] else "") + DigitsOf(s[1..])
  }

  lemma {:induction false} DigitsOfConcat(a: string, b: string)
    ensures DigitsOf(a + b) == DigitsOf(a) + DigitsOf(b)
  {
    if a == "" {
      assert a + b == b;
    } else {
      assert (a + b)[1..] == a[1..] + b;
      DigitsOfConcat(a[1..], b);
    }
  }

  lemma {:induction false} DigitsOfDigits(s: string)
    requires AllDigits(s)
    ensures DigitsOf(s) == s
  {
    if s != "" {
      assert s[0] in s;
      DigitsOfDigits(s[1..]);
    }
  }

  function Grouped(full: string): string
    requires |full| == 16
  {
    full[0..4] + "-" + full[4..8] + "-" + full[8..12] + "-" + full[12..16]
  }

  lemma DigitsOfGrouped(full: string)
    requires |full| == 16 && AllDigits(full)
    ensures DigitsOf(Grouped(full)) == full
  {
    hide DigitsOf;
    var a, b, c, d := full[0..4], full[4..8], full[8..12], full[12..16];
    DigitsOfDigits(a);
    DigitsOfDigits(b);
    DigitsOfDigits(c);
    DigitsOfDigits(d);
    DigitsOfDash();
    DigitsOfConcat(a + "-" + b + "-" + c + "-", d);
    DigitsOfConcat(a + "-" + b + "-" + c, "-");
    DigitsOfConcat(a + "-" + b + "-", c);
    DigitsOfConcat(a + "-" + b, "-");
    DigitsOfConcat(a + "-", b);
    DigitsOfConcat(a, "-");
    assert full == a + b + c + d;
  }

  lemma DigitsOfDash()
    ensures DigitsOf("-") == ""
  {
    assert "-"[1..] == "";
  }

  function IssuerPrefix(digits: string): (r: string)
    requires AllDigits(digits)
    ensures |r| == 6 && AllDigits(r)
  {
    if |digits| >= 6 then digits[..6] else "400000"
  }

  /** The fake is 16 digits in groups of four: the issuer prefix, nine digits
      drawn from the hash and the check digit that makes the number valid. */
  method CreditCardFake(seed: string, s: string, hmac: Hmac) returns (r: string)
    ensures |DigitsOf(r)| == 16 && r == Grouped(DigitsOf(r))
    ensures LuhnValid(DigitsOf(r))
    ensures DigitsOf(r)[..6] == if |DigitsOf(s)| >= 6 then DigitsOf(s)[..6] else "400000"
    ensures |r| == 19 && r[4] == r[9] == r[14] == '-'
    ensures forall i :: 0 <= i < 9 ==> DigitsOf(r)[6 + i] == DigitChar(hmac(seed, s)[i] % 10)
  {
    var digits := ExtractDigits(s);
    r := CardFrom(IssuerPrefix(digits), hmac(seed, s));
  }

  method ExtractDigits(s: string) returns (digits: string)
    ensures digits == DigitsOf(s)
  {
    hide DigitsOf;
    digits := "";
    assert s[..0] == "";
    DigitsOfDigits("");
    for i := 0 to |s|
      invariant digits == DigitsOf(s[..i])
    {
      assert s[..i + 1] == s[..i] + [s[i]];
      DigitsOfConcat(s[..i], [s[i]]);
      DigitsOfOne(s[i]);
      if IsDigit(s[i]) { digits := digits + [s[i]]; }
    }
    assert s[..|s|] == s;
  }

  lemma DigitsOfOne(c: char)
    ensures DigitsOf([c]) == if IsDigit(c) then [c] else ""
  {
    assert [c][1..] == "";
  }

  method CardFrom(prefix: string, h: seq<Byte>) returns (r: string)
    requires |prefix| == 6 && AllDigits(prefix) && |h| == BLOCK
    ensures |DigitsOf(r)| == 16 && r == Grouped(DigitsOf(r))
    ensures LuhnValid(DigitsOf(r))
    ensures DigitsOf(r)[..6] == prefix
    ensures forall i :: 0 <= i < 9 ==> DigitsOf(r)[6 + i] == DigitChar(h[i] % 10)
  {
    hide DigitsOf, LuhnSum;
    var mid := "";
    for i := 0 to 9
      invariant |mid| == i && AllDigits(mid)
      invariant forall k :: 0 <= k < i ==> mid[k] == DigitChar(h[k] % 10)
    {
      mid := mid + [DigitChar(h[i] % 10)];
    }
    var base := prefix + mid;
    var check := LuhnCheckDigit(base);
    CheckDigitIsTheOne(base, DigitChar(check));
    var full := base + [DigitChar(check)];
    DigitsOfGrouped(full);
    r := Grouped(full);
  }

  // ----- filling a pattern from the hash chain -----

  /** One output position: copied, or drawn from the hash as a digit or a letter. */
  datatype Slot = Literal(c: char) | Digit | Letter

  function Draw(slot: Slot, b: Byte): char
    requires !slot.Literal?
  {
    if slot.Digit? then DigitChar(b % 10) else 'a' + (b % 26) as char
  }

  /** Fills the slots left to right; when a block is used up the next one is the
      hash of the output so far. */
  function Fill(slots: seq<Slot>, seed: string, hmac: Hmac, h: seq<Byte>, hi: nat, buf: string): string
    requires |h| == BLOCK && hi <= BLOCK
    decreases |slots|
  {
    if slots == [] then buf
    else if slots[0].Literal? then Fill(slots[1..], seed, hmac, h, hi, buf + [slots[0].c])
    else
      var h1 := if hi >= BLOCK then hmac(seed, buf) else h;
      var i1 := if hi >= BLOCK then 0 else hi;
      Fill(slots[1..], seed, hmac, h1, i1 + 1, buf + [Draw(slots[0], h1[i1])])
  }

  function Filled(slots: seq<Slot>, seed: string, s: string, hmac: Hmac): string {
    Fill(slots, seed, hmac, hmac(seed, s), 0, "")
  }

  function PhoneSlot(c: char): Slot { if IsDigit(c) then Digit else Literal(c) }

  function PatternSlot(c: char): Slot { if c == '#' then Digit else if c == '?' then Letter else Literal(c) }

  function SlotsOf(s: string, slot: char -> Slot): seq<Slot> { seq(|s|, i requires 0 <= i < |s| => slot(s[i])) }

  method PhoneFake(seed: string, s: string, hmac: Hmac) returns (buf: string)
    ensures buf == Filled(SlotsOf(s, PhoneSlot), seed, s, hmac)
    ensures |buf| == |s| && forall i :: 0 <= i < |s| ==> if '0' <= s[i] <= '9' then '0' <= buf[i] <= '9' else buf[i] == s[i]
  {
    var h, hi := hmac(seed, s), 0;
    buf := "";
    ghost var slots := SlotsOf(s, PhoneSlot);
    assert slots[0..] == slots;
    for i := 0 to |s|
      invariant |h| == BLOCK && hi <= BLOCK
      invariant |buf| == i && forall k :: 0 <= k < i ==> if '0' <= s[k] <= '9' then '0' <= buf[k] <= '9' else buf[k] == s[k]
      invariant Filled(slots, seed, s, hmac) == Fill(slots[i..], seed, hmac, h, hi, buf)
    {
      assert slots[i..][1..] == slots[i + 1..] && slots[i] == PhoneSlot(s[i]);
      if IsDigit(s[i]) {
        if hi >= |h| {
          h, hi := hmac(seed, buf), 0;
        }
        buf := buf + [DigitChar(h[hi] % 10)];
        hi := hi + 1;
      } else {
        buf := buf + [s[i]];
      }
    }
  }

  method NumericFake(length: nat, seed: string, s: string, hmac: Hmac) returns (buf: string)
    ensures buf == Filled(seq(length, _ => Digit), seed, s, hmac)
    ensures |buf| == length && forall i :: 0 <= i < length ==> '0' <= buf[i] <= '9'
  {
    var h, hi := hmac(seed, s), 0;
    buf := "";
    ghost var slots: seq<Slot> := seq(length, _ => Digit);
    assert slots[0..] == slots;
    for i := 0 to length
      invariant |h| == BLOCK && hi <= BLOCK
      invariant |buf| == i && forall k :: 0 <= k < i ==> '0' <= buf[k] <= '9'
      invariant Filled(slots, seed, s, hmac) == Fill(slots[i..], seed, hmac, h, hi, buf)
    {
      assert slots[i..][1..] == slots[i + 1..] && slots[i] == Digit;
      if hi >= |h| {
        h, hi := hmac(seed, buf), 0;
      }
      buf := buf + [DigitChar(h[hi] % 10)];
      hi := hi + 1;
    }
  }

  method PatternFake(pattern: string, seed: string, s: string, hmac: Hmac) returns (buf: string)
    ensures buf == Filled(SlotsOf(pattern, PatternSlot), seed, s, hmac)
    ensures |buf| == |pattern| && forall i :: 0 <= i < |pattern| ==>
      if pattern[i] == '#' then '0' <= buf[i] <= '9' else if pattern[i] == '?' then 'a' <= buf[i] <= 'z' else buf[i] == pattern[i]
  {
    var h, hi := hmac(seed, s), 0;
    buf := "";
    ghost var slots := SlotsOf(pattern, PatternSlot);
    assert slots[0..] == slots;
    for i := 0 to |pattern|
      invariant |h| == BLOCK && hi <= BLOCK
      invariant |buf| == i && forall k :: 0 <= k < i ==>
        if pattern[k] == '#' then '0' <= buf[k] <= '9' else if pattern[k] == '?' then 'a' <= buf[k] <= 'z' else buf[k] == pattern[k]
      invariant Filled(slots, seed, s, hmac) == Fill(slots[i..], seed, hmac, h, hi, buf)
    {
      assert slots[i..][1..] == slots[i + 1..] && slots[i] == PatternSlot(pattern[i]);
      if pattern[i] == '#' || pattern[i] == '?' {
        if hi >= |h| {
          h, hi := hmac(seed, buf), 0;
        }
        buf := buf + [if pattern[i] == '#' then DigitChar(h[hi] % 10) else 'a' + (h[hi] % 26) as char];
        hi := hi + 1;
      } else {
        buf := buf + [pattern[i]];
      }
    }
  }

  // ----- what filling produces -----

  /** How many of the slots are drawn from the hash. */
  function Draws(slots: seq<Slot>): nat {
    if slots == [] then 0 else Draws(slots[..|slots| - 1]) + if slots[|slots| - 1].Literal? then 0 else 1
  }

  /** The block the `k`-th draw reads: the hash of the input for the first 32,
      and from then on the hash of the output up to the draw that opened it. */
  ghost predicate InBlock(slots: seq<Slot>, seed: string, s: string, hmac: Hmac, r: string, k: nat, block: seq<Byte>)
    requires |r| == |slots|
  {
    if k < BLOCK then block == hmac(seed, s)
    else exists p :: 0 <= p < |slots| && !slots[p].Literal? && Draws(slots[..p]) == k - k % BLOCK && block == hmac(seed, r[..p])
  }

  /** Position `i` of the output: a literal is kept, and the `k`-th drawn position
      takes byte `k` modulo 32 of its block. */
  ghost predicate Shaped(slots: seq<Slot>, seed: string, s: string, hmac: Hmac, r: string, i: nat)
    requires |r| == |slots| && i < |slots|
  {
    if slots[i].Literal? then r[i] == slots[i].c
    else
      var k := Draws(slots[..i]);
      exists block: seq<Byte> :: |block| == BLOCK && InBlock(slots, seed, s, hmac, r, k, block) &&
        if slots[i].Digit? then IsDigit(r[i]) && DigitValue(r[i]) == block[k % BLOCK] % 10
        else r[i] as int == 'a' as int + block[k % BLOCK] % 26
  }

  /** The state of the chain after `i` slots, seen from the final output. */
  ghost predicate ChainAt(slots: seq<Slot>, seed: string, s: string, hmac: Hmac, r: string, i: nat, h: seq<Byte>, hi: nat)
    requires |r| == |slots| && i <= |slots|
  {
    var k := Draws(slots[..i]);
    |h| == BLOCK &&
    if k == 0 then hi == 0 && h == hmac(seed, s)
    else hi == (k - 1) % BLOCK + 1 && InBlock(slots, seed, s, hmac, r, k - 1, h)
  }

  lemma {:induction false} FillExtends(slots: seq<Slot>, seed: string, hmac: Hmac, h: seq<Byte>, hi: nat, buf: string)
    requires |h| == BLOCK && hi <= BLOCK
    ensures |Fill(slots, seed, hmac, h, hi, buf)| == |buf| + |slots|
    ensures buf <= Fill(slots, seed, hmac, h, hi, buf)
    decreases |slots|
  {
    if slots != [] {
      if slots[0].Literal? {
        FillExtends(slots[1..], seed, hmac, h, hi, buf + [slots[0].c]);
      } else {
        var h1 := if hi >= BLOCK then hmac(seed, buf) else h;
        var i1 := if hi >= BLOCK then 0 else hi;
        FillExtends(slots[1..], seed, hmac, h1, i1 + 1, buf + [Draw(slots[0], h1[i1])]);
      }
    }
  }

  lemma DrawsStep(slots: seq<Slot>, i: nat)
    requires i < |slots|
    ensures Draws(slots[..i + 1]) == Draws(slots[..i]) + if slots[i].Literal? then 0 else 1
  {
    assert slots[..i + 1][..i] == slots[..i];
  }

  lemma FillStep(slots: seq<Slot>, seed: string, hmac: Hmac, i: nat, h: seq<Byte>, hi: nat, r: string)
    requires |r| == |slots| && i < |slots| && |h| == BLOCK && hi <= BLOCK
    requires Fill(slots[i..], seed, hmac, h, hi, r[..i]) == r
    ensures slots[i].Literal? ==>
      r[i] == slots[i].c && Fill(slots[i + 1..], seed, hmac, h, hi, r[..i + 1]) == r
    ensures !slots[i].Literal? ==>
      (var h1 := if hi >= BLOCK then hmac(seed, r[..i]) else h;
       var i1 := if hi >= BLOCK then 0 else hi;
       r[i] == Draw(slots[i], h1[i1]) && Fill(slots[i + 1..], seed, hmac, h1, i1 + 1, r[..i + 1]) == r)
  {
    hide Draw;
    assert slots[i..][0] == slots[i] && slots[i..][1..] == slots[i + 1..];
    var h1 := if hi >= BLOCK then hmac(seed, r[..i]) else h;
    var i1 := if hi >= BLOCK then 0 else hi;
    if slots[i].Literal? {
      FillExtends(slots[i + 1..], seed, hmac, h, hi, r[..i] + [slots[i].c]);
      assert r[..i + 1] == r[..i] + [slots[i].c];
    } else {
      FillExtends(slots[i + 1..], seed, hmac, h1, i1 + 1, r[..i] + [Draw(slots[i], h1[i1])]);
      assert r[..i + 1] == r[..i] + [Draw(slots[i], h1[i1])];
    }
  }

  /** Drawing once moves the chain on by one byte, within its block. */
  lemma ChainDraw(slots: seq<Slot>, seed: string, s: string, hmac: Hmac, r: string, i: nat, h: seq<Byte>, hi: nat)
    requires |r| == |slots| && i < |slots| && !slots[i].Literal?
    requires ChainAt(slots, seed, s, hmac, r, i, h, hi)
    ensures hi <= BLOCK
    ensures var k := Draws(slots[..i]);
      var h1 := if hi >= BLOCK then hmac(seed, r[..i]) else h;
      var i1 := if hi >= BLOCK then 0 else hi;
      i1 == k % BLOCK && InBlock(slots, seed, s, hmac, r, k, h1) &&
      ChainAt(slots, seed, s, hmac, r, i + 1, h1, i1 + 1)
  {
    hide Draws;
    DrawsStep(slots, i);
    var k := Draws(slots[..i]);
    if k > 0 { NextInBlock(k); }
  }

  /** Where the draw after the `k`-th stands. */
  lemma NextInBlock(k: nat)
    requires k > 0
    ensures (k - 1) % BLOCK == BLOCK - 1 ==> k % BLOCK == 0 && k >= BLOCK
    ensures (k - 1) % BLOCK != BLOCK - 1 ==>
      k % BLOCK == (k - 1) % BLOCK + 1 && k - k % BLOCK == (k - 1) - (k - 1) % BLOCK && (k >= BLOCK <==> k - 1 >= BLOCK)
  {
    var q, r := (k - 1) / BLOCK, (k - 1) % BLOCK;
    assert k - 1 == BLOCK * q + r;
    if r == BLOCK - 1 {
      assert k == BLOCK * (q + 1);
    } else {
      assert k == BLOCK * q + (r + 1);
    }
  }

  lemma LiteralStep(slots: seq<Slot>, seed: string, s: string, hmac: Hmac, r: string, i: nat, h: seq<Byte>, hi: nat)
    requires |r| == |slots| && i < |slots| && slots[i].Literal? && r[i] == slots[i].c
    requires ChainAt(slots, seed, s, hmac, r, i, h, hi)
    ensures Shaped(slots, seed, s, hmac, r, i) && ChainAt(slots, seed, s, hmac, r, i + 1, h, hi)
  {
    hide Draws, InBlock;
    DrawsStep(slots, i);
  }

  lemma DrawStep(slots: seq<Slot>, seed: string, s: string, hmac: Hmac, r: string, i: nat, h: seq<Byte>, hi: nat)
    requires |r| == |slots| && i < |slots| && !slots[i].Literal? && |h| == BLOCK && hi <= BLOCK
    requires ChainAt(slots, seed, s, hmac, r, i, h, hi)
    requires r[i] == Draw(slots[i], if hi >= BLOCK then hmac(seed, r[..i])[0] else h[hi])
    ensures Shaped(slots, seed, s, hmac, r, i)
    ensures ChainAt(slots, seed, s, hmac, r, i + 1, if hi >= BLOCK then hmac(seed, r[..i]) else h, (if hi >= BLOCK then 0 else hi) + 1)
  {
    ChainDraw(slots, seed, s, hmac, r, i, h, hi);
    hide Draws, InBlock, Draw, ChainAt;
    var h1 := if hi >= BLOCK then hmac(seed, r[..i]) else h;
    assert InBlock(slots, seed, s, hmac, r, Draws(slots[..i]), h1);
  }

  lemma {:induction false} FillShapes(slots: seq<Slot>, seed: string, s: string, hmac: Hmac, r: string, i: nat, h: seq<Byte>, hi: nat)
    requires |r| == |slots| && i <= |slots| && |h| == BLOCK && hi <= BLOCK
    requires ChainAt(slots, seed, s, hmac, r, i, h, hi)
    requires Fill(slots[i..], seed, hmac, h, hi, r[..i]) == r
    ensures forall j: nat :: i <= j < |slots| ==> Shaped(slots, seed, s, hmac, r, j)
    decreases |slots| - i
  {
    hide Fill, ChainAt, Shaped, Draw;
    if i < |slots| {
      FillStep(slots, seed, hmac, i, h, hi, r);
      if slots[i].Literal? {
        LiteralStep(slots, seed, s, hmac, r, i, h, hi);
        FillShapes(slots, seed, s, hmac, r, i + 1, h, hi);
      } else {
        var h1 := if hi >= BLOCK then hmac(seed, r[..i]) else h;
        var i1 := if hi >= BLOCK then 0 else hi;
        DrawStep(slots, seed, s, hmac, r, i, h, hi);
        FillShapes(slots, seed, s, hmac, r, i + 1, h1, i1 + 1);
      }
    }
  }

  /** Every filled string has the length of its pattern and, position by position,
      the literal or a digit or letter of the right hash block. */
  lemma FilledIsShaped(slots: seq<Slot>, seed: string, s: string, hmac: Hmac)
    ensures |Filled(slots, seed, s, hmac)| == |slots|
    ensures forall j: nat :: j < |slots| ==> Shaped(slots, seed, s, hmac, Filled(slots, seed, s, hmac), j)
  {
    var r := Filled(slots, seed, s, hmac);
    FillExtends(slots, seed, hmac, hmac(seed, s), 0, "");
    assert slots[0..] == slots && r[..0] == "" && slots[..0] == [];
    FillShapes(slots, seed, s, hmac, r, 0, hmac(seed, s), 0);
  }

  /** In particular character classes are kept. */
  lemma FilledKeepsClasses(slots: seq<Slot>, seed: string, s: string, hmac: Hmac, j: nat)
    requires j < |slots|
    ensures |Filled(slots, seed, s, hmac)| == |slots|
    ensures var c := Filled(slots, seed, s, hmac)[j];
      match slots[j]
      case Literal(l) => c == l
      case Digit => IsDigit(c)
      case Letter => 'a' <= c <= 'z'
  {
    FilledIsShaped(slots, seed, s, hmac);
    assert Shaped(slots, seed, s, hmac, Filled(slots, seed, s, hmac), j);
  }
}
