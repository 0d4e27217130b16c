/** Ordering of object keys: Go sorts them bytewise before comparing. */
module KeyOrder {
  predicate Less(a: string, b: string) {
    b != "" && (a == "" || a[0] < b[0] || (a[0] == b[0] && Less(a[1..], b[1..])))
  }

  lemma {:induction false} LessTotal(a: string, b: string)
    ensures a != b ==> Less(a, b) || Less(b, a)
    ensures Less(a, b) ==> a != b && !Less(b, a)
  {
    if a != "" && b != "" && a[0] == b[0] {
      LessTotal(a[1..], b[1..]);
      assert a == [a[0]] + a[1..] && b == [b[0]] + b[1..];
    }
  }

  lemma {:induction false} LessTransitive(a: string, b: string, c: string)
    requires Less(a, b) && Less(b, c)
    ensures Less(a, c)
  {
    if a != "" && a[0] == b[0] == c[0] {
      LessTransitive(a[1..], b[1..], c[1..]);
    }
  }

  predicate Sorted(ks: seq<string>) {
    forall i, j :: 0 <= i < j < |ks| ==> Less(ks[i], ks[j])
  }

  /** Inserts a new key where it belongs. */
  function Insert(k: string, ks: seq<string>): (r: seq<string>)
    requires Sorted(ks) && k !in ks
    ensures Sorted(r)
    ensures forall x :: x in r <==> x == k || x in ks
  {
    if ks == [] then [k]
    else
      LessTotal(k, ks[0]);
      if Less(k, ks[0]) then
        assert forall j :: 0 <= j < |ks| ==> Less(k, ks[j]) by {
          forall j | 0 < j < |ks| ensures Less(k, ks[j]) { LessTransitive(k, ks[0], ks[j]); }
        }
        [k] + ks
      else
        var r := Insert(k, ks[1..]);
        assert forall x :: x in r ==> Less(ks[0], x);
        [ks[0]] + r
  }

  ghost function SortedKeys(s: set<string>): (ks: seq<string>)
    ensures Sorted(ks)
    ensures forall k :: k in ks <==> k in s
  {
    if s == {} then [] else var k :| k in s; Insert(k, SortedKeys(s - {k}))
  }

  lemma HasMember<T>(s: seq<T>)
    requires s != []
    ensures exists k :: k in s
  {
    assert s[0] in s;
  }

  lemma {:induction false} SortedIsUnique(a: seq<string>, b: seq<string>)
    requires Sorted(a) && Sorted(b)
    requires forall k :: k in a <==> k in b
    ensures a == b
  {
    if a == [] {
      if b != [] { HasMember(b); }
    } else {
      assert a[0] in b;
      var j :| 0 <= j < |b| && b[j] == a[0];
      assert b[0] in a;
      var i :| 0 <= i < |a| && a[i] == b[0];
      LessTotal(a[0], b[0]);
      assert a[0] == b[0];
      forall k | k in a[1..] ensures k in b[1..] { LessTotal(a[0], k); assert k in b; }
      forall k | k in b[1..] ensures k in a[1..] { LessTotal(b[0], k); assert k in a; }
      SortedIsUnique(a[1..], b[1..]);
    }
  }

  /** Collects the keys of a set into a sorted slice. */
  method SortKeys(s: set<string>) returns (ks: seq<string>)
    ensures ks == SortedKeys(s)
  {
    ks := [];
    var left := s;
    while left != {}
      invariant Sorted(ks) && left <= s
      invariant forall k :: k in ks <==> k in s - left
      decreases left
    {
      var k :| k in left;
      ks := Insert(k, ks);
      left := left - {k};
    }
    SortedIsUnique(ks, SortedKeys(s));
  }
}
