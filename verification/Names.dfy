/** Python's string order and `sorted`. */
module Names {

  /** `a <= b` on strings: by code point, prefixes first. */
  predicate StringLe(a: string, b: string) {
    || a == []
    || (b != [] && (a[0] < b[0] || (a[0] == b[0] && StringLe(a[1..], b[1..]))))
  }

  lemma {:induction false} StringLeTotal(a: string, b: string)
    ensures StringLe(a, b) || StringLe(b, a)
  {
    if a != [] && b != [] {
      StringLeTotal(a[1..], b[1..]);
    }
  }

  lemma {:induction false} StringLeAntisymmetric(a: string, b: string)
    requires StringLe(a, b) && StringLe(b, a)
    ensures a == b
  {
    if a != [] && b != [] {
      StringLeAntisymmetric(a[1..], b[1..]);
      assert a == [a[0]] + a[1..] && b == [b[0]] + b[1..];
    }
  }

  lemma {:induction false} StringLeTransitive(a: string, b: string, c: string)
    requires StringLe(a, b) && StringLe(b, c)
    ensures StringLe(a, c)
  {
    if a != [] && a[0] == b[0] && b[0] == c[0] {
      StringLeTransitive(a[1..], b[1..], c[1..]);
    }
  }

  /** The two strings agree before `k`, and the first is less there. */
  predicate LessAt(a: string, b: string, k: nat) {
    k < |a| && k < |b| && a[..k] == b[..k] && a[k] < b[k]
  }

  predicate IsPrefix(a: string, b: string) {
    |a| <= |b| && b[..|a|] == a
  }

  lemma TailsAlike(a: string, b: string)
    requires a != [] && b != [] && a[0] == b[0]
    ensures IsPrefix(a, b) <==> IsPrefix(a[1..], b[1..])
    ensures forall k: nat :: LessAt(a, b, k + 1) <==> LessAt(a[1..], b[1..], k)
  {
    var c, d := a[1..], b[1..];
    assert a == [a[0]] + c && b == [b[0]] + d;
    if |a| <= |b| {
      assert b[..|a|] == [b[0]] + d[..|c|];
      assert b[..|a|][1..] == d[..|c|];
    }
    forall k: nat | k < |c| && k < |d| ensures a[..k + 1] == b[..k + 1] <==> c[..k] == d[..k] {
      assert a[..k + 1] == [a[0]] + c[..k] && b[..k + 1] == [b[0]] + d[..k];
      assert a[..k + 1][1..] == c[..k] && b[..k + 1][1..] == d[..k];
    }
  }

  lemma HeadsDiffer(a: string, b: string)
    requires a != [] && b != [] && a[0] != b[0]
    ensures !IsPrefix(a, b)
    ensures forall k: nat :: LessAt(a, b, k) <==> k == 0 && a[0] < b[0]
  {
    assert |a| <= |b| ==> b[..|a|][0] == b[0];
    forall k: nat | 0 < k < |a| && k < |b| ensures a[..k] != b[..k] {
      assert a[..k][0] == a[0] && b[..k][0] == b[0];
    }
    assert a[..0] == b[..0];
  }

  /** The order in words: a prefix comes first, otherwise the first difference decides. */
  lemma {:induction false} StringLeIff(a: string, b: string)
    ensures StringLe(a, b) <==> IsPrefix(a, b) || exists k: nat :: LessAt(a, b, k)
  {
    hide IsPrefix, LessAt;
    if a == [] {
      assert IsPrefix(a, b) by { EmptyIsPrefix(b); }
    } else if b == [] {
      NothingBelowEmpty(a);
    } else if a[0] == b[0] {
      StringLeIff(a[1..], b[1..]);
      TailsAlike(a, b);
      assert !LessAt(a, b, 0) by { NotLessAtStart(a, b); }
      if k: nat :| LessAt(a, b, k) {
        var j: nat := k - 1;
        assert LessAt(a, b, j + 1);
        assert LessAt(a[1..], b[1..], j);
      }
      if k: nat :| LessAt(a[1..], b[1..], k) {
        assert LessAt(a, b, k + 1);
      }
    } else {
      HeadsDiffer(a, b);
      assert LessAt(a, b, 0) <==> a[0] < b[0];
    }
  }

  lemma EmptyIsPrefix(b: string)
    ensures IsPrefix([], b)
  {
  }

  lemma NothingBelowEmpty(a: string)
    requires a != []
    ensures !IsPrefix(a, []) && forall k: nat :: !LessAt(a, [], k)
  {
  }

  lemma NotLessAtStart(a: string, b: string)
    requires a != [] && b != [] && a[0] == b[0]
    ensures !LessAt(a, b, 0)
  {
  }

  predicate Ascending(s: seq<string>) {
    forall i, j | 0 <= i <= j < |s| :: StringLe(s[i], s[j])
  }

  function Insert(x: string, s: seq<string>): seq<string> {
    if s == [] then [x]
    else if StringLe(x, s[0]) then [x] + s
    else [s[0]] + Insert(x, s[1..])
  }

  /** `sorted(s)` */
  function Sort(s: seq<string>): seq<string> {
    if s == [] then [] else Insert(s[0], Sort(s[1..]))
  }

  lemma {:induction false} InsertSpec(x: string, s: seq<string>)
    requires Ascending(s)
    ensures Ascending(Insert(x, s)) && multiset(Insert(x, s)) == multiset{x} + multiset(s)
  {
    StringLeTotal(x, x);
    if s == [] {
    } else if StringLe(x, s[0]) {
      forall j | 0 <= j < |s| ensures StringLe(x, s[j]) {
        StringLeTransitive(x, s[0], s[j]);
      }
    } else {
      StringLeTotal(x, s[0]);
      InsertSpec(x, s[1..]);
      assert s == [s[0]] + s[1..];
      var r := Insert(x, s[1..]);
      forall j | 0 <= j < |r| ensures StringLe(s[0], r[j]) {
        assert r[j] in multiset(r);
        assert r[j] == x || r[j] in s[1..];
      }
    }
  }

  /** Sorting gives an ascending permutation. */
  lemma {:induction false} SortSpec(s: seq<string>)
    ensures Ascending(Sort(s)) && multiset(Sort(s)) == multiset(s)
  {
    if s != [] {
      SortSpec(s[1..]);
      InsertSpec(s[0], Sort(s[1..]));
      assert s == [s[0]] + s[1..];
    }
  }

  lemma {:induction false} AscendingUnique(a: seq<string>, b: seq<string>)
    requires Ascending(a) && Ascending(b) && multiset(a) == multiset(b)
    ensures a == b
  {
    if a == [] {
      assert |multiset(b)| == 0;
    } else {
      assert a[0] in multiset(b) && |multiset(a)| == |a| == |b|;
      assert b[0] in multiset(a);
      var i :| 0 <= i < |b| && b[i] == a[0];
      var j :| 0 <= j < |a| && a[j] == b[0];
      StringLeAntisymmetric(a[0], b[0]);
      assert a == [a[0]] + a[1..] && b == [b[0]] + b[1..];
      assert multiset(a[1..]) == multiset(a) - multiset{a[0]};
      AscendingUnique(a[1..], b[1..]);
    }
  }

  /** Sorting forgets the order it was given, and changes nothing that is already sorted. */
  lemma SortCanonical(a: seq<string>, b: seq<string>)
    ensures multiset(a) == multiset(b) ==> Sort(a) == Sort(b)
    ensures Sort(Sort(a)) == Sort(a)
  {
    SortSpec(a);
    SortSpec(b);
    SortSpec(Sort(a));
    if multiset(a) == multiset(b) {
      AscendingUnique(Sort(a), Sort(b));
    }
    AscendingUnique(Sort(Sort(a)), Sort(a));
  }
}
