/** String order, sorting and compaction: the meaning of sort.Strings,
    sort.Slice and slices.Compact that the planner and the Graph client use. */
module Ordering {

  /** Go's string order. Strings are sequences of code points here; UTF-8
      keeps their order, so comparing code points compares the bytes. */
  predicate StrLe(a: string, b: string) {
    a == "" || (b != "" && (a[0] < b[0] || (a[0] == b[0] && StrLe(a[1..], b[1..]))))
  }

  lemma {:induction false} StrLeReflexive(a: string)
    ensures StrLe(a, a)
  {
    if a != "" {
      StrLeReflexive(a[1..]);
    }
  }

  lemma {:induction false} StrLeTotal(a: string, b: string)
    ensures StrLe(a, b) || StrLe(b, a)
  {
    if a != "" && b != "" && a[0] == b[0] {
      StrLeTotal(a[1..], b[1..]);
    }
  }

  lemma {:induction false} StrLeTransitive(a: string, b: string, c: string)
    requires StrLe(a, b) && StrLe(b, c)
    ensures StrLe(a, c)
  {
    if a != "" && a[0] == b[0] && b[0] == c[0] {
      StrLeTransitive(a[1..], b[1..], c[1..]);
    }
  }

  lemma {:induction false} StrLeAntisymmetric(a: string, b: string)
    requires StrLe(a, b) && StrLe(b, a)
    ensures a == b
  {
    if a != "" {
      StrLeAntisymmetric(a[1..], b[1..]);
      assert a == [a[0]] + a[1..] && b == [b[0]] + b[1..];
    }
  }

  /** a comes before b at position k, where they first differ. */
  ghost predicate DiffersAt(a: string, b: string, k: nat) {
    k < |a| && k < |b| && a[..k] == b[..k] && a[k] < b[k]
  }

  lemma DifferLater(a: string, b: string)
    requires a != "" && b != "" && a[0] == b[0]
    ensures (exists k: nat :: DiffersAt(a, b, k)) <==> (exists k: nat :: DiffersAt(a[1..], b[1..], k))
  {
    if k: nat :| DiffersAt(a[1..], b[1..], k) {
      assert a[..k + 1] == [a[0]] + a[1..][..k] && b[..k + 1] == [b[0]] + b[1..][..k];
      assert DiffersAt(a, b, k + 1);
    }
    if k: nat :| DiffersAt(a, b, k) {
      assert a[1..][..k - 1] == a[..k][1..] && b[1..][..k - 1] == b[..k][1..];
      assert DiffersAt(a[1..], b[1..], k - 1);
    }
  }

  /** Lexicographic order: a is a prefix of b, or the smaller at the first
      difference. */
  lemma {:induction false} StrLeMeaning(a: string, b: string)
    ensures StrLe(a, b) <==> a <= b || exists k: nat :: DiffersAt(a, b, k)
  {
    if a != "" && b != "" {
      if a[0] == b[0] {
        StrLeMeaning(a[1..], b[1..]);
        DifferLater(a, b);
        assert a == [a[0]] + a[1..] && b == [b[0]] + b[1..];
      } else {
        assert a[0] < b[0] ==> DiffersAt(a, b, 0);
        assert forall k: nat :: DiffersAt(a, b, k) && k > 0 ==> a[..k][0] == b[..k][0];
      }
    }
  }

  /** A comparison that sorting may rely on. */
  ghost predicate TotalPreorder<T(!new)>(le: (T, T) -> bool) {
    && (forall x, y :: le(x, y) || le(y, x))
    && (forall x, y, z :: le(x, y) && le(y, z) ==> le(x, z))
  }

  lemma StrLeIsTotalPreorder()
    ensures TotalPreorder(StrLe)
  {
    forall x, y ensures StrLe(x, y) || StrLe(y, x) { StrLeTotal(x, y); }
    forall x, y, z | StrLe(x, y) && StrLe(y, z) ensures StrLe(x, z) { StrLeTransitive(x, y, z); }
  }

  ghost predicate SortedBy<T>(s: seq<T>, le: (T, T) -> bool) {
    forall i, j | 0 <= i < j < |s| :: le(s[i], s[j])
  }

  /** Places x before the first element it does not exceed. */
  function Insert<T>(x: T, s: seq<T>, le: (T, T) -> bool): (r: seq<T>)
    ensures multiset(r) == multiset(s) + multiset{x}
    ensures |r| == |s| + 1
  {
    if s == [] || le(x, s[0]) then
      [x] + s
    else
      assert s == [s[0]] + s[1..];
      [s[0]] + Insert(x, s[1..], le)
  }

  /** A sorted rearrangement of s. */
  function Sort<T>(s: seq<T>, le: (T, T) -> bool): (r: seq<T>)
    ensures multiset(r) == multiset(s)
    ensures |r| == |s|
  {
    if s == [] then [] else
    assert s == [s[0]] + s[1..];
    Insert(s[0], Sort(s[1..], le), le)
  }

  lemma {:induction false} InsertSorted<T(!new)>(x: T, s: seq<T>, le: (T, T) -> bool)
    requires TotalPreorder(le) && SortedBy(s, le)
    ensures SortedBy(Insert(x, s, le), le)
  {
    if s == [] {
    } else if le(x, s[0]) {
      var r := [x] + s;
      forall i, j | 0 <= i < j < |r| ensures le(r[i], r[j]) {
        assert le(s[0], s[j - 1]) by { assert le(s[0], s[0]); }
      }
    } else {
      InsertSorted(x, s[1..], le);
      var t := Insert(x, s[1..], le);
      forall y | y in t ensures le(s[0], y) {
        assert y in multiset(t);
        assert y == x || y in multiset(s[1..]);
      }
    }
  }

  lemma {:induction false} SortSorts<T(!new)>(s: seq<T>, le: (T, T) -> bool)
    requires TotalPreorder(le)
    ensures SortedBy(Sort(s, le), le)
  {
    if s != [] {
      SortSorts(s[1..], le);
      InsertSorted(s[0], Sort(s[1..], le), le);
    }
  }

  /** No two different elements of s tie under le. */
  ghost predicate NoTies<T(!new)>(s: seq<T>, le: (T, T) -> bool) {
    forall i, j | 0 <= i < |s| && 0 <= j < |s| :: le(s[i], s[j]) && le(s[j], s[i]) ==> s[i] == s[j]
  }

  lemma SortedHeads<T(!new)>(a: seq<T>, b: seq<T>, le: (T, T) -> bool)
    requires a != [] && b != []
    requires SortedBy(a, le) && SortedBy(b, le) && NoTies(a, le)
    requires multiset(a) == multiset(b)
    ensures a[0] == b[0]
  {
    assert a[0] in multiset(b) && b[0] in multiset(a);
    var i :| 0 <= i < |b| && b[i] == a[0];
    var j :| 0 <= j < |a| && a[j] == b[0];
    if i > 0 && j > 0 {
      assert le(a[0], a[j]) && le(b[0], b[i]);
      assert le(a[j], a[0]);
    }
  }

  lemma TailMultiset<T>(a: seq<T>)
    requires a != []
    ensures a == [a[0]] + a[1..]
    ensures multiset(a[1..]) == multiset(a) - multiset{a[0]}
  {
  }

  /** Sorting has one possible result when no two elements tie, so an
      unstable sort is as good as a stable one. */
  lemma {:induction false} SortedUnique<T(!new)>(a: seq<T>, b: seq<T>, le: (T, T) -> bool)
    requires SortedBy(a, le) && SortedBy(b, le) && NoTies(a, le)
    requires multiset(a) == multiset(b)
    ensures a == b
  {
    assert |multiset(a)| == |a| && |multiset(b)| == |b|;
    if a != [] {
      SortedHeads(a, b, le);
      TailMultiset(a);
      TailMultiset(b);
      SortedUnique(a[1..], b[1..], le);
    }
  }

  ghost function Elements<T>(s: seq<T>): set<T> {
    set x | x in s
  }

  lemma ElementsOfMultiset<T>(a: seq<T>, b: seq<T>)
    requires multiset(a) == multiset(b)
    ensures Elements(a) == Elements(b)
  {
    forall x ensures x in a <==> x in b {
      assert x in a <==> x in multiset(a);
      assert x in b <==> x in multiset(b);
    }
  }

  /** Sorted without repetition. */
  ghost predicate StrictlySorted(s: seq<string>) {
    forall i, j | 0 <= i < j < |s| :: StrLe(s[i], s[j]) && s[i] != s[j]
  }

  /** slices.Compact: drops an element equal to its successor. */
  function Compact(s: seq<string>): (r: seq<string>)
    ensures Elements(r) == Elements(s)
    ensures s != [] ==> r != [] && r[0] == s[0]
  {
    if |s| < 2 then s else
    assert s == [s[0]] + s[1..];
    if s[0] == s[1] then
      Compact(s[1..])
    else
      assert forall x :: x in s <==> x == s[0] || x in Elements(Compact(s[1..]));
      [s[0]] + Compact(s[1..])
  }

  lemma {:induction false} CompactStrict(s: seq<string>)
    requires SortedBy(s, StrLe)
    ensures StrictlySorted(Compact(s))
  {
    if |s| >= 2 {
      CompactStrict(s[1..]);
      if s[0] != s[1] {
        var t := Compact(s[1..]);
        forall j | 0 <= j < |t| ensures StrLe(s[0], t[j]) && s[0] != t[j] {
          assert t[j] in Elements(t);
          assert t[j] in s[1..];
          if t[j] == s[0] {
            var k :| 0 <= k < |s[1..]| && s[1..][k] == s[0];
            if k > 0 { assert StrLe(s[1], s[k + 1]); }
            StrLeAntisymmetric(s[0], s[1]);
          }
        }
      }
    }
  }

  /** Append, sort, compact. */
  function UniqueSorted(values: seq<string>): (r: seq<string>) {
    Compact(Sort(values, StrLe))
  }

  lemma UniqueSortedMeaning(values: seq<string>)
    ensures StrictlySorted(UniqueSorted(values))
    ensures Elements(UniqueSorted(values)) == Elements(values)
  {
    StrLeIsTotalPreorder();
    SortSorts(values, StrLe);
    CompactStrict(Sort(values, StrLe));
    ElementsOfMultiset(Sort(values, StrLe), values);
  }

  lemma NonemptyElements<T>(s: seq<T>)
    requires s != []
    ensures Elements(s) != {}
  {
    assert s[0] in Elements(s);
  }

  /** A strictly sorted list is determined by its elements. */
  lemma {:induction false} StrictUnique(a: seq<string>, b: seq<string>)
    requires StrictlySorted(a) && StrictlySorted(b)
    requires Elements(a) == Elements(b)
    ensures a == b
  {
    if a == [] && b != [] { NonemptyElements(b); }
    if b == [] && a != [] { NonemptyElements(a); }
    if a != [] {
      assert a[0] in Elements(b) && b[0] in Elements(a);
      var i :| 0 <= i < |b| && b[i] == a[0];
      var j :| 0 <= j < |a| && a[j] == b[0];
      if a[0] != b[0] {
        StrLeAntisymmetric(a[0], b[0]);
      }
      forall x ensures x in a[1..] <==> x in b[1..] {
        assert x in a[1..] <==> x in Elements(a) && x != a[0] by { StrictTail(a, x); }
        assert x in b[1..] <==> x in Elements(b) && x != b[0] by { StrictTail(b, x); }
      }
      StrictUnique(a[1..], b[1..]);
      assert a == [a[0]] + a[1..] && b == [b[0]] + b[1..];
    }
  }

  lemma StrictTail(a: seq<string>, x: string)
    requires a != [] && StrictlySorted(a)
    ensures x in a[1..] <==> x in a && x != a[0]
  {
  }

  /** Sorting a list without repetition leaves it strictly sorted. */
  lemma SortDistinct(s: seq<string>)
    requires |s| == |Elements(s)|
    ensures StrictlySorted(Sort(s, StrLe)) && Elements(Sort(s, StrLe)) == Elements(s)
  {
    var r := Sort(s, StrLe);
    StrLeIsTotalPreorder();
    SortSorts(s, StrLe);
    ElementsOfMultiset(r, s);
    forall i, j | 0 <= i < j < |r| ensures r[i] != r[j] {
      if r[i] == r[j] {
        RepetitionShrinks(r, i, j);
      }
    }
  }

  lemma RepetitionShrinks<T>(r: seq<T>, i: nat, j: nat)
    requires i < j < |r| && r[i] == r[j]
    ensures |Elements(r)| < |r|
  {
    var rest := r[..j] + r[j + 1..];
    assert Elements(r) == Elements(rest) by {
      forall x ensures x in r <==> x in rest {
        if x in r {
          var k :| 0 <= k < |r| && r[k] == x;
          if k == j { assert rest[i] == x; } else if k < j { assert rest[k] == x; } else { assert rest[k - 1] == x; }
        }
      }
    }
    ElementsAtMost(rest);
  }

  lemma {:induction false} ElementsAtMost<T>(s: seq<T>)
    ensures |Elements(s)| <= |s|
  {
    if s != [] {
      ElementsAtMost(s[1..]);
      assert s == [s[0]] + s[1..];
      assert Elements(s) == Elements(s[1..]) + {s[0]};
    } else {
      assert Elements(s) == {};
    }
  }

  /** The elements of a finite set, each once, in order. */
  ghost function SortedElements(s: set<string>): (r: seq<string>)
    ensures StrictlySorted(r) && Elements(r) == s
  {
    if s == {} then [] else
    var x :| x in s;
    var r := [x] + SortedElements(s - {x});
    UniqueSortedMeaning(r);
    assert Elements(r) == {x} + Elements(SortedElements(s - {x}));
    UniqueSorted(r)
  }
}
