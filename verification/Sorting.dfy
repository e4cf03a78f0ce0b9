/** Stable sorting by a comparison, and the order of strings by code point. */
module Sorting {

  type Order<!T> = (T, T) -> bool

  ghost predicate TotalPreorder<T(!new)>(le: Order<T>) {
    && (forall a, b :: le(a, b) || le(b, a))
    && forall a, b, c :: le(a, b) && le(b, c) ==> le(a, c)
  }

  ghost predicate Sorted<T>(le: Order<T>, s: seq<T>) {
    forall i, j | 0 <= i < j < |s| :: le(s[i], s[j])
  }

  function Insert<T>(le: Order<T>, x: T, s: seq<T>): seq<T> {
    if |s| == 0 || le(x, s[0]) then [x] + s else [s[0]] + Insert(le, x, s[1..])
  }

  /** Insertion sort; equal elements keep their order. */
  function Sort<T>(le: Order<T>, s: seq<T>): seq<T> {
    if |s| == 0 then [] else Insert(le, s[0], Sort(le, s[1..]))
  }

  lemma {:induction false} InsertIs<T(!new)>(le: Order<T>, x: T, s: seq<T>)
    ensures multiset(Insert(le, x, s)) == multiset{x} + multiset(s)
    ensures TotalPreorder(le) && Sorted(le, s) ==> Sorted(le, Insert(le, x, s))
    decreases |s|
  {
    if |s| == 0 || le(x, s[0]) {
    } else {
      InsertIs(le, x, s[1..]);
      assert s == [s[0]] + s[1..];
      var r := Insert(le, x, s[1..]);
      if TotalPreorder(le) && Sorted(le, s) {
        forall j | 0 <= j < |r| ensures le(s[0], r[j]) {
          assert r[j] in multiset(r);
          assert r[j] == x || r[j] in s[1..];
        }
      }
    }
  }

  lemma {:induction false} SortIs<T(!new)>(le: Order<T>, s: seq<T>)
    ensures multiset(Sort(le, s)) == multiset(s)
    ensures TotalPreorder(le) ==> Sorted(le, Sort(le, s))
    decreases |s|
  {
    if |s| > 0 {
      SortIs(le, s[1..]);
      InsertIs(le, s[0], Sort(le, s[1..]));
      assert s == [s[0]] + s[1..];
    }
  }

  predicate StringLe(a: string, b: string) {
    |a| == 0 || (|b| > 0 && (a[0] < b[0] || (a[0] == b[0] && StringLe(a[1..], b[1..]))))
  }

  lemma {:induction false} StringLeTotal(a: string, b: string)
    ensures StringLe(a, b) || StringLe(b, a)
    ensures StringLe(a, b) && StringLe(b, a) ==> a == b
    decreases |a|
  {
    if |a| > 0 && |b| > 0 && a[0] == b[0] {
      StringLeTotal(a[1..], b[1..]);
      assert a == [a[0]] + a[1..] && b == [b[0]] + b[1..];
    }
  }

  lemma {:induction false} StringLeTransitive(a: string, b: string, c: string)
    requires StringLe(a, b) && StringLe(b, c)
    ensures StringLe(a, c)
    decreases |a|
  {
    if |a| > 0 && a[0] == b[0] == c[0] {
      StringLeTransitive(a[1..], b[1..], c[1..]);
    }
  }
}
