/**
 * Sorting as the two databases do it for `ORDER BY col DESC` and
 * `.sort({ field: 1 | -1 })`: a key per record, compared in BSON order as
 * far as the sorted fields need it (a missing value first, as null; then
 * strings, compared code point by code point; dates last, by their
 * millisecond value), ascending or descending. The sort is an
 * insertion sort that keeps records with equal keys in their original order.
 */
module Ordering {
  import opened Common

  /** A sort key; `Date` holds a date as milliseconds. */
  datatype SortKey = Missing | Text(s: string) | Date(millis: int)

  predicate KeyLe(a: SortKey, b: SortKey) {
    match (a, b)
    case (Missing, _) => true
    case (_, Missing) => false
    case (Text(x), Text(y)) => StrLe(x, y)
    case (Text(_), Date(_)) => true
    case (Date(_), Text(_)) => false
    case (Date(x), Date(y)) => x <= y
  }

  lemma KeyLeTotal(a: SortKey, b: SortKey)
    ensures KeyLe(a, b) || KeyLe(b, a)
  {
    if a.Text? && b.Text? {
      StrLeTotal(a.s, b.s);
    }
  }

  lemma KeyLeTransitive(a: SortKey, b: SortKey, c: SortKey)
    requires KeyLe(a, b) && KeyLe(b, c)
    ensures KeyLe(a, c)
  {
    if a.Text? && b.Text? && c.Text? {
      StrLeTransitive(a.s, b.s, c.s);
    }
  }

  /** `x` may come before `y` in a sort on `key` in the given direction. */
  predicate Precedes<T>(key: T -> SortKey, ascending: bool, x: T, y: T) {
    if ascending then KeyLe(key(x), key(y)) else KeyLe(key(y), key(x))
  }

  lemma PrecedesTotal<T>(key: T -> SortKey, ascending: bool, x: T, y: T)
    ensures Precedes(key, ascending, x, y) || Precedes(key, ascending, y, x)
  {
    KeyLeTotal(key(x), key(y));
  }

  lemma PrecedesTransitive<T>(key: T -> SortKey, ascending: bool, x: T, y: T, z: T)
    requires Precedes(key, ascending, x, y) && Precedes(key, ascending, y, z)
    ensures Precedes(key, ascending, x, z)
  {
    if ascending {
      KeyLeTransitive(key(x), key(y), key(z));
    } else {
      KeyLeTransitive(key(z), key(y), key(x));
    }
  }

  predicate SortedBy<T>(s: seq<T>, key: T -> SortKey, ascending: bool) {
    forall i, j :: 0 <= i < j < |s| ==> Precedes(key, ascending, s[i], s[j])
  }

  /** A record that may precede the head of a sorted list may precede all of it. */
  lemma PrecedesHeadPrecedesAll<T>(key: T -> SortKey, ascending: bool, x: T, s: seq<T>)
    requires SortedBy(s, key, ascending) && s != [] && Precedes(key, ascending, x, s[0])
    ensures forall j :: 0 <= j < |s| ==> Precedes(key, ascending, x, s[j])
  {
    forall j | 0 < j < |s| ensures Precedes(key, ascending, x, s[j]) {
      PrecedesTransitive(key, ascending, x, s[0], s[j]);
    }
  }

  /** A record that may precede every record of a sorted list may head it. */
  lemma SortedCons<T>(key: T -> SortKey, ascending: bool, x: T, s: seq<T>)
    requires SortedBy(s, key, ascending)
    requires forall j :: 0 <= j < |s| ==> Precedes(key, ascending, x, s[j])
    ensures SortedBy([x] + s, key, ascending)
  {
    var r := [x] + s;
    forall i, j | 0 <= i < j < |r| ensures Precedes(key, ascending, r[i], r[j]) {
      assert r[j] == s[j - 1];
      if i > 0 {
        assert r[i] == s[i - 1];
      }
    }
  }

  /** When `x` goes further in, the head of the list may precede everything after it. */
  lemma HeadPrecedesInserted<T>(key: T -> SortKey, ascending: bool, x: T, s: seq<T>, tail: seq<T>)
    requires SortedBy(s, key, ascending) && s != [] && !Precedes(key, ascending, x, s[0])
    requires multiset(tail) == multiset(s[1..]) + multiset{x}
    ensures forall j :: 0 <= j < |tail| ==> Precedes(key, ascending, s[0], tail[j])
  {
    forall j | 0 <= j < |tail| ensures Precedes(key, ascending, s[0], tail[j]) {
      assert tail[j] in multiset(tail);
      if tail[j] == x {
        PrecedesTotal(key, ascending, x, s[0]);
      } else {
        assert tail[j] in multiset(s[1..]);
        var k :| 1 <= k < |s| && s[k] == tail[j];
      }
    }
  }

  /** Places `x` before the first element it may precede. */
  function Insert<T>(x: T, s: seq<T>, key: T -> SortKey, ascending: bool): (r: seq<T>)
    requires SortedBy(s, key, ascending)
    ensures multiset(r) == multiset(s) + multiset{x}
    ensures SortedBy(r, key, ascending)
  {
    if s == [] then [x]
    else if Precedes(key, ascending, x, s[0]) then
      PrecedesHeadPrecedesAll(key, ascending, x, s);
      SortedCons(key, ascending, x, s);
      [x] + s
    else
      var tail := Insert(x, s[1..], key, ascending);
      assert s == [s[0]] + s[1..];
      HeadPrecedesInserted(key, ascending, x, s, tail);
      SortedCons(key, ascending, s[0], tail);
      [s[0]] + tail
  }

  /** The records of `s` sorted on `key`; records with equal keys keep their order. */
  function Sort<T(!new)>(s: seq<T>, key: T -> SortKey, ascending: bool): (r: seq<T>)
    ensures multiset(r) == multiset(s)
    ensures |r| == |s|
    ensures forall x :: x in r <==> x in s
    ensures SortedBy(r, key, ascending)
  {
    if s == [] then []
    else
      assert s == [s[0]] + s[1..];
      var r := Insert(s[0], Sort(s[1..], key, ascending), key, ascending);
      assert forall x :: x in r <==> x in s by {
        forall x ensures x in r <==> x in s {
          assert x in r <==> x in multiset(r);
          assert x in s <==> x in multiset(s);
        }
      }
      r
  }

  /** `.skip(offset).limit(limit)`: at most `limit` records from position `offset` on. */
  function Window<T>(s: seq<T>, offset: nat, limit: nat): (r: seq<T>)
    ensures |r| == if offset >= |s| then 0 else if |s| - offset < limit then |s| - offset else limit
    ensures forall i :: 0 <= i < |r| ==> r[i] == s[offset + i]
  {
    if offset >= |s| then []
    else if |s| - offset < limit then s[offset..]
    else s[offset..offset + limit]
  }
}
