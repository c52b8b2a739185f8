/**
 * The three ways the service reads a table through the ORM, over a table kept
 * as a sequence of rows in insertion order: `find` with a where-clause
 * (Filter), `findOne` (Find) and `find` with `skip`/`take` (Window).
 */
module Query {
  import opened Wrappers

  /** The rows of `s` that satisfy `f`, in table order. */
  function Filter<T>(s: seq<T>, f: T -> bool): (r: seq<T>)
    ensures |r| <= |s|
  {
    if s == [] then []
    else (if f(s[0]) then [s[0]] else []) + Filter(s[1..], f)
  }

  /** Filter keeps exactly the rows that satisfy `f`. */
  lemma {:induction false} FilterMembers<T>(s: seq<T>, f: T -> bool)
    ensures forall i :: 0 <= i < |Filter(s, f)| ==> Filter(s, f)[i] in s && f(Filter(s, f)[i])
    ensures forall i :: 0 <= i < |s| && f(s[i]) ==> s[i] in Filter(s, f)
  {
    if s != [] {
      FilterMembers(s[1..], f);
      var head := if f(s[0]) then [s[0]] else [];
      var r := Filter(s, f);
      assert r == head + Filter(s[1..], f);
      forall i | 0 <= i < |r|
        ensures r[i] in s && f(r[i])
      {
        if i >= |head| {
          assert r[i] == Filter(s[1..], f)[i - |head|];
        }
      }
      forall i | 0 <= i < |s| && f(s[i])
        ensures s[i] in r
      {
        if i > 0 {
          assert s[i] == s[1..][i - 1];
        }
      }
    }
  }

  lemma {:induction false} FilterNone<T>(s: seq<T>, f: T -> bool)
    requires forall i :: 0 <= i < |s| ==> !f(s[i])
    ensures Filter(s, f) == []
  {
    if s != [] {
      FilterNone(s[1..], f);
    }
  }

  /** The position of the first row of `s` that satisfies `f`, if any. */
  function Find<T>(s: seq<T>, f: T -> bool): (r: Option<nat>)
    ensures r.Some? ==> r.value < |s| && f(s[r.value])
    ensures r.Some? ==> forall j :: 0 <= j < r.value ==> !f(s[j])
    ensures r.None? <==> forall j :: 0 <= j < |s| ==> !f(s[j])
  {
    if s == [] then None
    else if f(s[0]) then Some(0)
    else match Find(s[1..], f)
      case None => None
      case Some(k) => Some(k + 1)
  }

  function Min(a: int, b: int): int { if a <= b then a else b }

  /** `skip` rows dropped, then at most `take` rows kept. */
  function Window<T>(s: seq<T>, skip: nat, take: nat): (r: seq<T>)
    ensures |r| <= take
    ensures skip >= |s| ==> r == []
  {
    if skip >= |s| then [] else s[skip..Min(skip + take, |s|)]
  }

  /** The first `count` pages of `perPage` rows each. */
  function Pages<T>(s: seq<T>, perPage: nat, count: nat): seq<T>
  {
    if count == 0 then [] else Pages(s, perPage, count - 1) + Window(s, (count - 1) * perPage, perPage)
  }

  /** Reading pages 1, 2, ..., count in turn yields every row once, in order, up to count * perPage rows. */
  lemma {:induction false} PagesArePrefix<T>(s: seq<T>, perPage: nat, count: nat)
    ensures Pages(s, perPage, count) == s[..Min(count * perPage, |s|)]
  {
    if count > 0 {
      PagesArePrefix(s, perPage, count - 1);
      var lo := (count - 1) * perPage;
      assert count * perPage == lo + perPage;
      if lo < |s| {
        assert s[..Min(lo, |s|)] + s[lo..Min(lo + perPage, |s|)] == s[..Min(lo + perPage, |s|)];
      }
    }
  }

  /** Sequences of `f`-rows distribute over concatenation. */
  lemma {:induction false} FilterAppend<T>(a: seq<T>, b: seq<T>, f: T -> bool)
    ensures Filter(a + b, f) == Filter(a, f) + Filter(b, f)
  {
    if a != [] {
      assert (a + b)[1..] == a[1..] + b;
      FilterAppend(a[1..], b, f);
    } else {
      assert a + b == b;
    }
  }

  /** Reading one more element extends the prefix read so far by that element. */
  lemma PrefixGrows<T>(s: seq<T>, j: nat)
    requires j < |s|
    ensures s[..j + 1] == s[..j] + [s[j]]
  {
  }
}
