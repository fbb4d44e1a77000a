/** Sequence operations the TypeScript code gets from `Array.prototype` (filter, find,
    includes, slice) and from `Set` (insertion-ordered, duplicate-free), and the lookup of a
    key in an object literal, whose keys are modelled as an ordered list of entries. */
module Seqs {
  import opened Wrappers

  /** `a` can be obtained from `b` by deleting elements: an order-preserving selection. */
  ghost predicate IsSubsequence<T>(a: seq<T>, b: seq<T>)
    decreases |b|
  {
    if a == [] then true
    else if b == [] then false
    else (a[0] == b[0] && IsSubsequence(a[1..], b[1..])) || IsSubsequence(a, b[1..])
  }

  /** No element occurs twice. */
  ghost predicate NoDuplicates<T>(s: seq<T>) {
    forall i, j :: 0 <= i < j < |s| ==> s[i] != s[j]
  }

  /** `s.filter(p)`: the elements satisfying `p`, in their original order. */
  function Filter<T(==,!new)>(s: seq<T>, p: T -> bool): (r: seq<T>)
    ensures forall x :: x in r <==> x in s && p(x)
    ensures IsSubsequence(r, s)
    ensures |r| <= |s|
    decreases |s|
  {
    if s == [] then []
    else
      var rest := Filter(s[1..], p);
      if p(s[0]) then [s[0]] + rest else rest
  }

  /** Filtering by a predicate every element satisfies changes nothing. */
  lemma {:induction false} FilterAll<T(!new)>(s: seq<T>, p: T -> bool)
    requires forall x :: x in s ==> p(x)
    ensures Filter(s, p) == s
    decreases |s|
  {
    if s != [] {
      assert s[0] in s;
      forall x | x in s[1..] ensures p(x) { assert x in s; }
      FilterAll(s[1..], p);
    }
  }

  /** Two filters in a row are one filter by the conjunction. */
  lemma {:induction false} FilterFilter<T(!new)>(s: seq<T>, p: T -> bool, q: T -> bool, pq: T -> bool)
    requires forall x :: pq(x) == (p(x) && q(x))
    ensures Filter(Filter(s, p), q) == Filter(s, pq)
    decreases |s|
  {
    if s != [] {
      FilterFilter(s[1..], p, q, pq);
      if p(s[0]) {
        assert Filter(s, p) == [s[0]] + Filter(s[1..], p);
        assert Filter(s, p)[1..] == Filter(s[1..], p);
      }
    }
  }

  /** Filters by predicates that agree on every element give the same result. */
  lemma {:induction false} FilterSame<T(!new)>(s: seq<T>, p: T -> bool, q: T -> bool)
    requires forall x :: x in s ==> p(x) == q(x)
    ensures Filter(s, p) == Filter(s, q)
    decreases |s|
  {
    if s != [] {
      assert s[0] in s;
      forall x | x in s[1..] ensures p(x) == q(x) { assert x in s; }
      FilterSame(s[1..], p, q);
    }
  }

  /** The first stage of a filter pipeline that may be switched off: applying `q` when
      `active`, or nothing, is filtering by `!active || q`. */
  lemma FilterFirstStage<T(!new)>(s: seq<T>, q: T -> bool, next: T -> bool, active: bool)
    requires forall x :: next(x) == (!active || q(x))
    ensures (if active then Filter(s, q) else s) == Filter(s, next)
  {
    if active {
      FilterSame(s, q, next);
    } else {
      FilterAll(s, next);
    }
  }

  /** A later stage: filtering what passed `k` by `q` when `active` is filtering by
      `k && (!active || q)`. */
  lemma FilterStage<T(!new)>(s: seq<T>, k: T -> bool, q: T -> bool, next: T -> bool, active: bool)
    requires forall x :: next(x) == (k(x) && (!active || q(x)))
    ensures (if active then Filter(Filter(s, k), q) else Filter(s, k)) == Filter(s, next)
  {
    if active {
      FilterFilter(s, k, q, next);
    } else {
      FilterSame(s, k, next);
    }
  }

  /** A filter with no qualifying element is empty. */
  lemma {:induction false} FilterNone<T(!new)>(s: seq<T>, p: T -> bool)
    requires forall x :: x in s ==> !p(x)
    ensures Filter(s, p) == []
    decreases |s|
  {
    if s != [] {
      assert s[0] in s;
      forall x | x in s[1..] ensures !p(x) { assert x in s; }
      FilterNone(s[1..], p);
    }
  }

  /** A filter that keeps as many elements as it is given keeps all of them. */
  lemma {:induction false} FilterFull<T(!new)>(s: seq<T>, p: T -> bool)
    requires |Filter(s, p)| == |s|
    ensures forall x :: x in s ==> p(x)
    decreases |s|
  {
    if s != [] {
      assert |Filter(s[1..], p)| <= |s| - 1;
      assert p(s[0]);
      FilterFull(s[1..], p);
      forall x | x in s ensures p(x) {
        if x != s[0] { assert x in s[1..]; }
      }
    }
  }

  /** The length of a filter is 0 exactly when no element qualifies, and the whole length
      exactly when every element does. */
  lemma FilterCount<T(!new)>(s: seq<T>, p: T -> bool)
    ensures |Filter(s, p)| == 0 <==> forall x :: x in s ==> !p(x)
    ensures |Filter(s, p)| == |s| <==> forall x :: x in s ==> p(x)
  {
    if forall x :: x in s ==> !p(x) { FilterNone(s, p); }
    if forall x :: x in s ==> p(x) { FilterAll(s, p); }
    if |Filter(s, p)| == |s| { FilterFull(s, p); }
    if |Filter(s, p)| == 0 {
      assert Filter(s, p) == [];
    }
  }

  /** Filtering a concatenation filters each part. */
  lemma {:induction false} FilterAppend<T(!new)>(a: seq<T>, b: seq<T>, p: T -> bool)
    ensures Filter(a + b, p) == Filter(a, p) + Filter(b, p)
    decreases |a|
  {
    if a == [] {
      assert a + b == b;
    } else {
      assert (a + b)[0] == a[0];
      assert (a + b)[1..] == a[1..] + b;
      FilterAppend(a[1..], b, p);
    }
  }

  /** `s.slice(0, n)`: the first `n` elements, or all of them when there are fewer. */
  function Take<T>(s: seq<T>, n: nat): (r: seq<T>)
    ensures |r| <= n && |r| <= |s|
    ensures n <= |s| ==> |r| == n
    ensures r == s[..|r|]
  {
    if n <= |s| then s[..n] else s
  }

  /** `s.findIndex(p)`, with -1 rendered as None: the index of the first element
      satisfying `p`. */
  function FindIndex<T>(s: seq<T>, p: T -> bool): (r: Option<nat>)
    ensures r.Some? ==> r.value < |s| && p(s[r.value])
    ensures r.Some? ==> forall j :: 0 <= j < r.value ==> !p(s[j])
    ensures r.None? <==> forall j :: 0 <= j < |s| ==> !p(s[j])
    decreases |s|
  {
    if s == [] then None
    else if p(s[0]) then Some(0)
    else
      match FindIndex(s[1..], p)
      case None => None
      case Some(i) => Some(i + 1)
  }

  /** `s.find(p)`: the first element satisfying `p`, or None. */
  function Find<T>(s: seq<T>, p: T -> bool): (r: Option<T>)
    ensures r.Some? ==> exists i :: 0 <= i < |s| && s[i] == r.value && p(s[i])
                                     && forall j :: 0 <= j < i ==> !p(s[j])
    ensures r.None? <==> forall j :: 0 <= j < |s| ==> !p(s[j])
  {
    match FindIndex(s, p)
    case None => None
    case Some(i) => Some(s[i])
  }

  /** `table[key]` on an object literal whose entries are listed in declaration order. */
  function Lookup<V>(table: seq<(string, V)>, key: string): (r: Option<V>)
    ensures r.None? <==> forall i :: 0 <= i < |table| ==> table[i].0 != key
    ensures r.Some? ==> (key, r.value) in table
  {
    match FindIndex(table, (e: (string, V)) => e.0 == key)
    case None => None
    case Some(i) => Some(table[i].1)
  }

  /** `s.filter(y => y !== x)`: every copy of `x` removed, the rest in order. */
  function Without<T(==,!new)>(s: seq<T>, x: T): (r: seq<T>)
    ensures forall y :: y in r <==> y in s && y != x
    ensures IsSubsequence(r, s)
  {
    Filter(s, (y: T) => y != x)
  }

  /** The bookmark/topic toggle: remove every copy of `x` if present, else append it. */
  function Toggle<T(==,!new)>(s: seq<T>, x: T): (r: seq<T>)
    ensures x in r <==> x !in s
    ensures forall y :: y != x ==> (y in r <==> y in s)
    ensures x !in s ==> r == s + [x]
  {
    if x in s then Without(s, x) else s + [x]
  }

  /** Toggling an absent element twice gives back the very same list; toggling a present
      one twice keeps the same members (its copies are gathered at the end). */
  lemma ToggleTwice<T(!new)>(s: seq<T>, x: T)
    ensures forall y :: y in Toggle(Toggle(s, x), x) <==> y in s
    ensures x !in s ==> Toggle(Toggle(s, x), x) == s
  {
    if x !in s {
      FilterAll(s, (y: T) => y != x);
      FilterSnoc(s, x, (y: T) => y != x);
    }
  }

  lemma {:induction false} FilterSnoc<T(!new)>(s: seq<T>, x: T, p: T -> bool)
    ensures Filter(s + [x], p) == Filter(s, p) + (if p(x) then [x] else [])
    decreases |s|
  {
    if s == [] {
      assert [] + [x] == [x];
    } else {
      assert (s + [x])[1..] == s[1..] + [x];
      FilterSnoc(s[1..], x, p);
    }
  }

  /** `set.add(x)` on an insertion-ordered set held as a duplicate-free list. */
  function Add<T(==,!new)>(s: seq<T>, x: T): (r: seq<T>)
    ensures NoDuplicates(s) ==> NoDuplicates(r)
    ensures forall y :: y in r <==> y in s || y == x
  {
    if x in s then s else s + [x]
  }

  /** `Array.from(new Set(s))`: the distinct elements of `s` in first-insertion order. */
  function Dedup<T(==,!new)>(s: seq<T>): (r: seq<T>)
    ensures NoDuplicates(r)
    ensures forall y :: y in r <==> y in s
    decreases |s|
  {
    if s == [] then []
    else
      var pre := s[..|s| - 1];
      assert forall y :: y in s <==> y in pre || y == s[|s| - 1] by {
        assert s == pre + [s[|s| - 1]];
      }
      Add(Dedup(pre), s[|s| - 1])
  }

  /** Feeding one more element to the set is `Add`. */
  lemma DedupSnoc<T(!new)>(s: seq<T>, x: T)
    ensures Dedup(s + [x]) == Add(Dedup(s), x)
  {
    assert (s + [x])[..|s + [x]| - 1] == s;
  }

  /** The values of an ordered table, as `Object.values` lists them. */
  function Values<K, V>(table: seq<(K, V)>): (r: seq<V>)
    ensures |r| == |table|
    ensures forall i :: 0 <= i < |table| ==> r[i] == table[i].1
  {
    seq(|table|, i requires 0 <= i < |table| => table[i].1)
  }

  /** The lists joined end to end (`[...a, ...b, ...]`). */
  function Concat<T>(ss: seq<seq<T>>): (r: seq<T>)
    ensures forall i, x :: 0 <= i < |ss| && x in ss[i] ==> x in r
    decreases |ss|
  {
    if ss == [] then []
    else
      var pre := ss[..|ss| - 1];
      assert forall i :: 0 <= i < |pre| ==> pre[i] == ss[i];
      Concat(pre) + ss[|ss| - 1]
  }

  /** The first match in a concatenation is the first match of the front part, if any. */
  lemma FindAppend<T>(a: seq<T>, b: seq<T>, p: T -> bool)
    ensures Find(a + b, p) == if Find(a, p).Some? then Find(a, p) else Find(b, p)
  {
    var ia := FindIndex(a, p);
    var iab := FindIndex(a + b, p);
    if ia.Some? {
      assert forall j :: 0 <= j < |a| ==> (a + b)[j] == a[j];
      assert iab == ia;
    } else {
      var ib := FindIndex(b, p);
      assert forall j :: 0 <= j < |a| ==> (a + b)[j] == a[j];
      if ib.Some? {
        assert forall j :: |a| <= j < |a| + |b| ==> (a + b)[j] == b[j - |a|];
        var k := |a| + ib.value;
        assert p((a + b)[k]);
        assert forall j :: 0 <= j < |a| ==> !p((a + b)[j]);
        assert forall j :: 0 <= j < k ==> !p((a + b)[j]);
        assert iab == Some(|a| + ib.value);
      } else {
        forall j | |a| <= j < |a| + |b| ensures !p((a + b)[j]) {
          assert (a + b)[j] == b[j - |a|];
        }
        assert iab.None?;
      }
    }
  }

  /** No key occurs twice in the table. */
  ghost predicate KeysDistinct<V>(table: seq<(string, V)>) {
    forall i, j :: 0 <= i < j < |table| ==> table[i].0 != table[j].0
  }

  /** In a table with distinct keys, looking up the key of an entry finds that entry. */
  lemma LookupDistinct<V>(table: seq<(string, V)>, i: nat)
    requires KeysDistinct(table) && i < |table|
    ensures Lookup(table, table[i].0) == Some(table[i].1)
  {
    var found := FindIndex(table, (e: (string, V)) => e.0 == table[i].0);
    assert found.Some?;
  }

  /** Concatenating a prefix and the rest gives the whole concatenation. */
  lemma {:induction false} ConcatSplit<T>(ss: seq<seq<T>>, k: nat)
    requires k <= |ss|
    ensures Concat(ss) == Concat(ss[..k]) + Concat(ss[k..])
    decreases |ss| - k
  {
    if k < |ss| {
      ConcatSplit(ss, k + 1);
      assert ss[..k + 1][..k] == ss[..k];
      assert Concat(ss[..k + 1]) == Concat(ss[..k]) + ss[k];
      ConcatCons(ss[k], ss[k + 1..]);
      assert ss[k..] == [ss[k]] + ss[k + 1..];
    } else {
      assert ss[..k] == ss;
    }
  }

  lemma {:induction false} ConcatCons<T>(x: seq<T>, ss: seq<seq<T>>)
    ensures Concat([x] + ss) == x + Concat(ss)
    decreases |ss|
  {
    if ss == [] {
      assert ([x] + ss)[..0] == [];
    } else {
      var pre, last := ss[..|ss| - 1], ss[|ss| - 1];
      var xs := [x] + ss;
      assert xs[..|xs| - 1] == [x] + pre;
      assert xs[|xs| - 1] == last;
      assert Concat(xs) == Concat([x] + pre) + last;
      assert Concat(ss) == Concat(pre) + last;
      ConcatCons(x, pre);
    }
  }

  /** An element of a concatenation comes from one of its parts. */
  lemma {:induction false} ConcatMembers<T>(ss: seq<seq<T>>, univ: seq<T>)
    requires forall i, x :: 0 <= i < |ss| && x in ss[i] ==> x in univ
    ensures forall x :: x in Concat(ss) ==> x in univ
    decreases |ss|
  {
    if ss != [] {
      var pre := ss[..|ss| - 1];
      assert forall i :: 0 <= i < |pre| ==> pre[i] == ss[i];
      ConcatMembers(pre, univ);
    }
  }

}
