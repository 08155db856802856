/**
 * Array operations the stores perform on JavaScript arrays, as functions on
 * sequences: `splice` insertion and removal, `filter`, and the
 * `filter((x, i, self) => self.indexOf(x) === i)` idiom that keeps the first
 * occurrence of every value.
 */
module Lists {

  /** `s.splice(i, 0, x)` once the start index has been resolved. */
  function InsertAt<T>(s: seq<T>, i: nat, x: T): (r: seq<T>)
    requires i <= |s|
    ensures |r| == |s| + 1
  {
    s[..i] + [x] + s[i..]
  }

  /** `s.splice(i, 1)` once the start index has been resolved. */
  function RemoveAt<T>(s: seq<T>, i: nat): (r: seq<T>)
    requires i < |s|
    ensures |r| == |s| - 1
  {
    s[..i] + s[i + 1..]
  }

  /** Removing what was just inserted gives the original sequence back. */
  lemma RemoveInsert<T>(s: seq<T>, i: nat, x: T)
    requires i <= |s|
    ensures RemoveAt(InsertAt(s, i, x), i) == s
  {
    var t := InsertAt(s, i, x);
    assert t[..i] == s[..i];
    assert t[i + 1..] == s[i..];
  }

  /**
   * The start index `Array.prototype.splice` resolves: a negative start counts
   * from the end (and stops at 0), a start past the end means the end.
   */
  function SpliceStart(start: int, len: nat): (i: nat)
    ensures i <= len
    ensures 0 <= start <= len ==> i == start
    ensures start > len ==> i == len
    ensures start < 0 ==> i == if len + start < 0 then 0 else len + start
  {
    if start < 0 then (if len + start < 0 then 0 else len + start)
    else if start > len then len
    else start
  }

  /** `s.filter(p)`. */
  function Filter<T>(s: seq<T>, p: T -> bool): (r: seq<T>)
    ensures |r| <= |s|
  {
    if s == [] then [] else (if p(s[0]) then [s[0]] else []) + Filter(s[1..], p)
  }

  /** What `filter` keeps is exactly the elements that pass. */
  lemma {:induction false} FilterMembers<T>(s: seq<T>, p: T -> bool)
    ensures forall x :: x in Filter(s, p) ==> x in s && p(x)
    ensures forall x :: x in s && p(x) ==> x in Filter(s, p)
  {
    if s != [] {
      FilterMembers(s[1..], p);
      assert s == [s[0]] + s[1..];
    }
  }

  /** `filter` distributes over concatenation. */
  lemma {:induction false} FilterAppend<T>(s: seq<T>, t: seq<T>, p: T -> bool)
    ensures Filter(s + t, p) == Filter(s, p) + Filter(t, p)
  {
    if s == [] {
      assert s + t == t;
    } else {
      var h := if p(s[0]) then [s[0]] else [];
      calc {
        Filter(s + t, p);
        { assert (s + t)[0] == s[0]; assert (s + t)[1..] == s[1..] + t; }
        h + Filter(s[1..] + t, p);
        { FilterAppend(s[1..], t, p); }
        h + (Filter(s[1..], p) + Filter(t, p));
        (h + Filter(s[1..], p)) + Filter(t, p);
      }
    }
  }

  /** Filtering a sequence whose elements all pass changes nothing. */
  lemma {:induction false} FilterAllPass<T>(s: seq<T>, p: T -> bool)
    requires forall i :: 0 <= i < |s| ==> p(s[i])
    ensures Filter(s, p) == s
  {
    if s != [] {
      assert forall i :: 0 <= i < |s| - 1 ==> s[1..][i] == s[i + 1];
      FilterAllPass(s[1..], p);
      assert s == [s[0]] + s[1..];
    }
  }

  /** Some element of `s` has key `k`. */
  predicate HasKey<T, K(==)>(s: seq<T>, key: T -> K, k: K)
  {
    exists i :: 0 <= i < |s| && key(s[i]) == k
  }

  /** The index of the first element of `s` whose key is `k`, or `|s|` when there is none. */
  function FirstIndexOfKey<T, K(==)>(s: seq<T>, key: T -> K, k: K): (i: nat)
    ensures i <= |s|
    ensures i < |s| ==> key(s[i]) == k
    ensures forall j :: 0 <= j < i ==> key(s[j]) != k
  {
    if s == [] then 0
    else if key(s[0]) == k then 0
    else 1 + FirstIndexOfKey(s[1..], key, k)
  }

  /**
   * `s.filter((x, i, self) => self.findIndex(y => key(y) === key(x)) === i)`:
   * an element is kept when no earlier element has the same key.
   */
  function DedupBy<T, K(==)>(s: seq<T>, key: T -> K): (r: seq<T>)
    ensures |r| <= |s|
  {
    if s == [] then []
    else
      var init := s[..|s| - 1];
      var last := s[|s| - 1];
      if HasKey(init, key, key(last)) then DedupBy(init, key) else DedupBy(init, key) + [last]
  }

  lemma {:induction false} HasKeyAppend<T, K>(s: seq<T>, x: T, key: T -> K, k: K)
    ensures HasKey(s + [x], key, k) <==> HasKey(s, key, k) || key(x) == k
  {
    if HasKey(s + [x], key, k) {
      var w :| 0 <= w < |s| + 1 && key((s + [x])[w]) == k;
      if w < |s| {
        assert (s + [x])[w] == s[w];
      }
    }
    if HasKey(s, key, k) {
      var w :| 0 <= w < |s| && key(s[w]) == k;
      assert (s + [x])[w] == s[w];
    }
    if key(x) == k {
      assert (s + [x])[|s|] == x;
    }
  }

  lemma {:induction false} FirstIndexOfKeyAppend<T, K>(s: seq<T>, x: T, key: T -> K, k: K)
    ensures FirstIndexOfKey(s + [x], key, k)
         == if HasKey(s, key, k) then FirstIndexOfKey(s, key, k) else if key(x) == k then |s| else |s| + 1
  {
    if s == [] {
      assert [] + [x] == [x];
      assert [x][1..] == [];
    } else {
      assert (s + [x])[0] == s[0];
      assert (s + [x])[1..] == s[1..] + [x];
      if key(s[0]) != k {
        FirstIndexOfKeyAppend(s[1..], x, key, k);
        if HasKey(s, key, k) {
          var w :| 0 <= w < |s| && key(s[w]) == k;
          assert s[1..][w - 1] == s[w];
        }
        if HasKey(s[1..], key, k) {
          var w :| 0 <= w < |s| - 1 && key(s[1..][w]) == k;
          assert s[w + 1] == s[1..][w];
        }
      } else {
        assert HasKey(s, key, k);
      }
    }
  }

  /** No two kept elements share a key, and every key of the input is kept. */
  lemma {:induction false} DedupByKeys<T, K>(s: seq<T>, key: T -> K)
    ensures var r := DedupBy(s, key);
      && (forall i, j :: 0 <= i < j < |r| ==> key(r[i]) != key(r[j]))
      && (forall k :: HasKey(r, key, k) <==> HasKey(s, key, k))
  {
    if s != [] {
      var init := s[..|s| - 1];
      var last := s[|s| - 1];
      assert s == init + [last];
      DedupByKeys(init, key);
      var r0 := DedupBy(init, key);
      var r := DedupBy(s, key);
      forall k
        ensures HasKey(s, key, k) <==> HasKey(init, key, k) || key(last) == k
      {
        HasKeyAppend(init, last, key, k);
      }
      if !HasKey(init, key, key(last)) {
        assert r == r0 + [last];
        forall k
          ensures HasKey(r, key, k) <==> HasKey(r0, key, k) || key(last) == k
        {
          HasKeyAppend(r0, last, key, k);
        }
        forall i, j | 0 <= i < j < |r|
          ensures key(r[i]) != key(r[j])
        {
          assert r[i] == r0[i];
          if j < |r0| {
            assert r[j] == r0[j];
          } else {
            assert HasKey(r0, key, key(r0[i]));
          }
        }
      }
    }
  }

  /**
   * Each kept element is the first element of the input with its key, and the
   * kept elements come in the order in which their keys first occur.
   */
  lemma {:induction false} DedupByFirsts<T, K>(s: seq<T>, key: T -> K)
    ensures var r := DedupBy(s, key);
      && (forall i :: 0 <= i < |r| ==>
            FirstIndexOfKey(s, key, key(r[i])) < |s| && s[FirstIndexOfKey(s, key, key(r[i]))] == r[i])
      && (forall i, j :: 0 <= i < j < |r| ==>
            FirstIndexOfKey(s, key, key(r[i])) < FirstIndexOfKey(s, key, key(r[j])))
  {
    if s != [] {
      var init := s[..|s| - 1];
      var last := s[|s| - 1];
      assert s == init + [last];
      DedupByFirsts(init, key);
      DedupByKeys(init, key);
      var r0 := DedupBy(init, key);
      var r := DedupBy(s, key);
      forall i | 0 <= i < |r0|
        ensures HasKey(init, key, key(r0[i]))
        ensures FirstIndexOfKey(s, key, key(r0[i])) == FirstIndexOfKey(init, key, key(r0[i]))
        ensures s[FirstIndexOfKey(init, key, key(r0[i]))] == r0[i]
      {
        assert HasKey(r0, key, key(r0[i]));
        FirstIndexOfKeyAppend(init, last, key, key(r0[i]));
      }
      if !HasKey(init, key, key(last)) {
        assert r == r0 + [last];
        FirstIndexOfKeyAppend(init, last, key, key(last));
        forall i | 0 <= i < |r|
          ensures FirstIndexOfKey(s, key, key(r[i])) < |s| && s[FirstIndexOfKey(s, key, key(r[i]))] == r[i]
        {
          if i < |r0| {
            assert r[i] == r0[i];
          }
        }
        forall i, j | 0 <= i < j < |r|
          ensures FirstIndexOfKey(s, key, key(r[i])) < FirstIndexOfKey(s, key, key(r[j]))
        {
          assert r[i] == r0[i];
          if j < |r0| {
            assert r[j] == r0[j];
          }
        }
      }
    }
  }

  /** Everything kept comes from the input. */
  lemma DedupBySubset<T, K>(s: seq<T>, key: T -> K)
    ensures forall x :: x in DedupBy(s, key) ==> x in s
  {
    DedupByFirsts(s, key);
    var r := DedupBy(s, key);
    forall x | x in r
      ensures x in s
    {
      var i :| 0 <= i < |r| && r[i] == x;
      assert s[FirstIndexOfKey(s, key, key(r[i]))] == x;
    }
  }

  /** Filtering keeps keys distinct. */
  lemma {:induction false} FilterDistinctKeys<T, K>(s: seq<T>, key: T -> K, p: T -> bool)
    requires forall i, j :: 0 <= i < j < |s| ==> key(s[i]) != key(s[j])
    ensures forall i, j :: 0 <= i < j < |Filter(s, p)| ==> key(Filter(s, p)[i]) != key(Filter(s, p)[j])
  {
    if s != [] {
      var t := s[1..];
      assert forall i, j :: 0 <= i < j < |t| ==> key(t[i]) != key(t[j]) by {
        forall i, j | 0 <= i < j < |t|
          ensures key(t[i]) != key(t[j])
        {
          assert t[i] == s[i + 1] && t[j] == s[j + 1];
        }
      }
      FilterDistinctKeys(t, key, p);
      FilterMembers(t, p);
      var rest := Filter(t, p);
      if p(s[0]) {
        var r := [s[0]] + rest;
        assert Filter(s, p) == r;
        forall i, j | 0 <= i < j < |r|
          ensures key(r[i]) != key(r[j])
        {
          if i == 0 {
            assert r[j] == rest[j - 1];
            assert rest[j - 1] in rest;
            assert r[j] in t;
            var w :| 0 <= w < |t| && t[w] == r[j];
            assert s[w + 1] == r[j];
            assert r[0] == s[0];
            assert key(s[0]) != key(s[w + 1]);
          } else {
            assert r[i] == rest[i - 1] && r[j] == rest[j - 1];
            assert key(rest[i - 1]) != key(rest[j - 1]);
          }
        }
      }
    }
  }

  /** Filtering keeps the order of what it keeps: a measure increasing along `s` increases along the result. */
  lemma {:induction false} FilterIncreasing<T>(s: seq<T>, f: T -> int, p: T -> bool)
    requires forall i, j :: 0 <= i < j < |s| ==> f(s[i]) < f(s[j])
    ensures forall i, j :: 0 <= i < j < |Filter(s, p)| ==> f(Filter(s, p)[i]) < f(Filter(s, p)[j])
  {
    if s != [] {
      var t := s[1..];
      assert forall i, j :: 0 <= i < j < |t| ==> f(t[i]) < f(t[j]) by {
        forall i, j | 0 <= i < j < |t|
          ensures f(t[i]) < f(t[j])
        {
          assert t[i] == s[i + 1] && t[j] == s[j + 1];
        }
      }
      FilterIncreasing(t, f, p);
      FilterMembers(t, p);
      var rest := Filter(t, p);
      if p(s[0]) {
        var r := [s[0]] + rest;
        assert Filter(s, p) == r;
        forall i, j | 0 <= i < j < |r|
          ensures f(r[i]) < f(r[j])
        {
          if i == 0 {
            assert r[j] == rest[j - 1];
            assert rest[j - 1] in rest;
            var w :| 0 <= w < |t| && t[w] == r[j];
            assert s[w + 1] == r[j];
          } else {
            assert r[i] == rest[i - 1] && r[j] == rest[j - 1];
          }
        }
      }
    }
  }

  /** The first element of a non-empty input is always kept, in front. */
  lemma DedupByHead<T, K>(s: seq<T>, key: T -> K)
    requires s != []
    ensures DedupBy(s, key) != [] && DedupBy(s, key)[0] == s[0]
  {
    DedupByKeys(s, key);
    DedupByFirsts(s, key);
    var r := DedupBy(s, key);
    assert HasKey(s, key, key(s[0]));
    assert HasKey(r, key, key(s[0]));
    assert FirstIndexOfKey(s, key, key(s[0])) == 0;
    assert s[FirstIndexOfKey(s, key, key(r[0]))] == r[0];
  }
}
