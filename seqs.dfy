/** The array operations the application uses on its lists (`filter`, `slice`,
    `includes` followed by removal or append), as functions on sequences, with
    the facts about them that the page models rely on. */
module Seqs {
  import opened Wrappers

  function Min(a: int, b: int): (m: int)
    ensures m <= a && m <= b && (m == a || m == b)
  {
    if a <= b then a else b
  }

  /** `s.filter(p)`: the elements satisfying `p`, in their original order. */
  function Filter<T>(s: seq<T>, p: T -> bool): (r: seq<T>)
    ensures |r| <= |s|
    ensures forall i :: 0 <= i < |r| ==> r[i] in s && p(r[i])
    ensures forall i :: 0 <= i < |s| && p(s[i]) ==> s[i] in r
    decreases |s|
  {
    if s == [] then []
    else if p(s[0]) then [s[0]] + Filter(s[1..], p)
    else Filter(s[1..], p)
  }

  /** `a` is `b` with some elements left out, the others kept in order. */
  ghost predicate IsSubsequence<T>(a: seq<T>, b: seq<T>)
    decreases |b|
  {
    if a == [] then true
    else if b == [] then false
    else (a[0] == b[0] && IsSubsequence(a[1..], b[1..])) || IsSubsequence(a, b[1..])
  }

  lemma {:induction false} FilterIsSubsequence<T>(s: seq<T>, p: T -> bool)
    ensures IsSubsequence(Filter(s, p), s)
    decreases |s|
  {
    if s != [] {
      FilterIsSubsequence(s[1..], p);
      var r := Filter(s, p);
      if p(s[0]) {
        assert r[0] == s[0] && r[1..] == Filter(s[1..], p);
      }
    }
  }

  /** A filter whose predicate holds everywhere returns the whole list. */
  lemma {:induction false} FilterKeepsAll<T>(s: seq<T>, p: T -> bool)
    requires forall i :: 0 <= i < |s| ==> p(s[i])
    ensures Filter(s, p) == s
    decreases |s|
  {
    if s != [] {
      FilterKeepsAll(s[1..], p);
    }
  }

  lemma {:induction false} FilterAppend<T>(a: seq<T>, b: seq<T>, p: T -> bool)
    ensures Filter(a + b, p) == Filter(a, p) + Filter(b, p)
    decreases |a|
  {
    if a != [] {
      assert (a + b)[0] == a[0];
      assert (a + b)[1..] == a[1..] + b;
      FilterAppend(a[1..], b, p);
    } else {
      assert a + b == b;
    }
  }

  /** Number of elements satisfying `p` (`s.filter(p).length`). */
  function CountWhere<T>(s: seq<T>, p: T -> bool): (n: nat)
    ensures n <= |s|
  {
    |Filter(s, p)|
  }

  /** Counting splits off the first element. */
  lemma CountWhereCons<T>(s: seq<T>, p: T -> bool)
    requires s != []
    ensures CountWhere(s, p) == (if p(s[0]) then 1 else 0) + CountWhere(s[1..], p)
  {
  }

  /** The count is zero exactly when no element satisfies `p`. */
  lemma CountWhereZero<T>(s: seq<T>, p: T -> bool)
    ensures CountWhere(s, p) == 0 <==> forall i :: 0 <= i < |s| ==> !p(s[i])
  {
    if CountWhere(s, p) != 0 {
      var r := Filter(s, p);
      assert r[0] in s && p(r[0]);
    }
  }

  /** `s.filter(y => y !== x)`. */
  function RemoveAll<T(==)>(s: seq<T>, x: T): (r: seq<T>)
    ensures x !in r
    ensures forall i :: 0 <= i < |r| ==> r[i] in s
    ensures forall i :: 0 <= i < |s| && s[i] != x ==> s[i] in r
  {
    Filter(s, y => y != x)
  }

  lemma RemoveAllAbsent<T>(s: seq<T>, x: T)
    requires x !in s
    ensures RemoveAll(s, x) == s
  {
    FilterKeepsAll(s, y => y != x);
  }

  lemma RemoveAllAppended<T>(s: seq<T>, x: T)
    ensures RemoveAll(s + [x], x) == RemoveAll(s, x)
  {
    FilterAppend(s, [x], y => y != x);
    assert Filter([x], y => y != x) == [];
  }

  /** `s.filter((_, j) => j !== i)`: drops the element at index `i`, if any. */
  function RemoveAt<T>(s: seq<T>, i: int): (r: seq<T>)
    ensures 0 <= i < |s| ==> |r| == |s| - 1 && multiset(r) + multiset{s[i]} == multiset(s)
    ensures !(0 <= i < |s|) ==> r == s
    ensures 0 <= i < |s| ==> forall j :: 0 <= j < |r| ==> r[j] == s[if j < i then j else j + 1]
  {
    if 0 <= i < |s| then
      assert s == s[..i] + [s[i]] + s[i + 1..];
      s[..i] + s[i + 1..]
    else s
  }

  /** `s.slice(0, n)`. */
  function Take<T>(s: seq<T>, n: nat): (r: seq<T>)
    ensures |r| == Min(n, |s|) && r <= s
  {
    s[..Min(n, |s|)]
  }

  /** `s.slice(n)`. */
  function Drop<T>(s: seq<T>, n: nat): (r: seq<T>)
    ensures |r| == |s| - Min(n, |s|)
    ensures Take(s, n) + r == s
  {
    s[Min(n, |s|)..]
  }

  /** `s.slice(start, end)` for non-negative bounds. */
  function Slice<T>(s: seq<T>, start: nat, end: nat): (r: seq<T>)
    ensures |r| == if Min(end, |s|) <= Min(start, |s|) then 0 else Min(end, |s|) - Min(start, |s|)
    ensures forall j :: 0 <= j < |r| ==> r[j] == s[start + j]
  {
    if Min(end, |s|) <= Min(start, |s|) then [] else s[Min(start, |s|)..Min(end, |s|)]
  }

  /** `s.slice(-n)` for n > 0: the last `n` elements (all of them when fewer). */
  function Last<T>(s: seq<T>, n: nat): (r: seq<T>)
    ensures |r| == Min(n, |s|)
    ensures forall j :: 0 <= j < |r| ==> r[j] == s[|s| - |r| + j]
  {
    s[|s| - Min(n, |s|)..]
  }

  /** "remove it if present, otherwise append it", as the toggle handlers do. */
  function Toggle<T(==)>(s: seq<T>, x: T): (r: seq<T>)
    ensures x in r <==> x !in s
    ensures forall i :: 0 <= i < |r| && r[i] != x ==> r[i] in s
    ensures forall i :: 0 <= i < |s| && s[i] != x ==> s[i] in r
  {
    if x in s then RemoveAll(s, x) else s + [x]
  }

  /** Toggling an element that is not in the list, twice, restores the list. */
  lemma ToggleTwiceFromAbsent<T>(s: seq<T>, x: T)
    requires x !in s
    ensures Toggle(Toggle(s, x), x) == s
  {
    assert x in s + [x];
    RemoveAllAppended(s, x);
    RemoveAllAbsent(s, x);
  }

  /** Toggling twice always restores which elements are present. */
  lemma ToggleTwiceSameMembers<T>(s: seq<T>, x: T, y: T)
    ensures y in Toggle(Toggle(s, x), x) <==> y in s
  {
    var once := Toggle(s, x);
    var twice := Toggle(once, x);
    if y != x {
      if y in s {
        var i :| 0 <= i < |s| && s[i] == y;
        var j :| 0 <= j < |once| && once[j] == y;
        assert twice == Toggle(once, x);
      }
      if y in twice {
        var j :| 0 <= j < |twice| && twice[j] == y;
        var k :| 0 <= k < |once| && once[k] == y;
      }
    }
  }

  /** Toggling twice gives the list back when the element was absent, or
      was the last entry of a duplicate-free list. */
  lemma ToggleTwiceRestores<T>(s: seq<T>, x: T)
    requires NoDup(s) && (x !in s || s[|s| - 1] == x)
    ensures Toggle(Toggle(s, x), x) == s
  {
    if x !in s {
      ToggleTwiceFromAbsent(s, x);
    } else {
      var init := s[..|s| - 1];
      assert s == init + [x];
      assert x !in init by {
        forall k | 0 <= k < |init| ensures init[k] != x {
          assert init[k] == s[k];
        }
      }
      RemoveAllAppended(init, x);
      RemoveAllAbsent(init, x);
    }
  }

  /** ... but not always the order: a present element that is not last moves to the end. */
  lemma ToggleTwiceReorders()
    ensures Toggle(Toggle(["a", "b"], "a"), "a") == ["b", "a"]
  {
    var once := Toggle(["a", "b"], "a");
    assert "a" in ["a", "b"];
    assert once == ["b"] by {
      assert Filter(["a", "b"][1..], (y: string) => y != "a") == ["b"] by {
        assert ["a", "b"][1..] == ["b"];
        assert Filter(["b"][1..], (y: string) => y != "a") == [];
      }
    }
    assert "a" !in once;
  }

  predicate NoDup<T(==)>(s: seq<T>)
  {
    forall i, j :: 0 <= i < j < |s| ==> s[i] != s[j]
  }

  lemma {:induction false} FilterNoDup<T>(s: seq<T>, p: T -> bool)
    requires NoDup(s)
    ensures NoDup(Filter(s, p))
    decreases |s|
  {
    if s != [] {
      assert NoDup(s[1..]) by {
        forall i, j | 0 <= i < j < |s[1..]| ensures s[1..][i] != s[1..][j] {
          assert s[1..][i] == s[i + 1] && s[1..][j] == s[j + 1];
        }
      }
      FilterNoDup(s[1..], p);
      if p(s[0]) {
        var rest := Filter(s[1..], p);
        assert s[0] !in s[1..] by {
          forall k | 0 <= k < |s[1..]| ensures s[1..][k] != s[0] {
            assert s[1..][k] == s[k + 1];
          }
        }
        assert s[0] !in rest;
        var r := [s[0]] + rest;
        forall i, j | 0 <= i < j < |r| ensures r[i] != r[j] {
          if i == 0 {
            assert r[j] == rest[j - 1];
          } else {
            assert r[i] == rest[i - 1] && r[j] == rest[j - 1];
          }
        }
      }
    }
  }

  lemma NoDupAppend<T>(s: seq<T>, x: T)
    requires NoDup(s) && x !in s
    ensures NoDup(s + [x])
  {
    var r := s + [x];
    forall i, j | 0 <= i < j < |r| ensures r[i] != r[j] {
      assert r[i] == s[i];
      if j < |s| { assert r[j] == s[j]; }
    }
  }

  /** Toggling keeps a duplicate-free list duplicate-free. */
  lemma ToggleNoDup<T>(s: seq<T>, x: T)
    requires NoDup(s)
    ensures NoDup(Toggle(s, x))
  {
    if x in s {
      FilterNoDup(s, y => y != x);
    } else {
      NoDupAppend(s, x);
    }
  }

  lemma RemoveAllNoDup<T>(s: seq<T>, x: T)
    requires NoDup(s)
    ensures NoDup(RemoveAll(s, x))
  {
    FilterNoDup(s, y => y != x);
  }

  /** `s.find(p)`: the first element satisfying `p`. */
  function Find<T>(s: seq<T>, p: T -> bool): (r: Option<T>)
    ensures r.None? <==> forall i :: 0 <= i < |s| ==> !p(s[i])
    ensures r.Some? ==> exists i :: 0 <= i < |s| && s[i] == r.value && p(s[i]) &&
                                   forall k :: 0 <= k < i ==> !p(s[k])
    decreases |s|
  {
    if s == [] then None
    else if p(s[0]) then Some(s[0])
    else
      var r := Find(s[1..], p);
      assert forall k :: 0 <= k < |s[1..]| ==> s[1..][k] == s[k + 1];
      if r.Some? then
        assert exists i :: 0 <= i < |s| && s[i] == r.value && p(s[i]) && forall k :: 0 <= k < i ==> !p(s[k]) by {
          var i :| 0 <= i < |s[1..]| && s[1..][i] == r.value && p(s[1..][i]) && forall k :: 0 <= k < i ==> !p(s[1..][k]);
          assert s[i + 1] == r.value;
          assert forall k :: 0 <= k < i + 1 ==> !p(s[k]) by {
            forall k | 0 <= k < i + 1 ensures !p(s[k]) {
              if k > 0 { assert s[k] == s[1..][k - 1]; }
            }
          }
        }
        r
      else
        assert forall i :: 0 <= i < |s| ==> !p(s[i]) by {
          forall i | 0 <= i < |s| ensures !p(s[i]) {
            if i > 0 { assert s[i] == s[1..][i - 1]; }
          }
        }
        r
  }

}
