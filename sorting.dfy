/** The in-place sort both stores and the admin dashboard apply to their
    lists: `list.sort((a, b) => key(b).localeCompare(key(a)))`, newest
    first, with string comparison read as code-point lexicographic order. */
module Sorting {
  import opened Strings

  /** No element's key is smaller than a later element's key. */
  ghost predicate SortedDescending<T>(s: seq<T>, key: T -> string)
  {
    forall i, j :: 0 <= i < j < |s| ==> LexLe(key(s[j]), key(s[i]))
  }

  method Swap<T>(a: array<T>, i: int, j: int)
    requires 0 <= i < a.Length && 0 <= j < a.Length
    modifies a
    ensures a[..] == old(a[..])[i := old(a[j])][j := old(a[i])]
    ensures multiset(a[..]) == old(multiset(a[..]))
  {
    a[i], a[j] := a[j], a[i];
  }

  /** `perm` maps each position of a sequence of length `n` to the position
      its element came from, one to one and onto. */
  ghost predicate IsPermutation(perm: seq<int>, n: int)
  {
    && |perm| == n
    && (forall i :: 0 <= i < |perm| ==> 0 <= perm[i] < n)
    && (forall i, j :: 0 <= i < j < |perm| ==> perm[i] != perm[j])
    && (forall k :: 0 <= k < n ==> k in perm)
  }

  /** `s` is `input` rearranged by `perm`. */
  ghost predicate Tracks<T>(s: seq<T>, input: seq<T>, perm: seq<int>)
  {
    IsPermutation(perm, |input|) && |s| == |input| &&
    forall k :: 0 <= k < |s| ==> s[k] == input[perm[k]]
  }

  /** Between passes of the sort: the first `i` elements are sorted,
      stably, and the rest have not moved. */
  ghost predicate Outer<T>(s: seq<T>, input: seq<T>, perm: seq<int>, key: T -> string, i: int)
  {
    && 0 <= i <= |s|
    && Tracks(s, input, perm)
    && (forall k, l :: 0 <= k < l < i ==> LexLe(key(s[l]), key(s[k])))
    && (forall k :: i <= k < |s| ==> perm[k] == k)
    && (forall k :: 0 <= k < i ==> perm[k] < i)
    && (forall k, l :: 0 <= k < l < i && key(s[k]) == key(s[l]) ==> perm[k] < perm[l])
  }

  /** While element `i` moves left and now sits at `j`: the rest of the
      first `i + 1` is sorted and stable, and everything it has passed has
      a strictly smaller key. */
  ghost predicate Inserting<T>(s: seq<T>, input: seq<T>, perm: seq<int>, key: T -> string, i: int, j: int)
  {
    && 0 <= j <= i < |s|
    && Tracks(s, input, perm)
    && (forall k, l :: 0 <= k < l <= i && l != j ==> LexLe(key(s[l]), key(s[k])))
    && (forall k :: i < k < |s| ==> perm[k] == k)
    && perm[j] == i
    && (forall k :: 0 <= k <= i && k != j ==> perm[k] < i)
    && (forall k, l :: 0 <= k < l <= i && k != j && l != j && key(s[k]) == key(s[l]) ==> perm[k] < perm[l])
    && (forall l :: j < l <= i ==> key(s[l]) != key(s[j]))
  }

  lemma IdentityPermutation<T>(s: seq<T>, key: T -> string)
    ensures Outer(s, s, seq(|s|, k => k), key, 0)
  {
    var perm := seq(|s|, k => k);
    forall k | 0 <= k < |s|
      ensures k in perm
    {
      assert perm[k] == k;
    }
  }

  lemma StartInserting<T>(s: seq<T>, input: seq<T>, perm: seq<int>, key: T -> string, i: int)
    requires Outer(s, input, perm, key, i) && i < |s|
    ensures Inserting(s, input, perm, key, i, i)
  {
  }

  /** One swap moves element `i` past a neighbour with a smaller key. */
  lemma InsertStep<T>(s: seq<T>, input: seq<T>, perm: seq<int>, key: T -> string, i: int, j: int)
    requires Inserting(s, input, perm, key, i, j)
    requires j > 0 && !LexLe(key(s[j]), key(s[j - 1]))
    ensures Inserting(s[j - 1 := s[j]][j := s[j - 1]], input, perm[j - 1 := perm[j]][j := perm[j - 1]], key, i, j - 1)
  {
    LexLeTotal(key(s[j]), key(s[j - 1]));
    LexLeRefl(key(s[j]));
    SwapPermutation(perm, j - 1, j);
  }

  /** Element `i` stops once its left neighbour's key is no smaller: the
      first `i + 1` elements are then sorted and stable. */
  lemma EndInserting<T>(s: seq<T>, input: seq<T>, perm: seq<int>, key: T -> string, i: int, j: int)
    requires Inserting(s, input, perm, key, i, j)
    requires j == 0 || LexLe(key(s[j]), key(s[j - 1]))
    ensures Outer(s, input, perm, key, i + 1)
  {
    forall k, l | 0 <= k < l <= i
      ensures LexLe(key(s[l]), key(s[k]))
    {
      if l == j && k < j - 1 {
        LexLeTransitive(key(s[l]), key(s[j - 1]), key(s[k]));
      }
    }
  }

  /** Exchanging two entries of a permutation leaves a permutation. */
  lemma SwapPermutation(perm: seq<int>, i: int, j: int)
    requires IsPermutation(perm, |perm|) && 0 <= i < |perm| && 0 <= j < |perm|
    ensures IsPermutation(perm[i := perm[j]][j := perm[i]], |perm|)
  {
    var swapped := perm[i := perm[j]][j := perm[i]];
    forall k | 0 <= k < |perm|
      ensures k in swapped
    {
      assert k in perm;
      var m :| 0 <= m < |perm| && perm[m] == k;
      if m == i {
        assert swapped[j] == k;
      } else if m == j {
        assert swapped[i] == k;
      } else {
        assert swapped[m] == k;
      }
    }
  }

  /** `s` is `input` sorted by `key`, descending, and rearranged by `perm`
      so that elements with equal keys keep their input order. */
  ghost predicate StablySorted<T>(s: seq<T>, input: seq<T>, perm: seq<int>, key: T -> string)
  {
    && Tracks(s, input, perm)
    && SortedDescending(s, key)
    && (forall i, j :: 0 <= i < j < |s| && key(s[i]) == key(s[j]) ==> perm[i] < perm[j])
  }

  lemma DoneSorting<T>(s: seq<T>, input: seq<T>, perm: seq<int>, key: T -> string)
    requires Outer(s, input, perm, key, |s|)
    ensures StablySorted(s, input, perm, key)
  {
  }

  /** One pass of the sort: element `i` moves left past every element with
      a smaller key. */
  method Insert<T>(a: array<T>, key: T -> string, i: int, ghost input: seq<T>, ghost perm: seq<int>)
    returns (ghost perm': seq<int>)
    requires Outer(a[..], input, perm, key, i) && i < a.Length
    modifies a
    ensures Outer(a[..], input, perm', key, i + 1)
    ensures multiset(a[..]) == old(multiset(a[..]))
  {
    StartInserting(a[..], input, perm, key, i);
    perm' := perm;
    var j := i;
    while j > 0 && !LexLe(key(a[j]), key(a[j - 1]))
      invariant Inserting(a[..], input, perm', key, i, j)
      invariant multiset(a[..]) == old(multiset(a[..]))
    {
      InsertStep(a[..], input, perm', key, i, j);
      Swap(a, j - 1, j);
      perm' := perm'[j - 1 := perm'[j]][j := perm'[j - 1]];
      j := j - 1;
    }
    EndInserting(a[..], input, perm', key, i, j);
  }

  /** Sorts `a` in place by `key`, descending. The result is a permutation
      of the input, and the sort is stable, as JavaScript's
      `Array.prototype.sort` is: `perm[i]` is the input position of the
      element now at `i`, and elements with equal keys keep their input
      order. */
  method SortDescending<T>(a: array<T>, key: T -> string) returns (ghost perm: seq<int>)
    modifies a
    ensures StablySorted(a[..], old(a[..]), perm, key)
    ensures multiset(a[..]) == old(multiset(a[..]))
  {
    ghost var input := a[..];
    perm := seq(a.Length, k => k);
    IdentityPermutation(input, key);
    var i := 0;
    while i < a.Length
      invariant Outer(a[..], input, perm, key, i)
      invariant multiset(a[..]) == multiset(input)
    {
      perm := Insert(a, key, i, input, perm);
      i := i + 1;
    }
    DoneSorting(a[..], input, perm, key);
  }

  /** A sorted copy of `input`: the elements are put into a fresh array
      and sorted there in place. */
  method SortedCopy<T>(input: seq<T>, key: T -> string) returns (s: seq<T>, ghost perm: seq<int>)
    ensures StablySorted(s, input, perm, key)
    ensures multiset(s) == multiset(input)
  {
    var a := new T[|input|](i requires 0 <= i < |input| => input[i]);
    assert a[..] == input;
    perm := SortDescending(a, key);
    s := a[..];
  }

  /** Cutting a stably sorted sequence after `n` elements, with `from`
      the input positions of the elements kept: they stay distinct, equal
      keys keep their input order, and an input element left out sorts no
      higher than any element kept and, when their keys tie, came later in
      the input. */
  lemma StableCut<T>(input: seq<T>, s: seq<T>, perm: seq<int>, key: T -> string, n: int)
    requires StablySorted(s, input, perm, key)
    requires 0 <= n <= |s|
    ensures var top, from := s[..n], perm[..n];
      && (forall i :: 0 <= i < n ==> 0 <= from[i] < |input| && top[i] == input[from[i]])
      && (forall i, j :: 0 <= i < j < n ==> from[i] != from[j])
      && (forall i, j :: 0 <= i < j < n && key(top[i]) == key(top[j]) ==> from[i] < from[j])
      && (forall k, i :: 0 <= k < |input| && k !in from && 0 <= i < n ==>
            LexLe(key(input[k]), key(top[i])) && (key(input[k]) == key(top[i]) ==> from[i] < k))
  {
    var top, from := s[..n], perm[..n];
    forall k, i | 0 <= k < |input| && k !in from && 0 <= i < n
      ensures LexLe(key(input[k]), key(top[i])) && (key(input[k]) == key(top[i]) ==> from[i] < k)
    {
      assert k in perm;
      var m :| 0 <= m < |perm| && perm[m] == k;
      assert s[m] == input[k];
    }
  }
}
