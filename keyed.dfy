/**
 * Lists of records that the pages keep one per key (a batch id, a medicine
 * name): the `find`, `filter` and `map` idioms the carts are written with.
 */
module Keyed {
  import opened Wrappers
  import opened Lists

  /** The first element with key `k` (`s.find(x => key(x) === k)`). */
  function Lookup<T>(s: seq<T>, key: T -> string, k: string): (r: Option<T>)
    ensures r.Some? ==> r.value in s && key(r.value) == k
    ensures r.Some? ==> exists i :: 0 <= i < |s| && s[i] == r.value
                          && forall j :: 0 <= j < i ==> key(s[j]) != k
    ensures r.None? <==> forall x :: x in s ==> key(x) != k
  {
    if s == [] then None
    else if key(s[0]) == k then Some(s[0])
    else
      var r := Lookup(s[1..], key, k);
      assert r.Some? ==> exists i :: 0 <= i < |s| && s[i] == r.value && forall j :: 0 <= j < i ==> key(s[j]) != k by {
        if r.Some? {
          var i :| 0 <= i < |s[1..]| && s[1..][i] == r.value && forall j :: 0 <= j < i ==> key(s[1..][j]) != k;
          assert s[i + 1] == r.value && forall j :: 0 <= j < i + 1 ==> key(s[j]) != k;
        }
      }
      r
  }

  /** No two elements share a key. */
  predicate UniqueKeys<T>(s: seq<T>, key: T -> string) {
    s == [] || (Lookup(s[1..], key, key(s[0])).None? && UniqueKeys(s[1..], key))
  }

  function OtherKey<T>(key: T -> string, k: string): T -> bool {
    (x: T) => key(x) != k
  }

  /** `s.filter(x => key(x) !== k)` */
  function WithoutKey<T>(s: seq<T>, key: T -> string, k: string): (r: seq<T>)
    ensures |r| <= |s|
  {
    Filter(s, OtherKey(key, k))
  }

  /** `s.map(x => key(x) === k ? f(x) : x)` */
  function Remap<T>(s: seq<T>, key: T -> string, k: string, f: T -> T): (r: seq<T>)
    ensures |r| == |s|
    ensures forall i :: 0 <= i < |s| ==> r[i] == if key(s[i]) == k then f(s[i]) else s[i]
  {
    if s == [] then [] else [if key(s[0]) == k then f(s[0]) else s[0]] + Remap(s[1..], key, k, f)
  }

  /** Removing a key keeps exactly the elements with other keys. */
  lemma WithoutKeyContents<T>(s: seq<T>, key: T -> string, k: string)
    ensures forall x :: x in WithoutKey(s, key, k) <==> x in s && key(x) != k
    ensures Lookup(WithoutKey(s, key, k), key, k).None?
  {
    forall x
      ensures x in WithoutKey(s, key, k) <==> x in s && key(x) != k
    {
      FilterMember(s, OtherKey(key, k), x);
    }
  }

  lemma {:induction false} WithoutKeyUnique<T>(s: seq<T>, key: T -> string, k: string)
    requires UniqueKeys(s, key)
    ensures UniqueKeys(WithoutKey(s, key, k), key)
  {
    if s != [] {
      WithoutKeyUnique(s[1..], key, k);
      WithoutKeyContents(s[1..], key, k);
    }
  }

  /** Looking a key up after remapping one key: the same element, remapped if its key is the one. */
  lemma {:induction false} RemapLookup<T>(s: seq<T>, key: T -> string, k: string, f: T -> T, x: string)
    requires forall x :: key(f(x)) == key(x)
    ensures Lookup(Remap(s, key, k, f), key, x) == (match Lookup(s, key, x)
                                                    case None => None
                                                    case Some(y) => Some(if x == k then f(y) else y))
  {
    if s != [] {
      var r := Remap(s, key, k, f);
      assert r[1..] == Remap(s[1..], key, k, f);
      assert key(r[0]) == key(s[0]);
      RemapLookup(s[1..], key, k, f, x);
    }
  }

  lemma {:induction false} RemapUnique<T>(s: seq<T>, key: T -> string, k: string, f: T -> T)
    requires (forall x :: key(f(x)) == key(x)) && UniqueKeys(s, key)
    ensures UniqueKeys(Remap(s, key, k, f), key)
  {
    if s != [] {
      var r := Remap(s, key, k, f);
      assert r[1..] == Remap(s[1..], key, k, f);
      assert key(r[0]) == key(s[0]);
      RemapUnique(s[1..], key, k, f);
      RemapLookup(s[1..], key, k, f, key(s[0]));
    }
  }

  /** Remapping one key never touches the elements with other keys. */
  lemma {:induction false} RemapOthers<T>(s: seq<T>, key: T -> string, k: string, f: T -> T)
    requires forall x :: key(f(x)) == key(x)
    ensures WithoutKey(Remap(s, key, k, f), key, k) == WithoutKey(s, key, k)
  {
    if s != [] {
      var r := Remap(s, key, k, f);
      assert r[1..] == Remap(s[1..], key, k, f);
      assert key(r[0]) == key(s[0]);
      RemapOthers(s[1..], key, k, f);
    }
  }

  lemma {:induction false} AppendLookup<T>(s: seq<T>, key: T -> string, n: T, x: string)
    ensures Lookup(s + [n], key, x) == (if Lookup(s, key, x).Some? then Lookup(s, key, x) else if key(n) == x then Some(n) else None)
  {
    if s == [] {
      assert [] + [n] == [n];
    } else {
      assert (s + [n])[1..] == s[1..] + [n];
      AppendLookup(s[1..], key, n, x);
    }
  }

  lemma {:induction false} AppendUnique<T>(s: seq<T>, key: T -> string, n: T)
    requires UniqueKeys(s, key) && Lookup(s, key, key(n)).None?
    ensures UniqueKeys(s + [n], key)
  {
    if s == [] {
      assert [] + [n] == [n];
    } else {
      assert (s + [n])[1..] == s[1..] + [n];
      AppendUnique(s[1..], key, n);
      AppendLookup(s[1..], key, n, key(s[0]));
    }
  }

  /** Appending an element of a new key leaves the other keys' elements as they were. */
  lemma AppendOthers<T>(s: seq<T>, key: T -> string, n: T)
    ensures WithoutKey(s + [n], key, key(n)) == WithoutKey(s, key, key(n))
  {
    FilterAppend(s, [n], OtherKey(key, key(n)));
    assert Filter([n], OtherKey(key, key(n))) == [];
  }

  /** With one element per key, the element found for a key is every element of it. */
  lemma {:induction false} UniqueLookup<T>(s: seq<T>, key: T -> string, x: T)
    requires UniqueKeys(s, key) && x in s
    ensures Lookup(s, key, key(x)) == Some(x)
  {
    if s[0] != x {
      assert x in s[1..];
      UniqueLookup(s[1..], key, x);
    }
  }

  /** With one element per key, elements at different positions have different keys. */
  lemma {:induction false} UniqueApart<T>(s: seq<T>, key: T -> string, i: nat, j: nat)
    requires UniqueKeys(s, key) && i < j < |s|
    ensures key(s[i]) != key(s[j])
  {
    if i == 0 {
      assert s[j] in s[1..];
    } else {
      UniqueApart(s[1..], key, i - 1, j - 1);
    }
  }
}
