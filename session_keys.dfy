/**
 * The session-key list of an application. The source keeps it in a
 * `std::list<int>`: keys are appended with `push_back` and taken out with
 * `list::remove`, which erases every element equal to the given key and keeps
 * the others in their order.
 */
module SessionKeys {

  /** `list::remove(k)`: every occurrence of `k` erased, the rest kept in order. */
  function RemoveAll(s: seq<int>, k: int): (r: seq<int>)
    ensures k !in r
    ensures forall x :: x in r <==> x in s && x != k
    ensures forall x :: x != k ==> multiset(r)[x] == multiset(s)[x]
    ensures |r| == |s| - multiset(s)[k]
  {
    if s == [] then []
    else
      assert s == [s[0]] + s[1..];
      var rest := RemoveAll(s[1..], k);
      if s[0] == k then rest else [s[0]] + rest
  }

  /** `r` is `s` with some elements dropped and the remaining ones in their original order. */
  ghost predicate IsSubsequence(r: seq<int>, s: seq<int>)
    decreases |s|
  {
    if r == [] then true
    else if s == [] then false
    else if r[0] == s[0] then IsSubsequence(r[1..], s[1..])
    else IsSubsequence(r, s[1..])
  }

  /** Removal keeps the surviving keys in their original order. */
  lemma {:induction false} RemoveAllIsSubsequence(s: seq<int>, k: int)
    ensures IsSubsequence(RemoveAll(s, k), s)
  {
    if s != [] {
      RemoveAllIsSubsequence(s[1..], k);
      var rest := RemoveAll(s[1..], k);
      if s[0] == k {
        SubsequenceOfTail(rest, s);
      } else {
        assert ([s[0]] + rest)[1..] == rest;
      }
    }
  }

  /** A subsequence of the tail is a subsequence of the whole. */
  lemma {:induction false} SubsequenceOfTail(r: seq<int>, s: seq<int>)
    requires s != []
    requires IsSubsequence(r, s[1..])
    ensures IsSubsequence(r, s)
    decreases |s|, 0
  {
    if r != [] && r[0] == s[0] {
      // Both r[1..] and r are subsequences of s[1..]; the first follows from the second.
      SubsequenceDropHead(r, s[1..]);
    }
  }

  /** Dropping the first element of a subsequence leaves a subsequence. */
  lemma {:induction false} SubsequenceDropHead(r: seq<int>, s: seq<int>)
    requires r != []
    requires IsSubsequence(r, s)
    ensures IsSubsequence(r[1..], s)
    decreases |s|, 1
  {
    if r[0] != s[0] {
      SubsequenceDropHead(r, s[1..]);
      SubsequenceOfTail(r[1..], s);
    } else {
      SubsequenceOfTail(r[1..], s);
    }
  }

  /** Removing a key that is not in the list leaves the list as it was. */
  lemma {:induction false} RemoveAbsentIsNoOp(s: seq<int>, k: int)
    requires k !in s
    ensures RemoveAll(s, k) == s
  {
    if s != [] {
      RemoveAbsentIsNoOp(s[1..], k);
      assert s == [s[0]] + s[1..];
    }
  }

  /** Removal distributes over concatenation. */
  lemma {:induction false} RemoveAllAppend(s: seq<int>, t: seq<int>, k: int)
    ensures RemoveAll(s + t, k) == RemoveAll(s, k) + RemoveAll(t, k)
  {
    if s == [] {
      assert s + t == t;
    } else {
      assert (s + t)[1..] == s[1..] + t;
      RemoveAllAppend(s[1..], t, k);
    }
  }

  /** Appending a key and then removing it is the same as removing it alone. */
  lemma AddThenRemove(s: seq<int>, k: int)
    ensures RemoveAll(s + [k], k) == RemoveAll(s, k)
  {
    RemoveAllAppend(s, [k], k);
    assert RemoveAll([k], k) == [];
  }

  /** Appending another key commutes with removing `k`. */
  lemma AddOtherThenRemove(s: seq<int>, x: int, k: int)
    requires x != k
    ensures RemoveAll(s + [x], k) == RemoveAll(s, k) + [x]
  {
    RemoveAllAppend(s, [x], k);
    assert RemoveAll([x], k) == [x];
  }

  /** Removing the same key twice is the same as removing it once. */
  lemma RemoveAllIdempotent(s: seq<int>, k: int)
    ensures RemoveAll(RemoveAll(s, k), k) == RemoveAll(s, k)
  {
  }
}
