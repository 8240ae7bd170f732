/**
 * What the three forms share about the batch of lines being entered: the rejection
 * reasons of "add item", deletion by position, the search for a line by item id, and
 * the guard that refuses to submit an empty batch.
 */
module Batch {
  import opened Wrappers

  /** A parsed quantity passes the "greater than zero" check: it is a number and positive. */
  predicate IsPositiveQuantity(qty: Option<real>)
  {
    qty.Some? && qty.value > 0.0
  }

  /** Why "add item" refused; the form shows the matching message and changes nothing. */
  datatype AddError =
    | NoItemSelected
    | InvalidQuantity
    | NoUnitSelected
    | InsufficientStock(shownStock: real, shownUnit: string)
    | AlreadyInList

  /** The outcome of pressing "submit": refused because the batch is empty, or the payload handed to the remote call. */
  datatype Submission<+P> = RejectedEmpty | Send(payload: P)

  /**
   * `s` without the element at `index`; an index outside `s` removes nothing.
   * The other elements keep their order.
   */
  function RemoveAt<T>(s: seq<T>, index: int): (r: seq<T>)
    ensures 0 <= index < |s| ==> |r| == |s| - 1
    ensures 0 <= index < |s| ==> forall k :: 0 <= k < index ==> r[k] == s[k]
    ensures 0 <= index < |s| ==> forall k :: index <= k < |r| ==> r[k] == s[k + 1]
    ensures 0 <= index < |s| ==> multiset(r) + multiset{s[index]} == multiset(s)
    ensures !(0 <= index < |s|) ==> r == s
  {
    if 0 <= index < |s| then
      assert s == s[..index] + [s[index]] + s[index + 1..];
      s[..index] + s[index + 1..]
    else
      s
  }

  /** Keeps every element whose position differs from `index`, scanning `s` once. */
  method FilterOutIndex<T>(s: seq<T>, index: int) returns (r: seq<T>)
    ensures r == RemoveAt(s, index)
  {
    r := [];
    var i := 0;
    while i < |s|
      invariant 0 <= i <= |s|
      invariant r == if 0 <= index < i then s[..index] + s[index + 1..i] else s[..i]
    {
      if i != index {
        assert s[..i + 1] == s[..i] + [s[i]];
        assert 0 <= index < i ==> s[index + 1..i + 1] == s[index + 1..i] + [s[i]];
        r := r + [s[i]];
      } else {
        assert s[index + 1..i + 1] == [];
      }
      i := i + 1;
    }
    assert s[..|s|] == s;
    assert 0 <= index < |s| ==> s[index + 1..|s|] == s[index + 1..];
  }

  /** Some element of `s` carries the key `id`. */
  predicate HasKey<T>(s: seq<T>, key: T -> string, id: string)
  {
    exists k :: 0 <= k < |s| && key(s[k]) == id
  }

  /** No two elements of `s` carry the same key. */
  ghost predicate DistinctKeys<T>(s: seq<T>, key: T -> string)
  {
    forall i, j :: 0 <= i < j < |s| ==> key(s[i]) != key(s[j])
  }

  /** The position of the first element whose key is `id`, or -1 when there is none. */
  method FindIndex<T>(s: seq<T>, key: T -> string, id: string) returns (idx: int)
    ensures -1 <= idx < |s|
    ensures idx == -1 <==> !HasKey(s, key, id)
    ensures 0 <= idx ==> key(s[idx]) == id && forall k :: 0 <= k < idx ==> key(s[k]) != id
  {
    var i := 0;
    while i < |s|
      invariant 0 <= i <= |s|
      invariant forall k :: 0 <= k < i ==> key(s[k]) != id
    {
      if key(s[i]) == id {
        return i;
      }
      i := i + 1;
    }
    return -1;
  }

  /** Appending an element whose key is new keeps the keys distinct. */
  lemma AppendKeepsDistinct<T>(s: seq<T>, key: T -> string, x: T)
    requires DistinctKeys(s, key) && !HasKey(s, key, key(x))
    ensures DistinctKeys(s + [x], key)
  {
  }

  /** Removing an element keeps the keys distinct. */
  lemma RemoveAtKeepsDistinct<T>(s: seq<T>, key: T -> string, index: int)
    requires DistinctKeys(s, key)
    ensures DistinctKeys(RemoveAt(s, index), key)
  {
  }
}
