/**
 * The deck's record of decisions: which cats were liked, and in what order
 * (the `likedCats` array of script.js:16, appended to at script.js:189-191).
 */
module Deck {
  /** The items whose decision is "like", in encounter order. */
  function Kept<T>(items: seq<T>, liked: seq<bool>): (r: seq<T>)
    requires |items| == |liked|
    ensures |r| <= |items|
  {
    if items == [] then []
    else
      var n := |items| - 1;
      Kept(items[..n], liked[..n]) + (if liked[n] then [items[n]] else [])
  }

  /** The positions of the "like" decisions, in increasing order. */
  function LikedPositions(liked: seq<bool>): (ps: seq<nat>)
    ensures forall k :: 0 <= k < |ps| ==> ps[k] < |liked| && liked[ps[k]]
    ensures forall j, k :: 0 <= j < k < |ps| ==> ps[j] < ps[k]
    ensures forall i :: 0 <= i < |liked| && liked[i] ==> i in ps
  {
    if liked == [] then []
    else
      var n := |liked| - 1;
      LikedPositions(liked[..n]) + (if liked[n] then [n] else [])
  }

  /** `ps` picks the elements of `xs` out of `ys` at strictly increasing positions. */
  ghost predicate Embeds<T>(ps: seq<nat>, xs: seq<T>, ys: seq<T>)
  {
    && |ps| == |xs|
    && (forall j, k :: 0 <= j < k < |ps| ==> ps[j] < ps[k])
    && (forall k :: 0 <= k < |ps| ==> ps[k] < |ys| && xs[k] == ys[ps[k]])
  }

  /** `xs` is an order-preserving subsequence of `ys`. */
  ghost predicate IsSubsequence<T>(xs: seq<T>, ys: seq<T>)
  {
    exists ps :: Embeds(ps, xs, ys)
  }

  /** The k-th kept item is the item at the k-th "like" position. */
  lemma {:induction false} KeptAt<T>(items: seq<T>, liked: seq<bool>)
    requires |items| == |liked|
    ensures |Kept(items, liked)| == |LikedPositions(liked)|
    ensures forall k :: 0 <= k < |Kept(items, liked)| ==>
      Kept(items, liked)[k] == items[LikedPositions(liked)[k]]
  {
    if items != [] {
      var n := |items| - 1;
      KeptAt(items[..n], liked[..n]);
    }
  }

  /** The kept items are an order-preserving subsequence of all items. */
  lemma KeptIsSubsequence<T>(items: seq<T>, liked: seq<bool>)
    requires |items| == |liked|
    ensures IsSubsequence(Kept(items, liked), items)
  {
    KeptAt(items, liked);
    assert Embeds(LikedPositions(liked), Kept(items, liked), items);
  }

  /** An item is kept exactly when some "like" decision was made on it. */
  lemma KeptMembers<T>(items: seq<T>, liked: seq<bool>, x: T)
    requires |items| == |liked|
    ensures x in Kept(items, liked) <==> exists i :: 0 <= i < |items| && liked[i] && items[i] == x
  {
    KeptAt(items, liked);
    var ps := LikedPositions(liked);
    if x in Kept(items, liked) {
      var k :| 0 <= k < |Kept(items, liked)| && Kept(items, liked)[k] == x;
      assert liked[ps[k]] && items[ps[k]] == x;
    }
    if exists i :: 0 <= i < |items| && liked[i] && items[i] == x {
      var i :| 0 <= i < |items| && liked[i] && items[i] == x;
      var k :| 0 <= k < |ps| && ps[k] == i;
      assert Kept(items, liked)[k] == x;
    }
  }

  /** Recording one more decision extends the kept items by that item exactly when it is a like. */
  lemma KeptStep<T>(items: seq<T>, liked: seq<bool>, i: nat, like: bool)
    requires |liked| == i < |items|
    ensures Kept(items[..i + 1], liked + [like])
      == Kept(items[..i], liked) + (if like then [items[i]] else [])
  {
    assert items[..i + 1][..i] == items[..i];
    assert (liked + [like])[..i] == liked;
  }
}
