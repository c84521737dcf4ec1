/**
 * The deferred commit of script.js exactly as written, on values. The
 * buttons check only that `currentCard` is set before scheduling a decision
 * (script.js:200-208). The timeout body reads `cats[currentIndex]` without
 * checking that a cat is left (script.js:189-193). `renderCards` assigns
 * `currentCard` only when it renders a card (script.js:82-85), so after the
 * last cat it still refers to the removed card. A read past the end of the
 * deck is `undefined`.
 */
module AsWritten {
  import opened Optional
  import opened Batch

  /**
   * The deck state as script.js keeps it, with the decisions whose timeouts
   * are scheduled; a liked entry may be `undefined`.
   */
  datatype Loose = Loose(cats: seq<Cat>, currentIndex: nat, likedCats: seq<Option<Cat>>,
                         currentCard: Option<nat>, pending: seq<bool>)

  /** `cats[i]`: the cat at `i`, or `undefined` past the end. */
  function Element(cats: seq<Cat>, i: nat): (r: Option<Cat>)
    ensures r.Some? <==> i < |cats|
    ensures i < |cats| ==> r.value == cats[i]
  {
    if i < |cats| then Some(cats[i]) else None
  }

  /** A button click as written: a decision is scheduled whenever `currentCard` is set. */
  function ClickAsWritten(s: Loose, liked: bool): (t: Loose)
    ensures t.pending == s.pending + (if s.currentCard.Some? then [liked] else [])
    ensures t.cats == s.cats && t.currentIndex == s.currentIndex && t.likedCats == s.likedCats
    ensures t.currentCard == s.currentCard
  {
    if s.currentCard.None? then s else s.(pending := s.pending + [liked])
  }

  /** The oldest timeout fires: the timeout body of `animateSwipeAndNext` and `renderCards`, unguarded. */
  function FireAsWritten(s: Loose): (t: Loose)
    requires s.pending != []
    ensures t.pending == s.pending[1..]
    ensures t.cats == s.cats && t.currentIndex == s.currentIndex + 1
    ensures t.likedCats == s.likedCats + (if s.pending[0] then [Element(s.cats, s.currentIndex)] else [])
    ensures t.currentIndex < |s.cats| ==> t.currentCard == Some(t.currentIndex)
    ensures t.currentIndex >= |s.cats| ==> t.currentCard == s.currentCard
  {
    var liked := s.pending[0];
    var likedCats := if liked then s.likedCats + [Element(s.cats, s.currentIndex)] else s.likedCats;
    var next := s.currentIndex + 1;
    Loose(s.cats, next, likedCats, if next < |s.cats| then Some(next) else s.currentCard, s.pending[1..])
  }

  /**
   * Once the last cat is decided, the current card is still set, so a LIKE
   * click is scheduled and its timeout pushes `undefined` and moves the
   * cursor past the end of the deck: the bound
   * `currentIndex <= cats.length` and the liked list's subsequence property
   * both break.
   */
  lemma StaleCardOvershoots(s: Loose)
    requires s.currentIndex == |s.cats| && s.currentCard.Some? && s.pending == []
    ensures var t := FireAsWritten(ClickAsWritten(s, true));
      && t.currentIndex == |t.cats| + 1
      && t.likedCats == s.likedCats + [None]
      && t.currentCard == s.currentCard
  {
  }

  /**
   * A one-cat deck and two LIKE clicks before the first timeout fires: both
   * clicks pass the guard, and the second timeout likes a cat that does not
   * exist.
   */
  lemma DoubleLikeOnOneCat(c: Cat)
    ensures var s := ClickAsWritten(ClickAsWritten(Loose([c], 0, [], Some(0), []), true), true);
      var t := FireAsWritten(FireAsWritten(s));
      t.currentIndex == 2 && t.likedCats == [Some(c), None]
  {
  }
}
