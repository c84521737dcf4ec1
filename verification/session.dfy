/**
 * The swiping session of script.js: the module-level state (the deck `cats`,
 * the cursor `currentIndex`, the liked cats `likedCats`, the drag variables
 * and the current card, script.js:14-22) as the fields of one object, and
 * every event handler as a method on it.
 */
module App {
  import opened Optional
  import opened Batch
  import opened Deck
  import opened Gesture
  import opened CardStack
  import opened SummaryView

  /** The status line above the stack. */
  datatype Status = Loading | LoadFailed | SwipePrompt

  /** The texts of the status line (script.js:27, 44-45, 54, 241). */
  function StatusText(s: Status): string
  {
    match s
    case Loading => "Loading cats\U{2026}"
    case LoadFailed => "Oops, we couldn't load any cats. Please try refreshing the page."
    case SwipePrompt => "Swipe a cat or use the buttons!"
  }

  /** The status line tells the three states apart. */
  lemma StatusTextDistinct(a: Status, b: Status)
    ensures StatusText(a) == StatusText(b) ==> a == b
  {
  }

  /** Which of the two sections is visible. */
  datatype Screen = CardScreen | SummaryScreen(summary: Summary)

  class Session {
    /** The deck (`cats`). */
    var cats: seq<Cat>
    /** The cursor (`currentIndex`): the top undecided cat. */
    var currentIndex: nat
    /** The liked cats, in encounter order (`likedCats`). */
    var likedCats: seq<Cat>
    /** The decision made on each of `cats[..currentIndex]`, true for a like. */
    ghost var decisions: seq<bool>

    var isDragging: bool
    var dragStartX: real
    var currentX: real
    /**
     * `currentCard`: the deck index of the card that last received the swipe
     * handlers, if any. After the last cat it still names the removed card.
     */
    var currentCard: Option<nat>
    /**
     * The decisions whose 250 ms timeouts `animateSwipeAndNext` has scheduled
     * and that have not yet fired, in firing order.
     */
    var pending: seq<bool>

    /** The cards `renderCards` last put in the stack. */
    var stack: seq<CardView>
    var screen: Screen
    var status: Status

    /**
     * The session invariant: one decision per cat before the cursor, the
     * cursor within the deck, and the liked cats exactly the cats liked so far.
     */
    ghost predicate Valid()
      reads this
    {
      && |decisions| == currentIndex <= |cats|
      && likedCats == Kept(cats[..currentIndex], decisions)
    }

    /** No cat is left to decide: the condition under which `renderCards` shows the summary. */
    predicate Exhausted()
      reads this
    {
      currentIndex >= |cats|
    }

    /**
     * What `renderCards` leaves behind: the stack for the cursor, the swipe
     * handlers on the card at the cursor if a cat is left, and the summary
     * of the session once none is.
     */
    ghost predicate Rendered()
      reads this
    {
      && IsStackFor(stack, |cats|, currentIndex)
      && (!Exhausted() ==> currentCard == Some(currentIndex))
      && (Exhausted() ==> screen == SummaryScreen(SummaryOf(|cats|, likedCats)))
    }

    /**
     * One decision was committed on the top cat: it was appended to the liked
     * cats if liked, the cursor moved on by exactly one, the deck is the same,
     * and the stack was re-rendered.
     */
    twostate predicate Decided(liked: bool)
      reads this
    {
      && old(currentIndex) < |cats| == |old(cats)|
      && cats == old(cats)
      && likedCats == old(likedCats) + (if liked then [old(cats)[old(currentIndex)]] else [])
      && currentIndex == old(currentIndex) + 1
      && decisions == old(decisions) + [liked]
      && Rendered()
      && (Exhausted() ==> currentCard == old(currentCard))
      && (!Exhausted() ==> screen == old(screen))
    }

    /** No decision was committed: deck, cursor, liked cats, stack and screen are as they were. */
    twostate predicate Undecided()
      reads this
    {
      && cats == old(cats) && currentIndex == old(currentIndex) && likedCats == old(likedCats)
      && decisions == old(decisions) && stack == old(stack) && currentCard == old(currentCard)
      && screen == old(screen)
    }

    /**
     * The state once the script has started: the initial values of
     * script.js:14-22, with the loading message that `loadCats`, called at
     * script.js:244, shows first.
     */
    constructor ()
      ensures Valid()
      ensures cats == [] && currentIndex == 0 && likedCats == [] && decisions == []
      ensures !isDragging && dragStartX == 0.0 && currentX == 0.0 && currentCard == None && pending == []
      ensures stack == [] && screen == CardScreen && status == Loading
    {
      cats, currentIndex, likedCats, decisions := [], 0, [], [];
      isDragging, dragStartX, currentX, currentCard, pending := false, 0.0, 0.0, None, [];
      stack, screen, status := [], CardScreen, Loading;
    }

    /**
     * `loadCats` once its requests have completed: an empty batch only sets
     * the failure message; a non-empty one becomes the deck, with the cursor
     * and the liked cats reset, and is rendered (script.js:26-55).
     */
    method LoadCats(outcomes: seq<FetchOutcome>)
      requires Valid()
      requires |outcomes| == TotalCats
      modifies this`status, this`cats, this`currentIndex, this`likedCats, this`decisions,
        this`stack, this`currentCard, this`screen
      ensures Valid()
      ensures Successes(outcomes) == [] ==> status == LoadFailed && Undecided()
      ensures Successes(outcomes) != [] ==>
        && status == SwipePrompt
        && cats == Successes(outcomes) && currentIndex == 0 && likedCats == [] && decisions == []
        && Rendered() && currentCard == Some(0) && screen == old(screen)
    {
      status := Loading;
      var results := FetchBatch(outcomes);
      if |results| == 0 {
        status := LoadFailed;
        return;
      }
      cats := results;
      currentIndex := 0;
      likedCats := [];
      decisions := [];
      RenderCards();
      status := SwipePrompt;
    }

    /**
     * `renderCards`: rebuild the stack from the cursor, hand the swipe
     * handlers to the card at the cursor, and show the summary once no cat is
     * left, in which case `currentCard` keeps its old value (script.js:57-93).
     */
    method RenderCards()
      requires Valid()
      modifies this`stack, this`currentCard, this`screen
      ensures Valid() && Rendered()
      ensures Exhausted() ==> currentCard == old(currentCard)
      ensures !Exhausted() ==> screen == old(screen)
    {
      stack := BuildStack(|cats|, currentIndex);
      if currentIndex < |cats| {
        currentCard := Some(currentIndex);
      }
      if currentIndex >= |cats| {
        ShowSummary();
      }
    }

    /** `showSummary`: switch to the summary section and fill it in (script.js:211-233). */
    method ShowSummary()
      modifies this`screen
      ensures screen == SummaryScreen(SummaryOf(|cats|, likedCats))
    {
      screen := SummaryScreen(SummaryOf(|cats|, likedCats));
    }

    /**
     * The oldest scheduled timeout fires: the deferred step of
     * `animateSwipeAndNext` records the top cat if it was liked, advances the
     * cursor by one and re-renders (script.js:187-196). Unlike script.js,
     * it does nothing when no cat is left, so a decision scheduled from a
     * stale `currentCard` or a second click inside the 250 ms window cannot
     * push a missing cat or move the cursor past the deck.
     */
    method Commit() returns (committed: bool)
      requires Valid() && pending != []
      modifies this`pending, this`likedCats, this`decisions, this`currentIndex,
        this`stack, this`currentCard, this`screen
      ensures Valid()
      ensures pending == old(pending)[1..]
      ensures committed == !old(Exhausted())
      ensures committed ==> Decided(old(pending)[0])
      ensures !committed ==> Undecided()
    {
      var liked := pending[0];
      pending := pending[1..];
      if currentIndex >= |cats| {
        return false;
      }
      KeptStep(cats, decisions, currentIndex, liked);
      if liked {
        likedCats := likedCats + [cats[currentIndex]];
      }
      decisions := decisions + [liked];
      currentIndex := currentIndex + 1;
      RenderCards();
      return true;
    }

    /**
     * `animateSwipeAndNext`: when there is a current card, schedule the
     * decision to be committed when its timeout fires (script.js:177-197);
     * the fly-off animation is not modelled.
     */
    method AnimateSwipeAndNext(liked: bool) returns (scheduled: bool)
      modifies this`pending
      ensures scheduled == old(currentCard).Some?
      ensures pending == old(pending) + (if scheduled then [liked] else [])
    {
      if currentCard.None? {
        return false;
      }
      pending := pending + [liked];
      return true;
    }

    /** The LIKE button: schedules a like, with the fly-off offset +100 (script.js:205-208). */
    method LikeButton() returns (scheduled: bool)
      modifies this`pending
      ensures scheduled == old(currentCard).Some?
      ensures pending == old(pending) + (if scheduled then [true] else [])
    {
      scheduled := AnimateSwipeAndNext(true);
    }

    /** The NOPE button: schedules a dislike, with the fly-off offset -100 (script.js:200-203). */
    method DislikeButton() returns (scheduled: bool)
      modifies this`pending
      ensures scheduled == old(currentCard).Some?
      ensures pending == old(pending) + (if scheduled then [false] else [])
    {
      scheduled := AnimateSwipeAndNext(false);
    }

    /**
     * `onPointerDown`: a primary-button press on the current card starts a
     * drag at the pointer's position; anything else is ignored
     * (script.js:103-111).
     */
    method OnPointerDown(button: int, clientX: real)
      modifies this`isDragging, this`dragStartX, this`currentX
      ensures old(currentCard).None? || button != 0 ==>
        isDragging == old(isDragging) && dragStartX == old(dragStartX) && currentX == old(currentX)
      ensures old(currentCard).Some? && button == 0 ==>
        isDragging && dragStartX == clientX && currentX == clientX
    {
      if currentCard.None? || button != 0 {
        return;
      }
      isDragging := true;
      dragStartX := clientX;
      currentX := clientX;
    }

    /**
     * `onPointerMove`: while dragging, follow the pointer and return the label
     * opacities `updateCardLabels` shows for the new offset; otherwise
     * nothing happens (script.js:113-123).
     */
    method OnPointerMove(clientX: real) returns (labels: Option<Labels>)
      modifies this`currentX
      ensures !isDragging || currentCard.None? ==> labels == None && currentX == old(currentX)
      ensures isDragging && currentCard.Some? ==>
        currentX == clientX && labels == Some(LabelOpacity(clientX - dragStartX))
    {
      if !isDragging || currentCard.None? {
        return None;
      }
      currentX := clientX;
      labels := Some(LabelOpacity(currentX - dragStartX));
    }

    /**
     * `onPointerUp` (also the `pointercancel` handler): end the drag and
     * either schedule a decision with the offset's polarity or snap back;
     * nothing else changes (script.js:125-140).
     */
    method OnPointerUp() returns (release: Option<Release>)
      modifies this`isDragging, this`pending
      ensures !old(isDragging) || old(currentCard).None? ==>
        release == None && isDragging == old(isDragging) && pending == old(pending)
      ensures old(isDragging) && old(currentCard).Some? ==>
        !isDragging && release == Some(Classify(currentX - dragStartX))
      ensures release == Some(SnapBack) ==> pending == old(pending)
      ensures release.Some? && release.value.Swipe? ==> pending == old(pending) + [release.value.liked]
    {
      if !isDragging || currentCard.None? {
        return None;
      }
      isDragging := false;
      var deltaX := currentX - dragStartX;
      var decision := Classify(deltaX);
      release := Some(decision);
      if decision.Swipe? {
        var _ := AnimateSwipeAndNext(decision.liked);
      }
    }

    /**
     * The restart button: back to the card section with no likes and the
     * cursor at the first cat of the same deck, which is rendered again;
     * nothing is fetched (script.js:235-242).
     */
    method Restart()
      requires Valid()
      modifies this`likedCats, this`decisions, this`currentIndex, this`stack, this`currentCard,
        this`screen, this`status
      ensures Valid()
      ensures likedCats == [] && currentIndex == 0 && decisions == []
      ensures Rendered()
      ensures cats != [] ==> currentCard == Some(0) && screen == CardScreen
      ensures status == SwipePrompt
    {
      screen := CardScreen;
      likedCats := [];
      decisions := [];
      currentIndex := 0;
      RenderCards();
      status := SwipePrompt;
    }
  }

  /**
   * What the session invariant promises of the visible state: the liked cats
   * never outnumber the cats decided, the cursor stays within the deck, and
   * the liked cats are an order-preserving subsequence of the cats decided.
   */
  lemma LikedWithinDecided(s: Session)
    requires s.Valid()
    ensures |s.likedCats| <= s.currentIndex <= |s.cats|
    ensures IsSubsequence(s.likedCats, s.cats[..s.currentIndex])
  {
    KeptIsSubsequence(s.cats[..s.currentIndex], s.decisions);
  }

  /** A summary shown for a valid session counts at least one and at most all of the deck's cats. */
  lemma SummaryCountBounded(s: Session)
    requires s.Valid() && s.Exhausted()
    ensures var m := SummaryOf(|s.cats|, s.likedCats).message;
      m.LikedSome? ==> 1 <= m.likedCount <= m.total == |s.cats|
  {
  }

  /** Three successful requests followed by twelve failures give a deck of those three cats. */
  lemma ThreeFetched(a: string, b: string, c: string)
    ensures Successes([Fetched(a), Fetched(b), Fetched(c)] + seq(12, _ => Failed))
      == [Cat(a, ImageUrl(a)), Cat(b, ImageUrl(b)), Cat(c, ImageUrl(c))]
  {
    var fetched := [Fetched(a), Fetched(b), Fetched(c)];
    SuccessesAppend(fetched, seq(12, _ => Failed));
    SuccessesEmpty(seq(12, _ => Failed));
    SuccessesComplete(fetched);
  }

  /** The summary for two likes out of three cats reads "You liked 2 out of 3 cats. Here are your favourites:". */
  lemma TwoOutOfThreeText(x: Cat, y: Cat)
    ensures SummaryOf(3, [x, y]).message == LikedSome(2, 3)
    ensures MessageText(LikedSome(2, 3))
      == "You liked " + "2" + " out of " + "3" + " cats. Here are your favourites:"
  {
  }

  /**
   * Three cats liked, disliked, liked: the session ends exhausted with the
   * first and the third liked and "You liked 2 out of 3 cats" in the summary.
   */
  method ThreeCatSession(a: string, b: string, c: string)
  {
    var s := new Session();
    ThreeFetched(a, b, c);
    s.LoadCats([Fetched(a), Fetched(b), Fetched(c)] + seq(12, _ => Failed));
    LikeNopeLike(s, Cat(a, ImageUrl(a)), Cat(b, ImageUrl(b)), Cat(c, ImageUrl(c)));
  }

  /** The three decisions of `ThreeCatSession`, each by a button click whose timeout then fires. */
  method LikeNopeLike(s: Session, A: Cat, B: Cat, C: Cat)
    requires s.Valid() && s.cats == [A, B, C] && s.currentIndex == 0 && s.likedCats == []
    requires s.currentCard == Some(0) && s.pending == []
    modifies s
  {
    var scheduled := s.LikeButton();
    var committed := s.Commit();
    assert s.likedCats == [A] && s.currentCard == Some(1);
    scheduled := s.DislikeButton();
    committed := s.Commit();
    assert s.likedCats == [A] && s.currentCard == Some(2);
    scheduled := s.LikeButton();
    committed := s.Commit();
    assert s.likedCats == [A, C] && s.Exhausted() && s.currentCard == Some(2);
    assert s.screen == SummaryScreen(SummaryOf(3, [A, C]));
  }

  /**
   * A one-cat deck and two LIKE clicks before the first timeout fires: both
   * clicks pass the `currentCard` guard, but only the first commit takes
   * effect. A later click on the summary screen is still scheduled, through
   * the stale current card, and its commit changes nothing either.
   */
  method DoubleLikeSession(a: string)
  {
    var s := new Session();
    SuccessesAppend([Fetched(a)], seq(14, _ => Failed));
    SuccessesEmpty(seq(14, _ => Failed));
    assert [Fetched(a)][..0] == [];
    s.LoadCats([Fetched(a)] + seq(14, _ => Failed));
    var A := Cat(a, ImageUrl(a));
    assert s.cats == [A];
    var first := s.LikeButton();
    var second := s.LikeButton();
    assert first && second && s.pending == [true, true];
    var committed := s.Commit();
    assert committed && s.likedCats == [A] && s.currentIndex == 1;
    committed := s.Commit();
    assert !committed && s.likedCats == [A] && s.currentIndex == 1 && s.pending == [];
    var late := s.LikeButton();
    assert late && s.currentCard == Some(0);
    committed := s.Commit();
    assert !committed && s.likedCats == [A] && s.currentIndex == 1;
  }
}
