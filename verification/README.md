# Paws Preference: the swiping session, modelled in Dafny

Paws Preference is a browser page. It fetches a batch of 15 cat pictures and shows them as a stack of cards. The user swipes each card right (like) or left (nope), by dragging or with two buttons. At the end a summary shows how many cats were liked, with a gallery of them. A restart button replays the same deck.

This project models the logic of `script.js` behind that page:

- **Batch** (`batch.dfy`): the fetch loop of `loadCats`. The network is an input, one `FetchOutcome` per request. A failed request is skipped and the successes keep their order.
- **Deck** (`deck.dfy`): the liked cats as the cats kept by a sequence of decisions, and the proof that they form an order-preserving subsequence of the deck.
- **Gesture** (`gesture.dfy`): the release decision, with its strict `> 80` threshold and sign-based polarity. Also the LIKE/NOPE label opacities and the buttons' synthetic offsets of ±100.
- **CardStack** (`card_stack.dfy`): the cards `renderCards` builds. These are the deck indices from the cursor to the end, with only the top card interactive.
- **SummaryView** (`summary.dfy`): the summary message choice, its text and the decimal rendering of the counts.
- **App** (`session.dfy`): class `Session`. It holds the page's module-level state: `cats`, `currentIndex`, `likedCats`, the drag variables and `currentCard`. It also holds the scheduled decisions, the rendered stack, the visible section and the status line. Every event handler is a method on it. `Valid()` is the session invariant: `|likedCats| <= currentIndex <= |cats|`, and the liked cats are exactly the cats liked so far, in order.
- **AsWritten** (`as_written.dfy`): the unguarded click and timeout exactly as the page does them, kept apart to document the findings below.

Pointer coordinates and opacities are `real`. A swipe or button click schedules its decision in `Session.pending`. `Session.Commit` is the 250 ms timeout firing, taken as one atomic step.

## Model

| member | source | states |
|---|---|---|
| `Batch.ImageUrl` | script.js:35-37 | a cat's image URL is the fixed cataas prefix followed by the id itself, so the id can be read back from the URL |
| `Batch.Successes` | script.js:29-41 | the batch has at most one cat per request, and each cat's URL is templated from its id |
| `Batch.SuccessesAppend` | script.js:30-41 | a failed request does not disturb the others: the batch of a concatenation of outcomes is the concatenation of their batches, so request order is kept |
| `Batch.SuccessesEmpty` | script.js:43-47 | the batch is empty exactly when every request failed |
| `Batch.SuccessesComplete` | script.js:30-37 | when no request fails, the batch has one cat per request, with the requests' ids in order |
| `Batch.FetchBatch` | script.js:29-41 | the fetch loop over the 15 requests returns exactly the batch the outcomes determine |
| `Deck.Kept` | script.js:189-191 | there are never more liked cats than cats decided |
| `Deck.LikedPositions` | script.js:189-191 | the like positions are in range, strictly increasing, and include every like |
| `Deck.KeptAt` | script.js:189-191 | the k-th liked cat is the cat at the k-th like position |
| `Deck.KeptIsSubsequence` | script.js:189-191 | the liked cats are an order-preserving subsequence of the decided cats |
| `Deck.KeptMembers` | script.js:189-191 | a cat is among the liked cats exactly when a like decision was made on it |
| `Deck.KeptStep` | script.js:189-193 | one more decision extends the liked cats by the top cat exactly when it is a like |
| `Gesture.Classify` | script.js:134-135 | a release commits exactly when the offset is strictly beyond ±80, as a like exactly when the offset is positive |
| `Gesture.ClassifyBoundary` | script.js:23-139 | ±80 and 0 snap back; +81 commits a like and −81 a nope |
| `Gesture.ClassifyMirror` | script.js:134-135 | mirroring a drag mirrors its decision |
| `Gesture.ClassifyMonotone` | script.js:134-135 | dragging farther in the same direction never undoes or flips a commit |
| `Gesture.ButtonOffsetsCommit` | script.js:200-208 | the buttons' offsets +100 and −100 exceed the threshold with the button's own polarity |
| `Gesture.LabelOpacity` | script.js:148-159 | both opacities lie in [0, 1]. At most one is non-zero, and each is non-zero exactly on its own side of 0. Within ±100 px, LIKE minus NOPE equals offset/100. Each reaches 1 at ±100 px and beyond |
| `Gesture.LabelsMirror` | script.js:148-159 | mirroring a drag swaps the two labels |
| `Gesture.LabelsMonotone` | script.js:148-159 | a label never fades while the drag moves farther in its direction |
| `Gesture.LabelsForeshadowRelease` | script.js:134-159 | a drag that will commit shows its own label above 0.8 and hides the other; a drag that will snap back shows neither above 0.8 |
| `Gesture.LabelScenarios` | script.js:148-159 | offset 50 gives LIKE 0.5 and NOPE 0; offset −150 gives NOPE 1 and LIKE 0; offset 0 gives both 0 |
| `CardStack.BuildStack` | script.js:60-88 | the rendered cards are the indices from the cursor to the end of the deck in order, none when the cursor is past the end, with only the first interactive |
| `CardStack.StackUnique` | script.js:60-88 | the rendered indices are determined by the deck length and the cursor alone |
| `CardStack.OneInteractiveCard` | script.js:82-85 | exactly one card, the one at the cursor, takes gestures; the stack is empty exactly when no cat is left |
| `SummaryView.SummaryOf` | script.js:215-232 | the "no likes" message is chosen exactly when nothing was liked, otherwise the message carries the liked count and the deck size; the gallery is the liked cats in order |
| `SummaryView.DecimalText` | script.js:221 | a count prints as a non-empty string of decimal digits without a leading zero |
| `SummaryView.DecimalRoundTrip` | script.js:221 | the printed count reads back as the count |
| `SummaryView.MessageText` | script.js:218-221 | gives the fixed "Tough crowd" text with no likes. Otherwise it gives "You liked ", the liked count in decimal, " out of ", the deck size in decimal, and " cats. Here are your favourites:" |
| `SummaryView.LeadingDigits` | script.js:221 | the longest run of digits at the start of a string, which is what a reader takes as the number there |
| `SummaryView.LeadingDigitsOfDecimal` | script.js:221 | a printed count followed by a non-digit yields exactly its own digits |
| `SummaryView.CountAfter` | script.js:221 | a count printed between a prefix and a non-digit reads back as the count |
| `SummaryView.LikedCountReadsBack` | script.js:218-221 | the shown text starts with "You liked ", and the digits there read back as the liked count |
| `SummaryView.TotalReadsBack` | script.js:218-221 | the digits of the liked count are followed by " out of " and then by digits that read back as the deck size |
| `App.Session.constructor` | script.js:14-27 | the session starts with an empty deck, cursor 0, no likes, no drag, no current card, nothing scheduled and the loading message |
| `App.Session.LoadCats` | script.js:26-55 | an empty batch changes nothing but the status, which becomes the failure message. A non-empty batch becomes the deck with cursor 0 and no likes, and is rendered with the prompt shown |
| `App.Session.RenderCards` | script.js:57-93 | renders the stack for the cursor. Hands the handlers to the card at the cursor when a cat is left, and otherwise leaves the current card as it was. Shows the summary exactly when the cursor has reached the end of the deck |
| `App.Session.ShowSummary` | script.js:211-233 | the summary section shows the summary of the deck size and the liked cats |
| `App.Session.Commit` | script.js:187-196 | the oldest scheduled decision fires. If a cat is left, the top cat is appended to the liked cats exactly when it is liked, the cursor advances by one and the stack is re-rendered. If none is left, nothing but the schedule changes. The deck and the session invariant are kept either way |
| `App.Session.AnimateSwipeAndNext` | script.js:177-197 | a decision is scheduled exactly when there is a current card; otherwise nothing changes |
| `App.Session.LikeButton` | script.js:205-208 | with a current card, a like is scheduled; otherwise nothing changes |
| `App.Session.DislikeButton` | script.js:200-203 | with a current card, a nope is scheduled; otherwise nothing changes |
| `App.Session.OnPointerDown` | script.js:103-111 | a primary-button press on the current card starts a drag at the pointer; any other press changes nothing |
| `App.Session.OnPointerMove` | script.js:113-123 | while dragging, the pointer is followed and the label opacities for the new offset are shown; otherwise nothing changes |
| `App.Session.OnPointerUp` | script.js:125-140 | a release of an active drag ends it and classifies the offset. A snap-back schedules nothing; a commit schedules a decision with the offset's polarity. Without a drag, nothing changes. Deck, cursor and likes are never touched |
| `App.Session.Restart` | script.js:235-242 | clears the likes and rewinds the cursor to 0 on the same deck, re-renders and shows the prompt |
| `App.LikedWithinDecided` | script.js:14-16 | in every valid session, `|likedCats| <= currentIndex <= |cats|`, and the liked cats are an order-preserving subsequence of the decided cats |
| `App.SummaryCountBounded` | script.js:215-221 | a "liked n out of m" summary has 1 <= n <= m, and m is the deck size |
| `App.ThreeFetched` | script.js:29-41 | three successes followed by twelve failures give a deck of exactly those three cats |
| `App.TwoOutOfThreeText` | script.js:218-221 | two likes out of three cats give the message "You liked 2 out of 3 cats. Here are your favourites:" |
| `App.StatusTextDistinct` | script.js:44-54 | the loading, failure and prompt texts of the status line are pairwise different |
| `AsWritten.Element` | script.js:190 | reading the deck past its end gives `undefined` |
| `AsWritten.ClickAsWritten` | script.js:200-208 | a button click schedules its decision whenever the current card is set, whether or not a cat is left |
| `AsWritten.FireAsWritten` | script.js:187-196 | the unguarded timeout always advances the cursor and pushes the deck element at the old cursor when liked. It leaves the current card alone once nothing is rendered |
| `AsWritten.StaleCardOvershoots` | script.js:82-85 | after the last cat, a LIKE click is still scheduled, and its timeout pushes `undefined` and moves the cursor past the end |
| `AsWritten.DoubleLikeOnOneCat` | script.js:200-208 | on a one-cat deck, two LIKE clicks before the first timeout fires leave the cursor at 2 and `undefined` among the liked cats |

The scenario methods show a client's view. `App.ThreeCatSession` runs load, like, nope, like on three cats and reaches the summary of 2 liked out of 3. `App.DoubleLikeSession` double-clicks LIKE on a one-cat deck: both clicks are scheduled, but only the first timeout takes effect. A later click on the summary screen is also scheduled, through the stale current card, and changes nothing.

## Findings

| source | as written | input that shows it | evidently intended | confidence | as-written member | corrected member |
|---|---|---|---|---|---|---|
| script.js:187-193 | The timeout body pushes `cats[currentIndex]` and increments the cursor without checking that a cat is left. The click guard at script.js:206 runs before any timeout has fired, so a second click inside the 250 ms window passes it | a one-cat deck with LIKE clicked twice within 250 ms: `likedCats` ends as `[cat, undefined]` and `currentIndex` as 2. `showSummary` then sets "You liked 2 out of 1 cats" and throws a TypeError on `undefined.url` in the gallery loop (script.js:226-228) | a decision when no cat is left is a no-op, and `currentIndex <= cats.length` always holds | likely; not executed | `AsWritten.DoubleLikeOnOneCat` | `App.Session.Commit` |
| script.js:82-85 | `renderCards` sets `currentCard` only when it renders a card. After the last cat the variable still refers to the removed card, so the button handlers' `currentCard` guard passes and the timeout reads `cats[cats.length]` | any LIKE click after the last cat, whenever the button is reachable | the same: such a decision is a no-op | likely; not executed | `AsWritten.StaleCardOvershoots` | `App.Session.Commit` |

The corrected `Session.Commit` checks, when the timeout fires, that a cat is left, and does nothing otherwise. This closes both inputs: a click may still be scheduled from the stale card or inside the 250 ms window, but its commit cannot push a missing cat or move the cursor past the deck. Every `Session` method keeps `Valid()`, so `App.LikedWithinDecided` holds at every step. `RenderCards` and the click handlers are modelled as written.

## Left out

- Network: the requests, `res.json()` and the `console.error` logging are not modelled. Each request's outcome is an input to `LoadCats`.
- `App.Session.LoadCats`: it runs as one step once every request has completed. The "Loading cats…" status shown meanwhile is set first and then overwritten in the same step.
- DOM: element creation, class names, `alt` texts, the transform and transition strings, label styles and the gallery's image elements are not modelled. The rendered stack is kept as deck indices and the gallery as the liked cats. The status and summary texts are in `App.StatusText` and `SummaryView.MessageText`.
- Timing: the 250 ms delay and the CSS transitions are not modelled. Scheduled decisions fire in scheduling order, one `Commit` each, at times the model leaves to its caller. A second click inside the window on a deck with cats left still decides the next cat, which the user has not seen yet. That is as on the page.
- Visual numerics: the 0.05 rotation factor, the 300 px / 20° fly-off and the fly-off direction change no state. `AnimateSwipeAndNext` therefore takes no offset.
- `resetCardPosition` / `resetCardLabels`: the snap-back's visual reset is not modelled. Label opacities exist only as the value `OnPointerMove` returns.
- Event routing: handlers are attached only to the top card. In the model every pointer event reaches the session, which applies the same `currentCard` guard. Whether the buttons can be clicked while the summary is shown depends on the page markup, which is not part of this model.
- Numbers: JavaScript numbers are doubles; the model uses exact reals, so the rounding of `deltaX / 100` is not modelled.
- `App.Session.Commit`: it does nothing when no cat is left, where script.js pushes `undefined` and overshoots the cursor (see Findings).
- Fetch failures: a response whose JSON body has no `id` is not caught on the page. It is pushed as a cat with an undefined id and a URL ending in "undefined". The model's `Fetched` outcome always carries an id string, so this case is not modelled.
- The comment at script.js:60 says the stack is rendered from last to first, but the loop runs from the cursor upward. The model follows the loop.
- The drag start and current positions survive the end of a drag, as in script.js. Only `isDragging` is reset.
