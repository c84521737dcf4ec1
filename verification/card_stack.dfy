/**
 * The card stack `renderCards` builds: one card per undecided cat, from the
 * cursor to the end of the deck, with only the card at the cursor wired for
 * gestures (script.js:57-88). Only the cards' indices are modelled.
 */
module CardStack {
  /** One rendered card: the deck index it shows, and whether swipe handlers are attached to it. */
  datatype CardView = CardView(index: nat, interactive: bool)

  /**
   * `stack` is the stack for a deck of `total` cats at cursor `cursor`: the
   * indices `cursor .. total - 1` in order (none when `cursor >= total`), and
   * only the first of them interactive.
   */
  ghost predicate IsStackFor(stack: seq<CardView>, total: nat, cursor: nat)
  {
    && |stack| == (if cursor < total then total - cursor else 0)
    && (forall k :: 0 <= k < |stack| ==> stack[k].index == cursor + k)
    && (forall k :: 0 <= k < |stack| ==> (stack[k].interactive <==> k == 0))
  }

  /** The loop of `renderCards`, from `currentIndex` up to `cats.length` (script.js:60-88). */
  method BuildStack(total: nat, cursor: nat) returns (stack: seq<CardView>)
    ensures IsStackFor(stack, total, cursor)
  {
    stack := [];
    var i := cursor;
    while i < total
      invariant cursor <= i
      invariant cursor < total ==> i <= total
      invariant total <= cursor ==> i == cursor
      invariant |stack| == i - cursor
      invariant forall k :: 0 <= k < |stack| ==> stack[k].index == cursor + k
      invariant forall k :: 0 <= k < |stack| ==> (stack[k].interactive <==> k == 0)
    {
      stack := stack + [CardView(i, i == cursor)];
      i := i + 1;
    }
  }

  /** A stack for a deck position is unique, so the indices rendered are determined by the deck length and the cursor alone. */
  lemma StackUnique(s: seq<CardView>, t: seq<CardView>, total: nat, cursor: nat)
    requires IsStackFor(s, total, cursor) && IsStackFor(t, total, cursor)
    ensures s == t
  {
  }

  /** Exactly one card is interactive, the one at the cursor, whenever a cat is left. */
  lemma OneInteractiveCard(stack: seq<CardView>, total: nat, cursor: nat)
    requires IsStackFor(stack, total, cursor)
    ensures cursor < total ==> stack[0] == CardView(cursor, true)
    ensures forall j, k :: 0 <= j < |stack| && 0 <= k < |stack| && stack[j].interactive && stack[k].interactive ==> j == k
    ensures stack == [] <==> cursor >= total
  {
  }
}
