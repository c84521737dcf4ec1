/**
 * The summary screen `showSummary` fills in: the message choice and the
 * gallery of liked cats (script.js:211-233).
 */
module SummaryView {
  import opened Batch

  /** The summary message: the "tough crowd" text, or "liked n out of m". */
  datatype Message = NoLikes | LikedSome(likedCount: nat, total: nat)

  /** The summary: its message and the liked cats shown in the gallery, in order. */
  datatype Summary = Summary(message: Message, gallery: seq<Cat>)

  /** The summary of a session over `total` cats in which `liked` were liked. */
  function SummaryOf(total: nat, liked: seq<Cat>): (s: Summary)
    ensures s.message.NoLikes? <==> liked == []
    ensures s.message.LikedSome? ==> s.message.likedCount == |liked| && s.message.total == total
    ensures s.gallery == liked
  {
    Summary(if |liked| == 0 then NoLikes else LikedSome(|liked|, total), liked)
  }

  /** The decimal digit for `d`. */
  function Digit(d: nat): (c: char)
    requires d < 10
    ensures '0' <= c <= '9' && c as int - '0' as int == d
  {
    (48 + d) as char
  }

  /** The decimal text of `n` that a template literal produces. */
  function DecimalText(n: nat): (s: string)
    ensures |s| >= 1
    ensures forall k :: 0 <= k < |s| ==> '0' <= s[k] <= '9'
    ensures s[0] == '0' ==> n == 0
  {
    if n < 10 then [Digit(n)] else DecimalText(n / 10) + [Digit(n % 10)]
  }

  /** The number a string of decimal digits denotes. */
  function DecimalValue(s: string): nat
    requires forall k :: 0 <= k < |s| ==> '0' <= s[k] <= '9'
  {
    if s == [] then 0
    else 10 * DecimalValue(s[..|s| - 1]) + (s[|s| - 1] as int - '0' as int)
  }

  /** The count in the summary text reads back as the count. */
  lemma {:induction false} DecimalRoundTrip(n: nat)
    ensures DecimalValue(DecimalText(n)) == n
  {
    if n >= 10 {
      DecimalRoundTrip(n / 10);
      var s := DecimalText(n);
      assert s[..|s| - 1] == DecimalText(n / 10);
    }
  }

  /** The text of the summary message (script.js:218-221). */
  function MessageText(m: Message): (t: string)
    ensures m.NoLikes? ==> t == "You didn't like any cats this time. Tough crowd! \U{1F63C}"
    ensures m.LikedSome? ==>
      t == "You liked " + DecimalText(m.likedCount) + " out of " + DecimalText(m.total)
        + " cats. Here are your favourites:"
  {
    match m
    case NoLikes => "You didn't like any cats this time. Tough crowd! \U{1F63C}"
    case LikedSome(count, total) =>
      "You liked " + DecimalText(count) + " out of " + DecimalText(total) + " cats. Here are your favourites:"
  }

  predicate IsDigit(c: char)
  {
    '0' <= c <= '9'
  }

  /** The longest run of decimal digits at the start of `s`: how a reader picks a number out of the text. */
  function LeadingDigits(s: string): (d: string)
    ensures |d| <= |s| && d == s[..|d|]
    ensures forall k :: 0 <= k < |d| ==> IsDigit(d[k])
    ensures |d| < |s| ==> !IsDigit(s[|d|])
  {
    if s == [] || !IsDigit(s[0]) then [] else [s[0]] + LeadingDigits(s[1..])
  }

  /** The digits of a count, followed by anything that does not start with a digit, read back as those digits. */
  lemma LeadingDigitsOfDecimal(n: nat, rest: string)
    requires rest == [] || !IsDigit(rest[0])
    ensures LeadingDigits(DecimalText(n) + rest) == DecimalText(n)
  {
    var d := DecimalText(n);
    var r := LeadingDigits(d + rest);
    assert (d + rest)[..|d|] == d;
  }

  /** A count printed after a prefix and followed by a non-digit reads back as the count. */
  lemma CountAfter(prefix: string, n: nat, rest: string)
    requires rest == [] || !IsDigit(rest[0])
    ensures DecimalValue(LeadingDigits((prefix + DecimalText(n) + rest)[|prefix|..])) == n
  {
    assert (prefix + DecimalText(n) + rest)[|prefix|..] == DecimalText(n) + rest;
    LeadingDigitsOfDecimal(n, rest);
    DecimalRoundTrip(n);
  }

  /** A "liked n out of m" text starts with "You liked " and the digits there read back as n. */
  lemma LikedCountReadsBack(m: Message)
    requires m.LikedSome?
    ensures MessageText(m)[..10] == "You liked "
    ensures DecimalValue(LeadingDigits(MessageText(m)[10..])) == m.likedCount
  {
    var c, n := DecimalText(m.likedCount), DecimalText(m.total);
    var rest := " out of " + n + " cats. Here are your favourites:";
    assert MessageText(m) == "You liked " + c + rest;
    CountAfter("You liked ", m.likedCount, rest);
  }

  /** The middle and the tail of a three-part string. */
  lemma Pieces(a: string, b: string, c: string)
    ensures (a + b + c)[|a|..|a| + |b|] == b && (a + b + c)[|a| + |b|..] == c
  {
  }

  /** In a "liked n out of m" text, " out of " follows the digits of n, and the digits after it read back as m. */
  lemma TotalReadsBack(m: Message)
    requires m.LikedSome?
    ensures var k := |DecimalText(m.likedCount)|;
      && MessageText(m)[10 + k..18 + k] == " out of "
      && DecimalValue(LeadingDigits(MessageText(m)[18 + k..])) == m.total
  {
    var n := DecimalText(m.total);
    var tail := " cats. Here are your favourites:";
    var head := "You liked " + DecimalText(m.likedCount);
    assert |head| == 10 + |DecimalText(m.likedCount)|;
    assert MessageText(m) == head + " out of " + (n + tail);
    Pieces(head, " out of ", n + tail);
    LeadingDigitsOfDecimal(m.total, tail);
    DecimalRoundTrip(m.total);
  }
}
