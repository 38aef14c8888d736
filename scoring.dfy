/** The collectible items and the score readout of the Game scene. */
module Scoring {

  /** Items are told apart by the order createItems made them in. */
  type ItemId = nat

  /** The scene's size multiplier (MULTIPLIER). */
  const Multiplier := 1

  /** Number of items made when the scene is created (250 * MULTIPLIER). */
  const ItemCount := 250 * Multiplier

  /** The `points` every item is given. */
  const PointsPerItem := 1

  // ---------------------------------------------------------------------------
  // The readout: 'Score: ' + scoreValue, a non-negative integer in decimal

  predicate IsDigit(c: char) {
    '0' <= c <= '9'
  }

  predicate AllDigits(s: string) {
    forall k :: 0 <= k < |s| ==> IsDigit(s[k])
  }

  function DigitChar(d: nat): (c: char)
    requires d < 10
    ensures IsDigit(c) && c as int - '0' as int == d
  {
    (d + '0' as int) as char
  }

  /** The decimal text of `n`, as JavaScript writes a non-negative integer
      number: at least one digit, and no leading zero except for 0 itself. */
  function NatToString(n: nat): (s: string)
    ensures |s| >= 1 && AllDigits(s)
    ensures s[0] == '0' ==> n == 0
    decreases n
  {
    if n < 10 then [DigitChar(n)] else NatToString(n / 10) + [DigitChar(n % 10)]
  }

  /** The number a string of decimal digits denotes. */
  function DecimalValue(s: string): nat
    requires AllDigits(s)
    decreases |s|
  {
    if s == [] then 0 else DecimalValue(s[..|s| - 1]) * 10 + (s[|s| - 1] as int - '0' as int)
  }

  lemma {:induction false} DecimalRoundTrip(n: nat)
    ensures DecimalValue(NatToString(n)) == n
    decreases n
  {
    if n >= 10 {
      var s := NatToString(n / 10);
      var t := s + [DigitChar(n % 10)];
      assert t == NatToString(n);
      assert t[..|t| - 1] == s;
      DecimalRoundTrip(n / 10);
    }
  }

  /** The text of the score display for a given score. */
  function Readout(score: nat): string {
    "Score: " + NatToString(score)
  }

  /** Different scores never show the same readout. */
  lemma ReadoutInjective(a: nat, b: nat)
    requires Readout(a) == Readout(b)
    ensures a == b
  {
    assert NatToString(a) == Readout(a)[7..];
    assert NatToString(b) == Readout(b)[7..];
    DecimalRoundTrip(a);
    DecimalRoundTrip(b);
  }

  /** The scoring state the scene keeps: every live item is one of those made
      at creation and is worth PointsPerItem; the score counts the items no
      longer live; the display shows the score. */
  ghost predicate ScoreOk(score: int, display: string, live: map<ItemId, int>) {
    (forall id :: id in live ==> id < ItemCount && live[id] == PointsPerItem) &&
    0 <= score && score + |live| == ItemCount &&
    display == Readout(score)
  }

  lemma InitialReadout()
    ensures Readout(0) == "Score: 0"
  {
  }
}
