/** The pure part of the Campus Buzz card feed: the catalog, the cyclic index
    arithmetic behind "next card" and "undo", the off-screen positions a card exits
    to and enters from, and the classification of a released pan gesture. */
module Feed {

  /** One entry of the read-only catalog (the display texts are not modelled). */
  datatype FeedItem = FeedItem(id: string, image: string)

  /** The catalog, in navigation order. */
  const Data: seq<FeedItem> := [
    FeedItem("1", "https://picsum.photos/seed/picsum/400/600"),
    FeedItem("2", "https://picsum.photos/seed/picsum/400/601"),
    FeedItem("3", "https://picsum.photos/seed/picsum/400/602"),
    FeedItem("4", "https://picsum.photos/seed/picsum/400/603")
  ]

  /** `DATA.length`. */
  const DataLength: nat := |Data|

  /** Translation, in logical units, a released card must strictly exceed to commit. */
  const SwipeThreshold: int := 100

  lemma CatalogShape()
    ensures DataLength == 4
    ensures forall i, j :: 0 <= i < j < DataLength ==> Data[i].id != Data[j].id
  {
  }

  // ---------------------------------------------------------------------------
  // Index arithmetic

  /** JavaScript's `a % n` for a positive `n`: the remainder takes the sign of the
      dividend (Dafny's own `%` is Euclidean and never negative). */
  function JsRemainder(a: int, n: int): (r: int)
    requires n > 0
    ensures 0 <= a ==> 0 <= r < n && r == a % n
    ensures a < 0 ==> -n < r <= 0 && -r == (-a) % n
  {
    if a >= 0 then a % n else -((-a) % n)
  }

  /** `(currentIndex + 1) % DATA.length`: the card shown after a swipe. */
  function ForwardIndex(i: int, len: int): (r: int)
    requires len > 0
    ensures 0 <= i < len ==> 0 <= r < len
    ensures 0 <= i < len ==> r == if i == len - 1 then 0 else i + 1
  {
    JsRemainder(i + 1, len)
  }

  /** `(currentIndex - 1 + DATA.length) % DATA.length`: the card shown after undo. */
  function BackwardIndex(i: int, len: int): (r: int)
    requires len > 0
    ensures 0 <= i < len ==> 0 <= r < len
    ensures 0 <= i < len ==> r == if i == 0 then len - 1 else i - 1
  {
    JsRemainder(i - 1 + len, len)
  }

  /** Undo takes a swipe back, and a swipe takes an undo back. */
  lemma UndoInvertsForward(i: int, len: int)
    requires 0 <= i < len
    ensures BackwardIndex(ForwardIndex(i, len), len) == i
    ensures ForwardIndex(BackwardIndex(i, len), len) == i
  {
  }

  /** The card shown after `n` completed forward transitions from card `i`. */
  function ForwardSteps(i: int, len: int, n: nat): (r: int)
    requires 0 <= i < len
    ensures 0 <= r < len
  {
    if n == 0 then i else ForwardIndex(ForwardSteps(i, len, n - 1), len)
  }

  /** Up to one full round, `k` forward steps add `k` and wrap around once. */
  lemma {:induction false} ForwardStepsWithinRound(i: int, len: int, k: nat)
    requires 0 <= i < len && k <= len
    ensures ForwardSteps(i, len, k) == if i + k < len then i + k else i + k - len
  {
    if k > 0 {
      ForwardStepsWithinRound(i, len, k - 1);
    }
  }

  /** Cyclic closure: `DATA.length` forward steps come back to the starting card. */
  lemma ForwardStepsFullRound(i: int, len: int)
    requires 0 <= i < len
    ensures ForwardSteps(i, len, len) == i
  {
    ForwardStepsWithinRound(i, len, len);
  }

  /** Forward steps compose: `a` steps followed by `b` steps are `a + b` steps. */
  lemma {:induction false} ForwardStepsCompose(i: int, len: int, a: nat, b: nat)
    requires 0 <= i < len
    ensures ForwardSteps(ForwardSteps(i, len, a), len, b) == ForwardSteps(i, len, a + b)
  {
    if b > 0 {
      ForwardStepsCompose(i, len, a, b - 1);
    }
  }

  /** Swiping is periodic with period `DATA.length`. */
  lemma ForwardStepsPeriodic(i: int, len: int, n: nat)
    requires 0 <= i < len
    ensures ForwardSteps(i, len, n + len) == ForwardSteps(i, len, n)
  {
    ForwardStepsCompose(i, len, len, n);
    ForwardStepsFullRound(i, len);
  }

  // ---------------------------------------------------------------------------
  // Where a card goes and where it comes from

  datatype Direction = Left | Right

  function Opposite(d: Direction): (r: Direction)
    ensures r != d
  {
    if d == Left then Right else Left
  }

  /** Where the current card is sent when it exits in direction `d`. */
  function ExitTargetX(d: Direction, screenWidth: int): (x: int)
    requires screenWidth > 0
    ensures d == Right <==> x > 0
    ensures x == screenWidth || x == -screenWidth
  {
    if d == Right then screenWidth else -screenWidth
  }

  /** Where the next card is placed before it enters moving in direction `d`: on the
      side opposite to the one a card moving in `d` exits to. */
  function EntryStartX(d: Direction, screenWidth: int): (x: int)
    requires screenWidth > 0
    ensures x == -ExitTargetX(d, screenWidth)
  {
    if d == Right then -screenWidth else screenWidth
  }

  /** A swipe enters moving opposite to its exit, so the next card comes back in from
      the edge the old one left by. */
  lemma SwipeReentersFromExitSide(d: Direction, screenWidth: int)
    requires screenWidth > 0
    ensures EntryStartX(Opposite(d), screenWidth) == ExitTargetX(d, screenWidth)
    ensures EntryStartX(Opposite(d), screenWidth) != EntryStartX(d, screenWidth)
  {
  }

  // ---------------------------------------------------------------------------
  // Releasing the card

  datatype Release = CommitRight | CommitLeft | SnapBack

  /** What lifting the finger after a horizontal translation of `translationX` does. */
  function Classify(translationX: int): (r: Release)
    ensures r == CommitRight <==> translationX > SwipeThreshold
    ensures r == CommitLeft <==> translationX < -SwipeThreshold
    ensures r == SnapBack <==> -SwipeThreshold <= translationX <= SwipeThreshold
  {
    if translationX > SwipeThreshold then CommitRight
    else if translationX < -SwipeThreshold then CommitLeft
    else SnapBack
  }

  /** The comparison is strict: a release exactly at the threshold does not commit,
      one unit past it does. */
  lemma ThresholdIsStrict()
    ensures Classify(SwipeThreshold) == SnapBack && Classify(-SwipeThreshold) == SnapBack
    ensures Classify(SwipeThreshold + 1) == CommitRight
    ensures Classify(-SwipeThreshold - 1) == CommitLeft
  {
  }
}
