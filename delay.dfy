/** AttendanceService.getDelay: the randomized delay of one clock-in/out job.
    The source draws Math.random() twice: first for a factor in 1..15, then
    for the span that the branch on isImmediate scales. TEN_SECONDS and
    ONE_SECOND are not defined in src/constants.ts, so the immediate branch
    takes them as parameters (intended 10000 and 1000). */
module Delay {
  import opened Common

  /** The two Math.random() results one getDelay call consumes, in call order. */
  datatype DelayDraw = DelayDraw(factor: Random, span: Random)

  /** The delay in milliseconds for a job whose isImmediate flag is given. */
  function GetDelay(isImmediate: int, draw: DelayDraw, tenSeconds: nat, oneSecond: nat): (d: nat)
    ensures isImmediate == 1 ==> oneSecond <= d && (d < oneSecond + tenSeconds || (tenSeconds == 0 && d == oneSecond))
    ensures isImmediate == 1 && tenSeconds == 10000 && oneSecond == 1000 ==> 1000 <= d < 11000
    ensures isImmediate != 1 ==> FIVE_SECONDS <= d < FIVE_TEEN_MINUTES + 15 * FIVE_SECONDS
    ensures isImmediate != 1 ==> 5000 <= d < 975000
  {
    var randomNumber := FloorTimes(draw.factor, 15) + 1;
    if isImmediate == 1 then
      FloorTimes(draw.span, tenSeconds) + oneSecond
    else
      FloorTimes(draw.span, FIVE_TEEN_MINUTES) + FIVE_SECONDS * randomNumber
  }

  /** The draw whose floor(u * c) is exactly k. */
  function DrawFor(k: nat, c: nat): (u: Random)
    requires k < c
    ensures FloorTimes(u, c) == k
  {
    var u := (k as real) / (c as real);
    assert u * (c as real) == k as real;
    FloorTimesIsFloor(u, c);
    u
  }

  /** The immediate bounds are tight: every delay in
      [oneSecond, oneSecond + tenSeconds) is produced by some draw. */
  lemma ImmediateDelayCoversRange(d: nat, tenSeconds: nat, oneSecond: nat)
    requires oneSecond <= d < oneSecond + tenSeconds
    ensures exists draw :: GetDelay(1, draw, tenSeconds, oneSecond) == d
  {
    var draw := DelayDraw(0.0, DrawFor(d - oneSecond, tenSeconds));
    assert GetDelay(1, draw, tenSeconds, oneSecond) == d;
  }

  /** The deferred bounds are tight: every delay in [5000, 975000) is produced
      by some draw (factor 1 below 905000, factor 15 from there on). */
  lemma DeferredDelayCoversRange(d: nat, isImmediate: int, tenSeconds: nat, oneSecond: nat)
    requires isImmediate != 1
    requires 5000 <= d < 975000
    ensures exists draw :: GetDelay(isImmediate, draw, tenSeconds, oneSecond) == d
  {
    var r := if d < 905000 then 1 else 15;
    var draw := DelayDraw(DrawFor(r - 1, 15), DrawFor(d - 5000 * r, FIVE_TEEN_MINUTES));
    assert GetDelay(isImmediate, draw, tenSeconds, oneSecond) == d;
  }
}
