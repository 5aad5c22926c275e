/**
 * The alien spawn gate (TimerFunctions). The game clock and the random draw
 * are parameters: `now` is the value pygame.time.get_ticks() would return, in
 * milliseconds, and `draw` is the generator output behind randint.
 */
module AlienTimer {
  import opened PyRandom

  /** Bounds of the spawn delay, in milliseconds, both included. */
  const MinDelay: int := 500
  const MaxDelay: int := 2000

  /** The two fields of TimerFunctions. */
  datatype Timer = Timer(alienDelay: int, lastAlienCreatedTime: int)

  predicate ValidDelay(d: int) {
    MinDelay <= d <= MaxDelay
  }

  /** A freshly constructed TimerFunctions: no delay, nothing created yet, so due at once. */
  function NewTimer(): (t: Timer)
    ensures forall now :: now >= 0 ==> Due(t, now)
  {
    Timer(0, 0)
  }

  /** The delay randint(500, 2000) yields for `draw`. */
  function DrawnDelay(draw: nat): (d: int)
    ensures ValidDelay(d)
  {
    RandInt(MinDelay, MaxDelay, draw).value
  }

  /** set_next_alien_delay: a new delay in range; the last creation time stays. */
  function SetNextAlienDelay(t: Timer, draw: nat): (r: Timer)
    ensures ValidDelay(r.alienDelay)
    ensures r.lastAlienCreatedTime == t.lastAlienCreatedTime
  {
    t.(alienDelay := DrawnDelay(draw))
  }

  /**
   * The gate condition: the clock has advanced by at least the current delay.
   * With a delay in range it never holds within MinDelay of the last creation
   * and always holds from MaxDelay on.
   */
  predicate Due(t: Timer, now: int)
    ensures ValidDelay(t.alienDelay) && now - t.lastAlienCreatedTime < MinDelay ==> !Due(t, now)
    ensures ValidDelay(t.alienDelay) && now - t.lastAlienCreatedTime >= MaxDelay ==> Due(t, now)
  {
    now - t.lastAlienCreatedTime >= t.alienDelay
  }

  /** The answer of one check together with the timer after it. */
  datatype Check = Check(fired: bool, timer: Timer)

  /**
   * time_to_create_another_alien: fires when the clock has advanced by the
   * delay; then records the time and draws a new delay. Otherwise it changes
   * nothing.
   */
  function TimeToCreateAnotherAlien(t: Timer, now: int, draw: nat): (c: Check)
    ensures c.fired <==> now - t.lastAlienCreatedTime >= t.alienDelay
    ensures c.fired ==> c.timer.lastAlienCreatedTime == now
    ensures c.fired ==> ValidDelay(c.timer.alienDelay) && c.timer.alienDelay == DrawnDelay(draw)
    ensures !c.fired ==> c.timer == t
  {
    if Due(t, now) then
      Check(true, SetNextAlienDelay(t.(lastAlienCreatedTime := now), draw))
    else
      Check(false, t)
  }

  /** A fresh timer fires at its first check, at any non-negative clock value. */
  lemma FreshTimerFiresAtOnce(now: int, draw: nat)
    requires now >= 0
    ensures TimeToCreateAnotherAlien(NewTimer(), now, draw).fired
  {
  }

  /** With a clock that has not advanced, a firing check is followed by a quiet one. */
  lemma NoRefireWithoutAdvance(t: Timer, now: int, draw1: nat, draw2: nat)
    requires TimeToCreateAnotherAlien(t, now, draw1).fired
    ensures !TimeToCreateAnotherAlien(TimeToCreateAnotherAlien(t, now, draw1).timer, now, draw2).fired
  {
  }

  /** The checks preserve a delay in range. */
  lemma CheckKeepsValidDelay(t: Timer, now: int, draw: nat)
    requires ValidDelay(t.alienDelay)
    ensures ValidDelay(TimeToCreateAnotherAlien(t, now, draw).timer.alienDelay)
  {
  }

  /** One call of time_to_create_another_alien: the clock value and the draw it would use. */
  datatype Tick = Tick(now: int, draw: nat)

  /** The timer after the first `i` calls of a run. */
  function StateAt(t: Timer, ticks: seq<Tick>, i: nat): Timer
    requires i <= |ticks|
  {
    if i == 0 then t
    else TimeToCreateAnotherAlien(StateAt(t, ticks, i - 1), ticks[i - 1].now, ticks[i - 1].draw).timer
  }

  /** Whether call `i` of a run returns true. */
  predicate Fired(t: Timer, ticks: seq<Tick>, i: nat)
    requires i < |ticks|
  {
    TimeToCreateAnotherAlien(StateAt(t, ticks, i), ticks[i].now, ticks[i].draw).fired
  }

  /** A stretch of calls that all return false leaves the timer as it was. */
  lemma {:induction false} QuietStretchKeepsTimer(t: Timer, ticks: seq<Tick>, i: nat, j: nat)
    requires i <= j <= |ticks|
    requires forall k :: i <= k < j ==> !Fired(t, ticks, k)
    ensures StateAt(t, ticks, j) == StateAt(t, ticks, i)
    decreases j
  {
    if i < j {
      QuietStretchKeepsTimer(t, ticks, i, j - 1);
      assert !Fired(t, ticks, j - 1);
    }
  }

  /**
   * Two consecutive true results at calls i and j are at least the delay drawn
   * at call i apart, and so at least MinDelay apart.
   */
  lemma {:induction false} ConsecutiveFiresSpacing(t: Timer, ticks: seq<Tick>, i: nat, j: nat)
    requires i < j < |ticks|
    requires Fired(t, ticks, i) && Fired(t, ticks, j)
    requires forall k :: i < k < j ==> !Fired(t, ticks, k)
    ensures ticks[j].now - ticks[i].now >= DrawnDelay(ticks[i].draw) >= MinDelay
  {
    QuietStretchKeepsTimer(t, ticks, i + 1, j);
    var after := StateAt(t, ticks, i + 1);
    assert after.lastAlienCreatedTime == ticks[i].now;
    assert after.alienDelay == DrawnDelay(ticks[i].draw);
  }

  /** Any two true results of a run, consecutive or not, are at least MinDelay apart. */
  lemma {:induction false} AnyTwoFiresSpaced(t: Timer, ticks: seq<Tick>, i: nat, j: nat)
    requires i < j < |ticks|
    requires Fired(t, ticks, i) && Fired(t, ticks, j)
    ensures ticks[j].now - ticks[i].now >= MinDelay
    decreases j - i
  {
    if exists k :: i < k < j && Fired(t, ticks, k) {
      var k :| i < k < j && Fired(t, ticks, k);
      AnyTwoFiresSpaced(t, ticks, i, k);
      AnyTwoFiresSpaced(t, ticks, k, j);
    } else {
      ConsecutiveFiresSpacing(t, ticks, i, j);
    }
  }

  /**
   * The gate fires at most once in any window shorter than MinDelay; in
   * particular, with a clock that does not advance it fires at most once.
   */
  lemma AtMostOneFirePerWindow(t: Timer, ticks: seq<Tick>, i: nat, j: nat)
    requires i < j < |ticks|
    requires ticks[j].now - ticks[i].now < MinDelay
    requires Fired(t, ticks, i)
    ensures !Fired(t, ticks, j)
  {
    if Fired(t, ticks, j) {
      AnyTwoFiresSpaced(t, ticks, i, j);
    }
  }
}
