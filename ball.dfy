/** The particle of the epidemic simulation (js/ball.js): where it is, how it
    moves, and its health flags. The JavaScript object updates its own fields
    in place, so it is a class here; `Particle` is the value of those fields at
    one moment, and every method is specified by the transition it applies to
    that value. */
module Balls {

  /** A JavaScript value that is either a number or `null`. */
  datatype Option<T> = None | Some(value: T)

  /** The number JavaScript arithmetic uses for a value: `null` counts as 0. */
  function NumberValue(o: Option<int>): int {
    if o.Some? then o.value else 0
  }

  /** Every ball is drawn with this size in pixels. */
  const SIZE_PX: int := 6

  /** The fields of a ball at one moment. `daysLeftInfected` and `deathDay`
      hold `None` where the JavaScript object holds `null`. */
  datatype Particle = Particle(
    positionX: real, positionY: real,
    velocityX: real, velocityY: real,
    safeDistance: real,
    sizePx: int,
    infected: bool,
    daysLeftInfected: Option<int>,
    willDie: bool,
    deathDay: Option<int>,
    immune: bool,
    dead: bool)
  {
    /** One step of motion: the velocity is added to the position. */
    function Moved(): Particle {
      this.(positionX := positionX + velocityX, positionY := positionY + velocityY)
    }

    /** The infection countdown goes down by `byDays`. JavaScript reads a
        `null` countdown as 0 here, so it becomes `-byDays`. */
    function DaysReduced(byDays: int): Particle {
      this.(daysLeftInfected := Some(NumberValue(daysLeftInfected) - byDays))
    }

    /** Infected, with `recoveryInDays` days to go. No other flag is touched. */
    function Infected(recoveryInDays: int): Particle {
      this.(infected := true, daysLeftInfected := Some(recoveryInDays))
    }

    /** Recovered: immune, no longer infected, no longer due to die. */
    function Immunized(): Particle {
      this.(infected := false, immune := true, willDie := false,
            daysLeftInfected := Some(0), deathDay := None)
    }

    /** Dead: not infected, not immune, stopped. */
    function Killed(): Particle {
      this.(dead := true, infected := false, daysLeftInfected := Some(0),
            immune := false, velocityX := 0.0, velocityY := 0.0)
    }

    /** JavaScript `deathDay === daysLeftInfected`: exact equality of two
        numbers, or both `null`; never "countdown at or below the death day". */
    predicate ShouldDie() {
      deathDay == daysLeftInfected
    }

    /** At most one of the health flags infected, immune and dead is set
        (none set means the ball is still susceptible). */
    predicate HealthExclusive() {
      !(infected && immune) && !(infected && dead) && !(immune && dead)
    }
  }

  /** `n` successive steps of motion. */
  function MovedTimes(p: Particle, n: nat): Particle
    decreases n
  {
    if n == 0 then p else MovedTimes(p.Moved(), n - 1)
  }

  /** `n` successive one-day reductions of the countdown. */
  function ReducedDaily(p: Particle, n: nat): Particle
    decreases n
  {
    if n == 0 then p else ReducedDaily(p.DaysReduced(1), n - 1)
  }

  /** The JavaScript `Ball` object. */
  class Ball {
    var positionX: real
    var positionY: real
    var velocityX: real
    var velocityY: real
    var safeDistance: real
    var sizePx: int
    var infected: bool
    var daysLeftInfected: Option<int>
    var willDie: bool
    var deathDay: Option<int>
    var immune: bool
    var dead: bool

    /** The current values of all fields. */
    function State(): Particle
      reads this
    {
      Particle(positionX, positionY, velocityX, velocityY, safeDistance, sizePx,
               infected, daysLeftInfected, willDie, deathDay, immune, dead)
    }

    /** A new ball takes every argument as given, has size 6 and is neither
        immune nor dead. */
    constructor (positionX: real, positionY: real,
                 velocityX: real, velocityY: real,
                 unsafeDistance: real,
                 infected: bool, daysLeftInfected: Option<int>,
                 willDie: bool, deathDay: Option<int>)
      ensures State() == Particle(positionX, positionY, velocityX, velocityY,
                                  unsafeDistance, SIZE_PX, infected, daysLeftInfected,
                                  willDie, deathDay, false, false)
    {
      this.positionX := positionX;
      this.positionY := positionY;
      this.velocityX := velocityX;
      this.velocityY := velocityY;
      this.safeDistance := unsafeDistance;
      this.sizePx := SIZE_PX;
      this.infected := infected;
      this.daysLeftInfected := daysLeftInfected;
      this.willDie := willDie;
      this.deathDay := deathDay;
      this.immune := false;
      this.dead := false;
    }

    method MoveByVelocity()
      modifies this
      ensures State() == old(State()).Moved()
    {
      positionX := positionX + velocityX;
      positionY := positionY + velocityY;
    }

    method ReduceDaysInfected(byDays: int)
      modifies this
      ensures State() == old(State()).DaysReduced(byDays)
    {
      daysLeftInfected := Some(NumberValue(daysLeftInfected) - byDays);
    }

    method MakeInfected(recoveryInDays: int)
      modifies this
      ensures State() == old(State()).Infected(recoveryInDays)
    {
      infected := true;
      daysLeftInfected := Some(recoveryInDays);
    }

    method MakeImmune()
      modifies this
      ensures State() == old(State()).Immunized()
    {
      infected := false;
      immune := true;
      willDie := false;
      daysLeftInfected := Some(0);
      deathDay := None;
    }

    method MakeDead()
      modifies this
      ensures State() == old(State()).Killed()
    {
      dead := true;
      infected := false;
      daysLeftInfected := Some(0);
      immune := false;
      velocityX := 0.0;
      velocityY := 0.0;
    }

    /** True exactly when the death day and the countdown are the same
        number, or both are `null`. */
    function ShouldDie(): (r: bool)
      reads this
      ensures r <==> (deathDay.Some? && daysLeftInfected.Some? && deathDay.value == daysLeftInfected.value)
                     || (deathDay.None? && daysLeftInfected.None?)
    {
      State().ShouldDie()
    }
  }

  // ---------------------------------------------------------------------------
  // How the transitions compose

  /** A ball that is not moving stays where it is however many steps it takes. */
  lemma {:induction false} StationaryStaysPut(p: Particle, n: nat)
    requires p.velocityX == 0.0 && p.velocityY == 0.0
    ensures MovedTimes(p, n) == p
    decreases n
  {
    if n > 0 {
      assert p.Moved() == p;
      StationaryStaysPut(p, n - 1);
    }
  }

  /** After `makeDead` no number of `moveByVelocity` calls changes the position. */
  lemma DeadBallNeverMoves(p: Particle, n: nat)
    ensures MovedTimes(p.Killed(), n).positionX == p.positionX
    ensures MovedTimes(p.Killed(), n).positionY == p.positionY
  {
    StationaryStaysPut(p.Killed(), n);
  }

  /** `makeDead` leaves exactly one health flag set, dead, and keeps the
      position and the death-roll fields. */
  lemma KilledIsDeadOnly(p: Particle)
    ensures p.Killed().dead && p.Killed().HealthExclusive()
    ensures !p.Killed().infected && !p.Killed().immune
    ensures p.Killed().positionX == p.positionX && p.Killed().positionY == p.positionY
    ensures p.Killed().willDie == p.willDie && p.Killed().deathDay == p.deathDay
  {
  }

  /** Which transitions keep the health flags exclusive. `makeInfected` and
      `makeImmune` do not clear the other flags, so they keep exclusivity only
      when the ball is in a state the caller is expected to check first. */
  lemma HealthExclusivePreserved(p: Particle, recoveryInDays: int, byDays: int)
    requires p.HealthExclusive()
    ensures p.Moved().HealthExclusive() && p.DaysReduced(byDays).HealthExclusive()
    ensures p.Killed().HealthExclusive()
    ensures p.Infected(recoveryInDays).HealthExclusive() <==> !p.immune && !p.dead
    ensures p.Immunized().HealthExclusive() <==> !p.dead
  {
  }

  /** Right after `makeImmune`, `shouldDie` is false: the death day is `null`
      while the countdown is 0. */
  lemma ImmuneShouldNotDie(p: Particle)
    ensures !p.Immunized().ShouldDie()
    ensures !p.Immunized().willDie
  {
  }

  /** Reducing the countdown day by day for `n` days lowers it by exactly `n`
      and changes nothing else. */
  lemma {:induction false} ReducedDailyCount(p: Particle, n: nat)
    requires p.daysLeftInfected.Some?
    ensures ReducedDaily(p, n) == p.(daysLeftInfected := Some(p.daysLeftInfected.value - n))
    decreases n
  {
    if n > 0 {
      ReducedDailyCount(p.DaysReduced(1), n - 1);
    }
  }

  /** Counting down one day at a time from `k` days, a ball with death day `d`
      satisfies `shouldDie` after exactly `k - d` days and after no other
      number of days; with `d > k` it never does. */
  lemma DailyCountdownHitsDeathDay(p: Particle, k: int, d: int, n: nat)
    requires p.daysLeftInfected == Some(k) && p.deathDay == Some(d)
    ensures ReducedDaily(p, n).ShouldDie() <==> n == k - d
  {
    ReducedDailyCount(p, n);
  }

  /** Because the check is an equality, a countdown that jumps over the death
      day in one reduction never satisfies `shouldDie`, even though it has gone
      below the death day. */
  lemma SkippedDeathDayNeverDies(p: Particle, k: int, d: int, byDays: int)
    requires p.daysLeftInfected == Some(k) && p.deathDay == Some(d)
    requires k > d && k - byDays < d
    ensures !p.DaysReduced(byDays).ShouldDie()
    ensures p.DaysReduced(byDays).daysLeftInfected.value < d
  {
  }
}
