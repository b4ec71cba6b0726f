/**
 * What the soldier's decision logic guarantees, stated over EnemyModel: the
 * reachable-state invariant, the hit reaction and its timers, the frame and
 * physics decisions, and properties of whole runs of engine calls.
 */
module EnemyProperties {
  import opened EnemyModel

  /** One call from the engine into a soldier. */
  datatype Event =
    | Hit(dmg: real, now: real)
    | Frame(dt: real, atWaypoint: bool, seesPlayer: bool)
    | Physics(dt: real, hasPlayer: bool, inAttackRange: bool)
    | Clock(now: real)
    | AlertRaised  // another soldier saw the player and raised the shared flag

  function Step(b: Brain, t: Tuning, e: Event): Brain {
    match e
    case Hit(dmg, now) => TakeDamage(b, dmg, now)
    case Frame(dt, atWaypoint, sees) => Update(b, t, dt, atWaypoint, sees)
    case Physics(dt, hasPlayer, inRange) => FixedUpdate(b, t, dt, hasPlayer, inRange).brain
    case Clock(now) => Tick(b, now)
    case AlertRaised => b.(globalAlert := true)
  }

  /** The calls es, first one first. */
  function Run(b: Brain, t: Tuning, es: seq<Event>): Brain
    decreases es
  {
    if es == [] then b else Run(Step(b, t, es[0]), t, es[1..])
  }

  // ---------- the scheduler ----------

  lemma OneTimer(x: Timer, now: real)
    ensures DueTimers([x], now) == (if x.deadline <= now then [x] else [])
    ensures WaitingTimers([x], now) == (if x.deadline <= now then [] else [x])
  {
    assert [x][1..] == [];
  }

  lemma RunCons(b: Brain, t: Tuning, e: Event, es: seq<Event>)
    ensures Run(b, t, [e] + es) == Run(Step(b, t, e), t, es)
  {
    assert ([e] + es)[1..] == es;
  }

  /** Coroutine bodies never lower either flag. */
  lemma {:induction false} FireAllKeepsFlags(b: Brain, ts: seq<Timer>)
    ensures b.hasDetectedOnce ==> FireAll(b, ts).hasDetectedOnce
    ensures b.globalAlert ==> FireAll(b, ts).globalAlert
    ensures FireAll(b, ts).health == b.health && FireAll(b, ts).pending == b.pending
    ensures FireAll(b, ts).patrolIndex == b.patrolIndex
    decreases ts
  {
    if ts != [] {
      FireAllKeepsFlags(Fire(b, ts[0].kind), ts[1..]);
    }
  }

  /** With nothing pending the scheduler does nothing. */
  lemma TickIdle(b: Brain, now: real)
    requires b.pending == []
    ensures Tick(b, now) == b
  {
  }

  /**
   * In a reachable state the scheduler either leaves the soldier alone or
   * runs exactly the return timer, whose destination is read from the flags
   * at that moment; the three-second alert never runs, so a tick never raises
   * the shared alert.
   */
  lemma TickReachable(b: Brain, t: Tuning, now: real)
    requires Reachable(b, t)
    ensures var r := Tick(b, now);
      && r.globalAlert == b.globalAlert && r.hasDetectedOnce == b.hasDetectedOnce
      && r.health == b.health && r.patrolIndex == b.patrolIndex
      && r.patrolWaitTimer == b.patrolWaitTimer && r.attackTimer == b.attackTimer
      && (if b.pending != [] && b.pending[0].deadline <= now
          then r.state == ReturnDestination(b.globalAlert, b.hasDetectedOnce) && r.pending == []
          else r == b)
  {
    if b.pending != [] {
      var x := b.pending[0];
      assert b.pending == [x];
      OneTimer(x, now);
      if x.deadline <= now {
        var idle := b.(pending := []);
        assert [x][1..] == [];
        assert FireAll(idle, [x]) == Fire(idle, x.kind);
      }
    }
  }

  /**
   * The return timer's Chase branch is dead: having seen the player always
   * comes with the shared alert, which the first branch tests.
   */
  lemma ReturnNeverChases(b: Brain, t: Tuning)
    requires Reachable(b, t)
    ensures ReturnDestination(b.globalAlert, b.hasDetectedOnce) in {Alert, Patrol}
    ensures ReturnDestination(b.globalAlert, b.hasDetectedOnce) == (if b.globalAlert then Alert else Patrol)
  {
  }

  /** A soldier in Damage always leaves it once the return deadline is reached, for Alert or Patrol. */
  lemma DamageEnds(b: Brain, t: Tuning, now: real)
    requires Reachable(b, t) && b.state == Damage
    requires now >= b.pending[0].deadline
    ensures Tick(b, now).state != Damage
    ensures Tick(b, now).state in {Alert, Patrol}
  {
    TickReachable(b, t, now);
    ReturnNeverChases(b, t);
  }

  // ---------- the reachable-state invariant ----------

  lemma TakeDamagePreserves(b: Brain, t: Tuning, dmg: real, now: real)
    requires Reachable(b, t)
    ensures Reachable(TakeDamage(b, dmg, now), t)
  {
  }

  lemma UpdatePreserves(b: Brain, t: Tuning, dt: real, atWaypoint: bool, sees: bool)
    requires Reachable(b, t)
    ensures Reachable(Update(b, t, dt, atWaypoint, sees), t)
  {
  }

  lemma FixedUpdatePreserves(b: Brain, t: Tuning, dt: real, hasPlayer: bool, inRange: bool)
    requires Reachable(b, t)
    ensures Reachable(FixedUpdate(b, t, dt, hasPlayer, inRange).brain, t)
  {
  }

  lemma TickPreserves(b: Brain, t: Tuning, now: real)
    requires Reachable(b, t)
    ensures Reachable(Tick(b, now), t)
  {
    TickReachable(b, t, now);
  }

  lemma StepPreserves(b: Brain, t: Tuning, e: Event)
    requires Reachable(b, t)
    ensures Reachable(Step(b, t, e), t)
  {
    match e
    case Hit(dmg, now) => TakeDamagePreserves(b, t, dmg, now);
    case Frame(dt, w, s) => UpdatePreserves(b, t, dt, w, s);
    case Physics(dt, p, r) => FixedUpdatePreserves(b, t, dt, p, r);
    case Clock(now) => TickPreserves(b, t, now);
    case AlertRaised =>
  }

  /** The invariant holds after any sequence of engine calls. */
  lemma {:induction false} RunPreserves(b: Brain, t: Tuning, es: seq<Event>)
    requires Reachable(b, t)
    ensures Reachable(Run(b, t, es), t)
    decreases es
  {
    if es != [] {
      StepPreserves(b, t, es[0]);
      RunPreserves(Step(b, t, es[0]), t, es[1..]);
    }
  }

  // ---------- hits ----------

  /** A hit on a dead soldier changes nothing. */
  lemma DeadIgnoresHit(b: Brain, dmg: real, now: real)
    requires b.state == Dead
    ensures TakeDamage(b, dmg, now) == b
  {
  }

  /** A lethal hit kills and leaves the running coroutines as they were. */
  lemma LethalHit(b: Brain, dmg: real, now: real)
    requires b.state != Dead && b.health - dmg <= 0.0
    ensures var r := TakeDamage(b, dmg, now);
      r.state == Dead && r.health == b.health - dmg && r.pending == b.pending
      && r.hasDetectedOnce == b.hasDetectedOnce && r.globalAlert == b.globalAlert
  {
  }

  /**
   * A survivable hit enters Damage with exactly one coroutine left: the return
   * timer, due ReturnDelay after the hit. The three-second alert it may have
   * started is gone.
   */
  lemma SurvivableHit(b: Brain, dmg: real, now: real)
    requires b.state != Dead && b.health - dmg > 0.0
    ensures var r := TakeDamage(b, dmg, now);
      && r.state == Damage && r.health == b.health - dmg
      && r.pending == [Timer(BackToChase, now + ReturnDelay)]
      && (forall i :: 0 <= i < |r.pending| ==> r.pending[i].kind != AlertAfter3Sec)
      && r.hasDetectedOnce == b.hasDetectedOnce && r.globalAlert == b.globalAlert
  {
  }

  /**
   * A second survivable hit restarts the window: the soldier stays in Damage
   * until ReturnDelay after the second hit, and then leaves it.
   */
  lemma SecondHitRestartsWindow(b: Brain, t: Tuning, d1: real, t1: real, d2: real, t2: real, t3: real)
    requires b.state != Dead && b.health - d1 > 0.0 && b.health - d1 - d2 > 0.0
    ensures var r := Run(b, t, [Hit(d1, t1), Hit(d2, t2), Clock(t3)]);
      && (t3 < t2 + ReturnDelay ==> r.state == Damage && r.pending == [Timer(BackToChase, t2 + ReturnDelay)])
      && (t3 >= t2 + ReturnDelay ==> r.state == ReturnDestination(b.globalAlert, b.hasDetectedOnce) && r.pending == [])
  {
    var b1 := TakeDamage(b, d1, t1);
    var b2 := TakeDamage(b1, d2, t2);
    RunCons(b, t, Hit(d1, t1), [Hit(d2, t2), Clock(t3)]);
    RunCons(b1, t, Hit(d2, t2), [Clock(t3)]);
    RunCons(b2, t, Clock(t3), []);
    var x := Timer(BackToChase, t2 + ReturnDelay);
    assert b2.pending == [x];
    OneTimer(x, t3);
    assert [x][1..] == [];
    assert FireAll(b2.(pending := []), [x]) == Fire(b2.(pending := []), BackToChase);
  }

  /** Hits at 0.0 and 0.1: a tick at 0.2 (past the first window) finds the soldier still in Damage. */
  lemma RestartExample()
    ensures var spawned := Brain(Patrol, 50.0, false, false, 0, 0.0, 0.0, []);
      var t := Tuning(0, 1.0, 10, 1.0);
      && Run(spawned, t, [Hit(10.0, 0.0), Hit(10.0, 0.1), Clock(0.2)]).state == Damage
      && Run(spawned, t, [Hit(10.0, 0.0), Hit(10.0, 0.1), Clock(0.25)]).state == Patrol
  {
    var spawned := Brain(Patrol, 50.0, false, false, 0, 0.0, 0.0, []);
    var t := Tuning(0, 1.0, 10, 1.0);
    SecondHitRestartsWindow(spawned, t, 10.0, 0.0, 10.0, 0.1, 0.2);
    SecondHitRestartsWindow(spawned, t, 10.0, 0.0, 10.0, 0.1, 0.25);
  }

  /**
   * Death does not stop the return timer: a survivable hit, a lethal one
   * before the window ends, and a tick after it leave a soldier with no health
   * back in Alert, Chase or Patrol.
   */
  lemma DeathKeepsReturnTimer(b: Brain, t: Tuning, d1: real, t1: real, tm: real, d2: real, t2: real, t3: real)
    requires b.state != Dead && b.health - d1 > 0.0 && b.health - d1 - d2 <= 0.0
    requires tm < t1 + ReturnDelay <= t3
    ensures var r := Run(b, t, [Hit(d1, t1), Clock(tm), Hit(d2, t2), Clock(t3)]);
      && r.health <= 0.0
      && r.state == ReturnDestination(b.globalAlert, b.hasDetectedOnce)
      && r.state in {Alert, Chase, Patrol}
      && (Reachable(b, t) ==> r.state in {Alert, Patrol})
  {
    if Reachable(b, t) {
      ReturnNeverChases(b, t);
    }
    var x := Timer(BackToChase, t1 + ReturnDelay);
    var b1 := TakeDamage(b, d1, t1);
    assert b1.pending == [x];
    OneTimer(x, tm);
    var b2 := Tick(b1, tm);
    assert b2 == b1;
    var b3 := TakeDamage(b2, d2, t2);
    assert b3.state == Dead && b3.pending == [x];
    OneTimer(x, t3);
    assert [x][1..] == [];
    assert FireAll(b3.(pending := []), [x]) == Fire(b3.(pending := []), BackToChase);
    RunCons(b, t, Hit(d1, t1), [Clock(tm), Hit(d2, t2), Clock(t3)]);
    RunCons(b1, t, Clock(tm), [Hit(d2, t2), Clock(t3)]);
    RunCons(b2, t, Hit(d2, t2), [Clock(t3)]);
    RunCons(b3, t, Clock(t3), []);
  }

  /** The same with numbers: a newly spawned soldier of 50 hit for 10 then 45 walks its patrol again at -5 health. */
  lemma DeadSoldierPatrolsAgain()
    ensures var spawned := Brain(Patrol, 50.0, false, false, 0, 0.0, 0.0, []);
      var r := Run(spawned, Tuning(2, 1.0, 10, 1.0), [Hit(10.0, 0.0), Clock(0.05), Hit(45.0, 0.1), Clock(0.2)]);
      r.state == Patrol && r.health == -5.0
  {
    var spawned := Brain(Patrol, 50.0, false, false, 0, 0.0, 0.0, []);
    DeathKeepsReturnTimer(spawned, Tuning(2, 1.0, 10, 1.0), 10.0, 0.0, 0.05, 45.0, 0.1, 0.2);
  }

  /**
   * Dead is final only once nothing is pending: then no call changes anything
   * but the shared flag, which other soldiers may still raise.
   */
  lemma {:induction false} DeadAndIdleIsFinal(b: Brain, t: Tuning, es: seq<Event>)
    requires b.state == Dead && b.pending == []
    ensures Run(b, t, es).(globalAlert := b.globalAlert) == b
    ensures b.globalAlert ==> Run(b, t, es) == b
    decreases es
  {
    if es != [] {
      var b1 := Step(b, t, es[0]);
      assert b1 == b.(globalAlert := b1.globalAlert) by {
        if es[0].Clock? {
          TickIdle(b, es[0].now);
        }
      }
      assert b.globalAlert ==> b1 == b by {
        if es[0].Clock? {
          TickIdle(b, es[0].now);
        }
      }
      DeadAndIdleIsFinal(b1, t, es[1..]);
    }
  }

  // ---------- frames ----------

  /** A frame makes no decision for a dead or hit soldier. */
  lemma FrameIgnoredWhenDeadOrHit(b: Brain, t: Tuning, dt: real, atWaypoint: bool, sees: bool)
    requires b.state == Dead || b.state == Damage
    ensures Update(b, t, dt, atWaypoint, sees) == b
  {
  }

  /** The shared alert pre-empts patrol and sight: the frame only switches to Alert. */
  lemma GlobalAlertPreempts(b: Brain, t: Tuning, dt: real, atWaypoint: bool, sees: bool)
    requires b.state in {Patrol, Normal}
    requires b.globalAlert
    ensures Update(b, t, dt, atWaypoint, sees) == b.(state := Alert)
  {
  }

  /** Seeing the player in a frame that gets that far raises both flags and starts the chase. */
  lemma SightStartsChase(b: Brain, t: Tuning, dt: real, atWaypoint: bool)
    requires b.state !in {Dead, Damage}
    requires !b.globalAlert || b.state in {Chase, Alert}
    ensures var r := Update(b, t, dt, atWaypoint, true);
      r.hasDetectedOnce && r.globalAlert && r.state == Chase
      && r.health == b.health && r.pending == b.pending
  {
  }

  /** Neither flag is ever lowered, by any sequence of calls. */
  lemma {:induction false} FlagsAreSticky(b: Brain, t: Tuning, es: seq<Event>)
    ensures b.hasDetectedOnce ==> Run(b, t, es).hasDetectedOnce
    ensures b.globalAlert ==> Run(b, t, es).globalAlert
    decreases es
  {
    if es != [] {
      var b1 := Step(b, t, es[0]);
      assert b.globalAlert ==> b1.globalAlert by {
        if es[0].Clock? {
          FireAllKeepsFlags(b.(pending := WaitingTimers(b.pending, es[0].now)), DueTimers(b.pending, es[0].now));
        }
      }
      assert b.hasDetectedOnce ==> b1.hasDetectedOnce by {
        if es[0].Clock? {
          FireAllKeepsFlags(b.(pending := WaitingTimers(b.pending, es[0].now)), DueTimers(b.pending, es[0].now));
        }
      }
      FlagsAreSticky(b1, t, es[1..]);
    }
  }

  /** Health only moves on hits, and never up while every hit is non-negative. */
  lemma {:induction false} HealthNeverRises(b: Brain, t: Tuning, es: seq<Event>)
    requires forall i :: 0 <= i < |es| && es[i].Hit? ==> es[i].dmg >= 0.0
    ensures Run(b, t, es).health <= b.health
    decreases es
  {
    if es != [] {
      var b1 := Step(b, t, es[0]);
      assert b1.health <= b.health by {
        if es[0].Clock? {
          FireAllKeepsFlags(b.(pending := WaitingTimers(b.pending, es[0].now)), DueTimers(b.pending, es[0].now));
        }
      }
      HealthNeverRises(b1, t, es[1..]);
    }
  }

  // ---------- patrol ----------

  /** With no waypoints a patrolling soldier becomes Normal. */
  lemma NoWaypointsMeansNormal(b: Brain, t: Tuning, dt: real, atWaypoint: bool)
    requires t.patrolPointCount == 0
    ensures PatrolLogic(b, t, dt, atWaypoint) == b.(state := Normal)
  {
  }

  /**
   * At a waypoint the cursor moves on by exactly one (cyclically) only once the
   * wait timer reaches the wait time, which also resets the timer; it always
   * stays a valid index.
   */
  lemma PatrolAdvance(b: Brain, t: Tuning, dt: real, atWaypoint: bool)
    requires t.patrolPointCount > 0 && PatrolIndexValid(b, t)
    ensures var r := PatrolLogic(b, t, dt, atWaypoint);
      var advance := atWaypoint && b.patrolWaitTimer + dt >= t.patrolWaitTime;
      && r.patrolIndex < t.patrolPointCount
      && r.patrolIndex == (if advance then (b.patrolIndex + 1) % t.patrolPointCount else b.patrolIndex)
      && (advance ==> r.patrolWaitTimer == 0.0)
      && (atWaypoint && !advance ==> r.patrolWaitTimer == b.patrolWaitTimer + dt)
      && (!atWaypoint ==> r == b)
  {
  }

  // ---------- attacks ----------

  /**
   * A chasing physics step adds dt to the attack timer; it attacks exactly when
   * the player is within range and the cooldown is reached, and an attack
   * resets the timer. Outside Chase and Alert, or without a player, nothing happens.
   */
  lemma AttackCadence(b: Brain, t: Tuning, dt: real, hasPlayer: bool, inRange: bool)
    ensures var s := FixedUpdate(b, t, dt, hasPlayer, inRange);
      var chasing := (b.state == Chase || b.state == Alert) && hasPlayer;
      && (s.attacked <==> chasing && inRange && b.attackTimer + dt >= t.attackCooldown)
      && s.brain.attackTimer == (if s.attacked then 0.0 else if chasing then b.attackTimer + dt else b.attackTimer)
      && s.brain == b.(attackTimer := s.brain.attackTimer)
  {
  }
}
