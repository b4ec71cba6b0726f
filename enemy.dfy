/**
 * The soldier component: its fields, the entry points the engine calls and
 * the coroutines it starts. Each entry point is proved to compute the
 * matching function of EnemyModel on Snapshot(), and to keep Valid().
 */
module EnemyAI {
  import opened Options
  import opened EnemyModel
  import EnemyProperties
  import Vision
  import Stats

  /** What all soldiers share: the static alert flag, which only ever goes up. */
  class World {
    var globalAlert: bool

    constructor ()
      ensures !globalAlert
    {
      globalAlert := false;
    }
  }

  class Enemy {
    const world: World
    const tuning: Tuning
    const data: Option<Soldier>
    /** Cleared by Start when the asset is missing; the engine then stops calling the frame methods. */
    var enabled: bool
    /** Whether the player reference is assigned. */
    var hasPlayer: bool
    /** The player's stats component, the sink for this soldier's attacks. */
    var playerStats: Stats.PlayerStats?
    var state: State
    var health: real
    var hasDetectedOnce: bool
    var patrolIndex: nat
    var patrolWaitTimer: real
    var attackTimer: real
    /** The running coroutines, in the order they were started. */
    var pending: seq<Timer>

    /** The decision state as a value, shared flag included. */
    function Snapshot(): Brain
      reads this, world
    {
      Brain(state, health, hasDetectedOnce, world.globalAlert, patrolIndex, patrolWaitTimer, attackTimer, pending)
    }

    ghost predicate Valid()
      reads this, world
    {
      Reachable(Snapshot(), tuning) && (playerStats != null ==> hasPlayer)
    }

    /**
     * The field initialisers followed by Start: without an asset the soldier
     * disables itself; otherwise it takes the asset's full health and looks
     * the player up by tag when no reference was assigned. initialState is
     * the serialised inspector value (Patrol unless the scene overrides it),
     * which Start leaves alone. A soldier loaded in Damage has no return
     * timer and one loaded Dead with health left is not a dead soldier the
     * code can produce, so exactly those two starts are outside Valid().
     */
    constructor (world: World, tuning: Tuning, data: Option<Soldier>, initialState: State,
                 playerAssigned: bool, playerFoundByTag: bool, statsOnPlayer: Stats.PlayerStats?)
      ensures this.world == world && this.tuning == tuning && this.data == data
      ensures Valid() <==> initialState != Damage && (initialState == Dead ==> health <= 0.0)
      ensures initialState == Patrol ==> Valid()
      ensures state == initialState && !hasDetectedOnce && pending == []
      ensures patrolIndex == 0 && patrolWaitTimer == 0.0 && attackTimer == 0.0
      ensures enabled == data.Some?
      ensures data.None? ==> health == 0.0 && hasPlayer == playerAssigned && playerStats == null
      ensures data.Some? ==>
        && health == data.value.maxHealth
        && hasPlayer == (playerAssigned || playerFoundByTag)
        && playerStats == (if hasPlayer then statsOnPlayer else null)
    {
      this.world, this.tuning, this.data := world, tuning, data;
      state, health, hasDetectedOnce := initialState, 0.0, false;
      patrolIndex, patrolWaitTimer, attackTimer := 0, 0.0, 0.0;
      pending := [];
      enabled, hasPlayer, playerStats := true, playerAssigned, null;
      new;
      if data.None? {
        enabled := false;
      } else {
        health := data.value.maxHealth;
        if !hasPlayer && playerFoundByTag {
          hasPlayer := true;
        }
        if hasPlayer {
          playerStats := statsOnPlayer;
        }
      }
    }

    /** The sight test: a player reference, then the three gates. */
    predicate CheckVision(probe: Vision.Probe): (r: bool)
      reads this
      ensures r <==> hasPlayer && probe.withinRange && probe.withinCone && probe.rayClear
    {
      hasPlayer && Vision.CanSee(probe)
    }

    /**
     * A frame. atWaypoint is the engine's horizontal-distance test against the
     * current waypoint; probe answers the sight queries asked after the patrol step.
     */
    method Update(dt: real, atWaypoint: bool, probe: Vision.Probe)
      requires Valid()
      modifies this, world
      ensures Valid()
      ensures Snapshot() == (if enabled then EnemyModel.Update(old(Snapshot()), tuning, dt, atWaypoint, CheckVision(probe))
                             else old(Snapshot()))
      ensures enabled == old(enabled) && hasPlayer == old(hasPlayer) && playerStats == old(playerStats)
    {
      EnemyProperties.UpdatePreserves(Snapshot(), tuning, dt, atWaypoint, CheckVision(probe));
      if !enabled {
        return;
      }
      if state == Dead {
        return;
      }
      if state == Damage {
        return;
      }
      if world.globalAlert && state != Chase && state != Alert {
        SetState(Alert);
        return;
      }
      if state == Patrol {
        PatrolLogic(dt, atWaypoint);
      }
      var seesPlayer := CheckVision(probe);
      if seesPlayer {
        hasDetectedOnce := true;
        world.globalAlert := true;
        SetState(Chase);
      }
    }

    /** A physics step: chasing soldiers advance the attack timer and may strike. */
    method FixedUpdate(dt: real, inAttackRange: bool)
      requires Valid()
      modifies this, playerStats
      ensures enabled == old(enabled) && hasPlayer == old(hasPlayer) && playerStats == old(playerStats)
      ensures Valid()
      ensures var s := EnemyModel.FixedUpdate(old(Snapshot()), tuning, dt, hasPlayer, inAttackRange);
        && Snapshot() == (if enabled then s.brain else old(Snapshot()))
        && (playerStats != null ==>
              && playerStats.health == (if enabled && s.attacked
                                        then Stats.Max(0, old(playerStats.health) - Stats.Max(0, tuning.damagePerHit))
                                        else old(playerStats.health))
              && playerStats.OnlyHealthChanged()
              && (old(playerStats.Valid()) ==> playerStats.Valid()))
    {
      EnemyProperties.FixedUpdatePreserves(Snapshot(), tuning, dt, hasPlayer, inAttackRange);
      if !enabled {
        return;
      }
      if state == Chase || state == Alert {
        ChasePlayerMovement(dt, inAttackRange);
      }
    }

    /** The chase step; the velocity and the facing it sets are the engine's. */
    method ChasePlayerMovement(dt: real, inAttackRange: bool)
      modifies this`attackTimer, playerStats
      ensures var timer := old(attackTimer) + dt;
        var strike := hasPlayer && inAttackRange && timer >= tuning.attackCooldown;
        && attackTimer == (if !hasPlayer then old(attackTimer) else if strike then 0.0 else timer)
        && (playerStats != null ==>
              && playerStats.health == (if strike
                                        then Stats.Max(0, old(playerStats.health) - Stats.Max(0, tuning.damagePerHit))
                                        else old(playerStats.health))
              && playerStats.OnlyHealthChanged()
              && (old(playerStats.Valid()) ==> playerStats.Valid()))
    {
      if !hasPlayer {
        return;
      }
      attackTimer := attackTimer + dt;
      if inAttackRange {
        TryAttackPlayer();
      }
    }

    /** Strikes once the cooldown is reached; the timer resets even with no stats to hit. */
    method TryAttackPlayer()
      modifies this`attackTimer, playerStats
      ensures var strike := old(attackTimer) >= tuning.attackCooldown;
        && attackTimer == (if strike then 0.0 else old(attackTimer))
        && (playerStats != null ==>
              && playerStats.health == (if strike
                                        then Stats.Max(0, old(playerStats.health) - Stats.Max(0, tuning.damagePerHit))
                                        else old(playerStats.health))
              && playerStats.OnlyHealthChanged()
              && (old(playerStats.Valid()) ==> playerStats.Valid()))
    {
      if attackTimer < tuning.attackCooldown {
        return;
      }
      attackTimer := 0.0;
      if playerStats != null {
        playerStats.TakeDamage(tuning.damagePerHit);
      }
    }

    /** A hit from the player's weapon at time now. */
    method TakeDamage(dmg: real, now: real)
      requires Valid()
      modifies this
      ensures Valid()
      ensures Snapshot() == EnemyModel.TakeDamage(old(Snapshot()), dmg, now)
      ensures enabled == old(enabled) && hasPlayer == old(hasPlayer) && playerStats == old(playerStats)
    {
      EnemyProperties.TakeDamagePreserves(Snapshot(), tuning, dmg, now);
      if state == Dead {
        return;
      }
      health := health - dmg;
      if health <= 0.0 {
        Die();
        return;
      }
      if !hasDetectedOnce {
        // StartCoroutine(AlertAfter3Sec): cancelled two statements later
        pending := pending + [Timer(TimerKind.AlertAfter3Sec, now + AlertDelay)];
      }
      SetState(Damage);
      StopAllCoroutines();
      pending := pending + [Timer(TimerKind.BackToChase, now + ReturnDelay)];
    }

    /**
     * The scheduler at time now: each coroutine whose wait is over runs its
     * body, in start order; the others keep waiting.
     */
    method Tick(now: real)
      requires Valid()
      modifies this, world
      ensures Valid()
      ensures Snapshot() == EnemyModel.Tick(old(Snapshot()), now)
      ensures enabled == old(enabled) && hasPlayer == old(hasPlayer) && playerStats == old(playerStats)
    {
      EnemyProperties.TickPreserves(Snapshot(), tuning, now);
      ghost var goal := EnemyModel.Tick(Snapshot(), now);
      var due := DueTimers(pending, now);
      pending := WaitingTimers(pending, now);
      var i := 0;
      while i < |due|
        invariant 0 <= i <= |due|
        invariant FireAll(Snapshot(), due[i..]) == goal
        invariant enabled == old(enabled) && hasPlayer == old(hasPlayer) && playerStats == old(playerStats)
      {
        assert due[i..][1..] == due[i + 1..];
        match due[i].kind {
          case BackToChase => BackToChase();
          case AlertAfter3Sec => AlertAfter3Sec();
        }
        i := i + 1;
      }
    }

    /** Body of the three-second alert coroutine. */
    method AlertAfter3Sec()
      modifies this`state, world`globalAlert
      ensures old(state) != Dead ==> world.globalAlert && state == Alert
      ensures old(state) == Dead ==> world.globalAlert == old(world.globalAlert) && state == Dead
    {
      if state != Dead {
        world.globalAlert := true;
        SetState(Alert);
      }
    }

    /** Body of the return coroutine: the destination is read from the flags now. */
    method BackToChase()
      modifies this`state
      ensures state == ReturnDestination(world.globalAlert, hasDetectedOnce)
    {
      if world.globalAlert {
        SetState(Alert);
      } else if hasDetectedOnce {
        SetState(Chase);
      } else {
        SetState(Patrol);
      }
    }

    /** Death: the state only; rendering, collision and physics are the engine's, and pending coroutines keep running. */
    method Die()
      modifies this`state
      ensures state == Dead
    {
      state := Dead;
    }

    method StopAllCoroutines()
      modifies this`pending
      ensures pending == []
    {
      pending := [];
    }

    /** One step of the patrol; walking toward the waypoint is the engine's. */
    method PatrolLogic(dt: real, atWaypoint: bool)
      requires patrolIndex == 0 || patrolIndex < tuning.patrolPointCount
      modifies this`state, this`patrolWaitTimer, this`patrolIndex
      ensures Snapshot() == EnemyModel.PatrolLogic(old(Snapshot()), tuning, dt, atWaypoint)
    {
      if tuning.patrolPointCount == 0 {
        SetState(Normal);
        return;
      }
      assert patrolIndex < tuning.patrolPointCount;  // patrolPoints[patrolIndex] is in range
      if atWaypoint {
        patrolWaitTimer := patrolWaitTimer + dt;
        if patrolWaitTimer >= tuning.patrolWaitTime {
          patrolWaitTimer := 0.0;
          patrolIndex := (patrolIndex + 1) % tuning.patrolPointCount;
        }
        return;
      }
    }

    method SetState(s: State)
      modifies this`state
      ensures state == s
    {
      state := s;
    }
  }
}
