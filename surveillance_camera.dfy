/**
 * The security camera: it sweeps left and right, turning back when a wall is
 * in front of it, and every frame it sees the player it raises the alert on
 * every registered soldier. It can be shot and is destroyed at zero health.
 */
module Surveillance {
  import opened Options
  import Vision
  import EnemyAI
  import AlertSystem

  /** The camera's asset: health and the parameters of its vision cone. */
  datatype SurveillanceCameraData = SurveillanceCameraData(maxHealth: real, viewAngle: real, viewDistance: real, eyeHeight: real)

  /** The turn rate after the wall check: reversed on a hit (so two hits restore it), unchanged otherwise. */
  function Bounce(speed: real, wallHit: bool): (r: real)
    ensures r * r == speed * speed
    ensures wallHit ==> r + speed == 0.0
    ensures !wallHit ==> r == speed
  {
    if wallHit then -speed else speed
  }

  /** Whether the camera's frame raises the global alert. */
  predicate Alarms(enabled: bool, destroyed: bool, hasPlayer: bool, probe: Vision.Probe) {
    enabled && !destroyed && hasPlayer && Vision.CanSee(probe)
  }

  /** The camera alarms exactly when it is live, has a player and all three vision gates pass. */
  lemma AlarmsExactly(enabled: bool, destroyed: bool, hasPlayer: bool, probe: Vision.Probe)
    ensures Alarms(enabled, destroyed, hasPlayer, probe) <==>
      && enabled && !destroyed && hasPlayer
      && probe.withinRange && probe.withinCone && probe.rayClear
  {
    if !(probe.withinRange && probe.withinCone && probe.rayClear) {
      assert Vision.Judge(probe) != Vision.Visible;
    }
  }

  class SurveillanceCamera {
    const registry: AlertSystem.AlertRegistry
    const data: Option<SurveillanceCameraData>
    /** Cleared by Start when the asset is missing. */
    var enabled: bool
    /** Whether the player reference is assigned. */
    var hasPlayer: bool
    var rotationSpeed: real
    /** The pivot's accumulated turn about the vertical axis, in degrees. */
    var yaw: real
    var health: real
    /** Set when Destroy(gameObject) was called; the engine destroys the object at the end of that frame. */
    var destroyRequested: bool
    /** Set at the first frame boundary after destroyRequested; the engine then no longer runs the camera. */
    var destroyed: bool

    /**
     * The field initialisers followed by Start: without an asset the camera
     * disables itself; otherwise it takes the asset's full health and looks
     * the player up by tag when no reference was assigned. rotationSpeed is
     * the serialised inspector value (30 unless the scene overrides it).
     */
    constructor (registry: AlertSystem.AlertRegistry, data: Option<SurveillanceCameraData>,
                 rotationSpeed: real, playerAssigned: bool, playerFoundByTag: bool)
      ensures this.registry == registry && this.data == data
      ensures this.rotationSpeed == rotationSpeed && yaw == 0.0 && !destroyRequested && !destroyed
      ensures enabled == data.Some?
      ensures data.None? ==> health == 0.0 && hasPlayer == playerAssigned
      ensures data.Some? ==> health == data.value.maxHealth && hasPlayer == (playerAssigned || playerFoundByTag)
    {
      this.registry, this.data := registry, data;
      enabled, hasPlayer := true, playerAssigned;
      this.rotationSpeed, yaw, health := rotationSpeed, 0.0, 0.0;
      destroyRequested, destroyed := false, false;
      new;
      if data.None? {
        enabled := false;
        return;
      }
      health := data.value.maxHealth;
      if !hasPlayer {
        hasPlayer := playerFoundByTag;
      }
    }

    /**
     * One frame: the wall check within bounceCheckDistance ahead of the pivot (wallHit), the turn by
     * rotationSpeed * dt, then the vision test (probe). A frame that sees the
     * player calls AlertAllEnemies; forceAlert says what each soldier's
     * callback does to the directory. There is no latch: every such frame
     * broadcasts again.
     */
    method Update(dt: real, wallHit: bool, probe: Vision.Probe,
                  forceAlert: EnemyAI.Enemy -> AlertSystem.ListEdit<EnemyAI.Enemy>)
      returns (broadcast: bool, result: AlertSystem.BroadcastResult<EnemyAI.Enemy>)
      modifies this, registry
      ensures broadcast == Alarms(old(enabled), old(destroyed), old(hasPlayer), probe)
      ensures enabled == old(enabled) && hasPlayer == old(hasPlayer)
      ensures health == old(health) && destroyRequested == old(destroyRequested) && destroyed == old(destroyed)
      ensures if old(enabled) && !old(destroyed) && old(hasPlayer)
        then rotationSpeed == Bounce(old(rotationSpeed), wallHit) && yaw == old(yaw) + rotationSpeed * dt
        else rotationSpeed == old(rotationSpeed) && yaw == old(yaw)
      ensures broadcast ==>
        && result == AlertSystem.Broadcast(old(registry.members), forceAlert)
        && registry.members == result.members
      ensures !broadcast ==> registry.members == old(registry.members)
      ensures old(registry.Valid()) ==> registry.Valid()
    {
      broadcast, result := false, AlertSystem.BroadcastResult([], registry.members, true);
      if !enabled || destroyed || !hasPlayer {
        return;
      }
      ghost var members := registry.members;
      RotateByRaycastBounce(dt, wallHit);
      assert registry.members == members;
      var sees := CanSeePlayer(probe);
      assert sees == Alarms(enabled, destroyed, hasPlayer, probe);
      if sees {
        broadcast := true;
        var invoked, completed := registry.AlertAllEnemies(forceAlert);
        result := AlertSystem.BroadcastResult(invoked, registry.members, completed);
        assert result == AlertSystem.Broadcast(members, forceAlert);
      }
    }

    method RotateByRaycastBounce(dt: real, wallHit: bool)
      modifies this`rotationSpeed, this`yaw
      ensures rotationSpeed == Bounce(old(rotationSpeed), wallHit)
      ensures yaw == old(yaw) + rotationSpeed * dt
    {
      if wallHit {
        rotationSpeed := -rotationSpeed;
      }
      yaw := yaw + rotationSpeed * dt;
    }

    /** Distance, then cone, then the obstruction ray: the three gates of Vision. */
    method CanSeePlayer(probe: Vision.Probe) returns (sees: bool)
      ensures sees == Vision.CanSee(probe)
    {
      var verdict := Vision.Judge(probe);
      sees := verdict == Vision.Visible;
    }

    /**
     * Lose dmg health; at zero or below Destroy is requested. The camera is
     * still live for the rest of the frame, so its Update may run again.
     */
    method TakeDamage(dmg: real)
      modifies this
      ensures health == old(health) - dmg
      ensures destroyRequested == (old(destroyRequested) || health <= 0.0)
      ensures destroyed == old(destroyed)
      ensures enabled == old(enabled) && hasPlayer == old(hasPlayer)
      ensures rotationSpeed == old(rotationSpeed) && yaw == old(yaw)
    {
      health := health - dmg;
      if health <= 0.0 {
        destroyRequested := true;
      }
    }

    /** The frame boundary: a requested Destroy takes effect. */
    method EndOfFrame()
      modifies this`destroyed
      ensures destroyed == (old(destroyed) || destroyRequested)
    {
      if destroyRequested {
        destroyed := true;
      }
    }
  }
}
