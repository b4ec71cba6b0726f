/**
 * The player's health and stamina counters: clamped on enable, drained by
 * hits and sprinting, refilled by pick-ups, a respawn and a stamina regen timer.
 */
module Stats {
  import opened Options

  /** The optional asset that seeds the counters. */
  datatype PlayerStatsData = PlayerStatsData(
    maxHealth: int, startHealth: int,
    maxStamina: int, startStamina: int,
    regenInterval: real)

  /** Seconds per stamina point never drop below this. */
  const MinRegenInterval: real := 0.0001

  function Max(a: int, b: int): (r: int)
    ensures r >= a && r >= b && (r == a || r == b)
  {
    if a >= b then a else b
  }

  function MaxReal(a: real, b: real): (r: real)
    ensures r >= a && r >= b && (r == a || r == b)
  {
    if a >= b then a else b
  }

  /** Integer clamp: below lo gives lo, above hi gives hi. */
  function Clamp(v: int, lo: int, hi: int): (r: int)
    ensures lo <= hi ==> lo <= r <= hi
    ensures lo <= v <= hi ==> r == v
    ensures v < lo ==> r == lo
    ensures lo <= v && hi < v ==> r == hi
  {
    if v < lo then lo else if v > hi then hi else v
  }

  // ---------- 32-bit arithmetic of AddHealth and AddStamina ----------

  const Int32Min: int := -0x8000_0000
  const Int32Max: int := 0x7FFF_FFFF

  predicate IsInt32(x: int) {
    Int32Min <= x <= Int32Max
  }

  /** Two's-complement wrap-around of an unchecked 32-bit int sum. */
  function Wrap32(x: int): (r: int)
    ensures IsInt32(r)
    ensures IsInt32(x) ==> r == x
    ensures (r - x) % 0x1_0000_0000 == 0
  {
    (x - Int32Min) % 0x1_0000_0000 + Int32Min
  }

  /** The clamped add as the code computes it: the sum wraps before it is clamped. */
  function ClampedAddAsWritten(value: int, amount: int, max: int): int {
    Clamp(Wrap32(value + amount), 0, max)
  }

  /** The clamped add as intended: the exact sum, clamped to [0, max]. */
  function ClampedAdd(value: int, amount: int, max: int): (r: int)
    ensures 0 <= max ==> 0 <= r <= max
    // a heal never lowers a counter that is already in range
    ensures 0 <= value <= max && 0 <= amount ==> value <= r
    // a drain never raises it
    ensures 0 <= value <= max && amount <= 0 ==> r <= value
  {
    Clamp(value + amount, 0, max)
  }

  /** Whenever the sum fits in 32 bits the code computes the intended value. */
  lemma AsWrittenAgreesWithoutOverflow(value: int, amount: int, max: int)
    requires IsInt32(value + amount)
    ensures ClampedAddAsWritten(value, amount, max) == ClampedAdd(value, amount, max)
  {
  }

  /** A medikit of Int32Max points kills a player at full health 100. */
  lemma HugeHealKillsAsWritten()
    ensures ClampedAddAsWritten(100, Int32Max, 100) == 0
    ensures ClampedAdd(100, Int32Max, 100) == 100
  {
    assert Wrap32(100 + Int32Max) == 100 + Int32Max - 0x1_0000_0000;
  }

  class PlayerStats {
    var data: Option<PlayerStatsData>
    var maxHealth: int
    var health: int
    var maxStamina: int
    var stamina: int
    var regenInterval: real
    var pauseRegen: bool
    var regenTimer: real
    /** The CharacterController that Die disables and RespawnPlayer re-enables. */
    var controllerEnabled: bool

    /** The bounds OnEnable establishes and every operation keeps. */
    ghost predicate Valid()
      reads this
    {
      && 1 <= maxHealth && 0 <= health <= maxHealth
      && 1 <= maxStamina && 0 <= stamina <= maxStamina
      && regenInterval >= MinRegenInterval
    }

    /** Every field but health is as it was: the footprint of a hit or a heal. */
    twostate predicate OnlyHealthChanged()
      reads this
    {
      && data == old(data) && maxHealth == old(maxHealth)
      && maxStamina == old(maxStamina) && stamina == old(stamina)
      && regenInterval == old(regenInterval) && pauseRegen == old(pauseRegen)
      && regenTimer == old(regenTimer) && controllerEnabled == old(controllerEnabled)
    }

    /** The component with the values the inspector holds, before OnEnable runs. */
    constructor (data: Option<PlayerStatsData>, maxHealth: int, health: int,
                 maxStamina: int, stamina: int, regenInterval: real)
      ensures this.data == data
      ensures this.maxHealth == maxHealth && this.health == health
      ensures this.maxStamina == maxStamina && this.stamina == stamina
      ensures this.regenInterval == regenInterval
      ensures !pauseRegen && regenTimer == 0.0 && controllerEnabled
    {
      this.data := data;
      this.maxHealth, this.health := maxHealth, health;
      this.maxStamina, this.stamina := maxStamina, stamina;
      this.regenInterval := regenInterval;
      pauseRegen, regenTimer := false, 0.0;
      controllerEnabled := true;
    }

    /** Seeds the counters from the asset when there is one, else clamps the current values. */
    method OnEnable()
      modifies this
      ensures Valid()
      ensures data.Some? ==>
        && maxHealth == Max(1, data.value.maxHealth)
        && health == Clamp(data.value.startHealth, 0, maxHealth)
        && maxStamina == Max(1, data.value.maxStamina)
        && stamina == Clamp(data.value.startStamina, 0, maxStamina)
        && regenInterval == MaxReal(MinRegenInterval, data.value.regenInterval)
      ensures data.None? ==>
        && maxHealth == Max(1, old(maxHealth))
        && health == Clamp(old(health), 0, maxHealth)
        && maxStamina == Max(1, old(maxStamina))
        && stamina == Clamp(old(stamina), 0, maxStamina)
        && regenInterval == MaxReal(MinRegenInterval, old(regenInterval))
      ensures data == old(data) && pauseRegen == old(pauseRegen)
      ensures regenTimer == old(regenTimer) && controllerEnabled == old(controllerEnabled)
    {
      if data.Some? {
        var d := data.value;
        maxHealth := Max(1, d.maxHealth);
        health := Clamp(d.startHealth, 0, maxHealth);
        maxStamina := Max(1, d.maxStamina);
        stamina := Clamp(d.startStamina, 0, maxStamina);
        regenInterval := MaxReal(MinRegenInterval, d.regenInterval);
      } else {
        maxHealth := Max(1, maxHealth);
        health := Clamp(health, 0, maxHealth);
        maxStamina := Max(1, maxStamina);
        stamina := Clamp(stamina, 0, maxStamina);
        regenInterval := MaxReal(MinRegenInterval, regenInterval);
      }
    }

    /** The editor's Reset: the default counters. */
    method Reset()
      modifies this
      ensures Valid()
      ensures maxHealth == 100 && health == 100
      ensures maxStamina == 10 && stamina == 10 && regenInterval == 1.0
      ensures data == old(data) && pauseRegen == old(pauseRegen)
      ensures regenTimer == old(regenTimer) && controllerEnabled == old(controllerEnabled)
    {
      maxHealth, health := 100, 100;
      maxStamina, stamina := 10, 10;
      regenInterval := 1.0;
    }

    /**
     * One frame: the regen timer, the death check and the respawn key (the
     * scene-reload key is left out). A paused frame does none of them.
     */
    method Update(dt: real, respawnPressed: bool)
      modifies this
      ensures old(pauseRegen) ==>
        && health == old(health) && stamina == old(stamina)
        && regenTimer == old(regenTimer) && controllerEnabled == old(controllerEnabled)
      ensures !old(pauseRegen) ==>
        var elapsed := old(regenTimer) + dt;
        var ticked := elapsed >= regenInterval;
        && regenTimer == (if ticked then 0.0 else elapsed)
        && health == (if respawnPressed then maxHealth else old(health))
        && stamina == (if respawnPressed then maxStamina
                       else if ticked && old(stamina) < maxStamina then old(stamina) + 1
                       else old(stamina))
        && controllerEnabled == (if respawnPressed then true
                                 else if old(health) <= 0 then false
                                 else old(controllerEnabled))
      ensures data == old(data) && pauseRegen == old(pauseRegen)
      ensures maxHealth == old(maxHealth) && maxStamina == old(maxStamina)
      ensures regenInterval == old(regenInterval)
      ensures old(Valid()) ==> Valid()
    {
      if pauseRegen {
        return;
      }
      regenTimer := regenTimer + dt;
      if regenTimer >= regenInterval {
        regenTimer := 0.0;
        if stamina < maxStamina {
          stamina := stamina + 1;
        }
      }
      if health <= 0 {
        Die();
      }
      if respawnPressed {
        RespawnPlayer();
      }
    }

    /** Immobilises the player. */
    method Die()
      modifies this`controllerEnabled
      ensures !controllerEnabled
    {
      controllerEnabled := false;
    }

    /** Restores both counters and re-enables movement. */
    method RespawnPlayer()
      modifies this`health, this`stamina, this`controllerEnabled
      ensures health == maxHealth && stamina == maxStamina && controllerEnabled
    {
      health := maxHealth;
      stamina := maxStamina;
      controllerEnabled := true;
    }

    /** Pausing keeps the timer; resuming restarts it. */
    method PauseRegen(pause: bool)
      modifies this`pauseRegen, this`regenTimer
      ensures pauseRegen == pause
      ensures regenTimer == (if pause then old(regenTimer) else 0.0)
    {
      pauseRegen := pause;
      if !pause {
        regenTimer := 0.0;
      }
    }

    /** A negative hit counts as zero and health stops at zero. */
    method TakeDamage(dmg: int)
      modifies this`health
      ensures health == Max(0, old(health) - Max(0, dmg))
      ensures 0 <= health
      ensures 0 <= old(health) ==> health <= old(health)
      ensures old(Valid()) ==> Valid()
    {
      health := Max(0, health - Max(0, dmg));
    }

    /** A negative drain counts as zero and stamina stops at zero. */
    method DrainStamina(amount: int)
      modifies this`stamina
      ensures stamina == Max(0, old(stamina) - Max(0, amount))
      ensures 0 <= stamina
      ensures 0 <= old(stamina) ==> stamina <= old(stamina)
      ensures old(Valid()) ==> Valid()
    {
      stamina := Max(0, stamina - Max(0, amount));
    }

    /** Adds (or, for a negative amount, removes) health within [0, maxHealth]. */
    method AddHealth(amount: int)
      modifies this`health
      ensures health == ClampedAdd(old(health), amount, maxHealth)
      ensures old(Valid()) ==> Valid()
    {
      health := ClampedAdd(health, amount, maxHealth);
    }

    /** Adds (or removes) stamina within [0, maxStamina]. */
    method AddStamina(amount: int)
      modifies this`stamina
      ensures stamina == ClampedAdd(old(stamina), amount, maxStamina)
      ensures old(Valid()) ==> Valid()
    {
      stamina := ClampedAdd(stamina, amount, maxStamina);
    }
  }
}
