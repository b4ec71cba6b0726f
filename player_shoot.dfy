/**
 * The player's semi-automatic weapon: a magazine, a stock of spare magazines
 * and a fire-rate gate. The raycast that picks the target is the engine's.
 */
module Shooting {
  import Stats

  const DefaultDamage: real := 20.0
  const DefaultRange: real := 25.0
  const DefaultFireRate: real := 2.0
  const DefaultMagSize: int := 15
  /** Spare magazines granted by Reset and ResetAmmo. */
  const SpareMagazines: int := 2
  /** The fire rate used when the configured one is smaller. */
  const MinFireRate: real := 0.01

  /** Seconds between two shots. */
  function ShotInterval(fireRate: real): (r: real)
    ensures 0.0 < r <= 100.0
    ensures fireRate >= MinFireRate ==> r * fireRate == 1.0
    ensures fireRate <= MinFireRate ==> r == 100.0
  {
    1.0 / Stats.MaxReal(MinFireRate, fireRate)
  }

  /** A reload happens only with room in the magazine and a spare one left. */
  predicate CanReload(bulletsInMag: int, remainingMags: int, magSize: int) {
    bulletsInMag < magSize && remainingMags > 0
  }

  class PlayerShoot {
    var damage: real
    var range: real
    var fireRate: real
    var magSize: int
    var bulletsInMag: int
    var remainingMags: int
    /** The earliest time of the next shot. */
    var nextAllowed: real
    /** Whether the camera reference is assigned; without it the weapon is inert. */
    const hasCam: bool

    /** Magazine counters that no operation drives negative. */
    ghost predicate Valid()
      reads this
    {
      0 <= magSize && 0 <= bulletsInMag
    }

    /** Every field but the spare-magazine count is as it was: the footprint of a magazine pick-up. */
    twostate predicate OnlySparesChanged()
      reads this
    {
      && damage == old(damage) && range == old(range) && fireRate == old(fireRate)
      && magSize == old(magSize) && bulletsInMag == old(bulletsInMag) && nextAllowed == old(nextAllowed)
    }

    /** The component with the values the inspector holds. */
    constructor (hasCam: bool, damage: real, range: real, fireRate: real,
                 magSize: int, bulletsInMag: int, remainingMags: int)
      ensures this.hasCam == hasCam && this.damage == damage && this.range == range
      ensures this.fireRate == fireRate && this.magSize == magSize
      ensures this.bulletsInMag == bulletsInMag && this.remainingMags == remainingMags
      ensures nextAllowed == 0.0
    {
      this.hasCam := hasCam;
      this.damage, this.range, this.fireRate := damage, range, fireRate;
      this.magSize, this.bulletsInMag, this.remainingMags := magSize, bulletsInMag, remainingMags;
      nextAllowed := 0.0;
    }

    /** The editor's Reset: the default weapon with a full magazine and two spares. */
    method Reset()
      modifies this
      ensures Valid()
      ensures fireRate == DefaultFireRate && range == DefaultRange && damage == DefaultDamage
      ensures magSize == DefaultMagSize && bulletsInMag == magSize
      ensures remainingMags == SpareMagazines && nextAllowed == old(nextAllowed)
    {
      fireRate := DefaultFireRate;
      range := DefaultRange;
      damage := DefaultDamage;
      magSize := DefaultMagSize;
      bulletsInMag := magSize;
      remainingMags := SpareMagazines;
    }

    /**
     * One frame: the reload key first, then the fire button behind the
     * fire-rate gate. fired says whether the shot's raycast was cast.
     */
    method Update(now: real, reloadPressed: bool, firePressed: bool) returns (fired: bool)
      modifies this`bulletsInMag, this`remainingMags, this`nextAllowed
      ensures !hasCam ==> !fired && bulletsInMag == old(bulletsInMag)
      ensures !hasCam ==> remainingMags == old(remainingMags) && nextAllowed == old(nextAllowed)
      ensures hasCam ==>
        var reload := reloadPressed && CanReload(old(bulletsInMag), old(remainingMags), magSize);
        var loaded := if reload then magSize else old(bulletsInMag);
        && remainingMags == (if reload then old(remainingMags) - 1 else old(remainingMags))
        && fired == (firePressed && now >= old(nextAllowed) && loaded > 0)
        && bulletsInMag == (if fired then loaded - 1 else loaded)
        && nextAllowed == (if fired then now + ShotInterval(fireRate) else old(nextAllowed))
      ensures fired ==> nextAllowed > now
      ensures old(Valid()) ==> Valid()
    {
      fired := false;
      if !hasCam {
        return;
      }
      if reloadPressed {
        TryReload();
      }
      if firePressed && now >= nextAllowed {
        if bulletsInMag <= 0 {
          return;
        }
        nextAllowed := now + ShotInterval(fireRate);
        fired := true;  // Shoot: the raycast and the damage it deals are the engine's
        bulletsInMag := bulletsInMag - 1;
      }
    }

    /** Swaps the current magazine for a full spare one, discarding what was left in it. */
    method TryReload()
      modifies this`bulletsInMag, this`remainingMags
      ensures !CanReload(old(bulletsInMag), old(remainingMags), magSize) ==>
        bulletsInMag == old(bulletsInMag) && remainingMags == old(remainingMags)
      ensures CanReload(old(bulletsInMag), old(remainingMags), magSize) ==>
        bulletsInMag == magSize && remainingMags == old(remainingMags) - 1
      // the rounds left in the old magazine are lost
      ensures CanReload(old(bulletsInMag), old(remainingMags), magSize) ==>
        bulletsInMag + remainingMags * magSize
          == old(bulletsInMag) + old(remainingMags) * magSize - old(bulletsInMag)
      ensures old(Valid()) ==> Valid()
    {
      if bulletsInMag >= magSize {
        return;
      }
      if remainingMags <= 0 {
        return;
      }
      remainingMags := remainingMags - 1;
      bulletsInMag := magSize;
    }

    /** A full magazine and two spares, as after a respawn. */
    method ResetAmmo()
      modifies this`bulletsInMag, this`remainingMags
      ensures bulletsInMag == magSize && remainingMags == SpareMagazines
      ensures old(Valid()) ==> Valid()
    {
      bulletsInMag := magSize;
      remainingMags := SpareMagazines;
    }
  }
}
