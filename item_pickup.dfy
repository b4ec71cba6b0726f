/**
 * A pick-up that applies a medikit or a magazine to the player who walks
 * into it and then removes itself from the scene.
 */
module Pickups {
  import opened Options
  import Stats
  import Shooting

  datatype ItemType = Medikit | Magazine

  /** The item asset: its kind and the amount for each kind. */
  datatype ItemData = ItemData(itemType: ItemType, healAmount: int, magsToAdd: int)

  /** How one trigger contact ended. */
  datatype PickupOutcome =
    | NotPlayer          // the collider is not tagged Player
    | MissingComponent   // the player lacks the stats or the weapon component
    | NoData             // no asset assigned: reading its kind throws, nothing is applied
    | Applied(kind: ItemType)

  /** The outcome of a contact, decided by the guards in the order the code checks them. */
  function Classify(taggedPlayer: bool, hasStats: bool, hasShoot: bool, data: Option<ItemData>): (o: PickupOutcome)
    ensures o.Applied? <==> taggedPlayer && hasStats && hasShoot && data.Some?
    ensures o.Applied? ==> o.kind == data.value.itemType
    ensures o == NotPlayer <==> !taggedPlayer
    ensures o == MissingComponent <==> taggedPlayer && !(hasStats && hasShoot)
  {
    if !taggedPlayer then NotPlayer
    else if !hasStats || !hasShoot then MissingComponent
    else if data.None? then NoData
    else Applied(data.value.itemType)
  }

  class ItemPickup {
    const data: Option<ItemData>
    /** Set once the pick-up has destroyed itself. */
    var destroyed: bool

    constructor (data: Option<ItemData>)
      ensures this.data == data && !destroyed
    {
      this.data := data;
      destroyed := false;
    }

    /** A collider entered the trigger; stats and shoot are the components found on it. */
    method OnTriggerEnter(taggedPlayer: bool, stats: Stats.PlayerStats?, shoot: Shooting.PlayerShoot?)
      returns (outcome: PickupOutcome)
      modifies this, stats, shoot
      ensures outcome == Classify(taggedPlayer, stats != null, shoot != null, data)
      // the item is consumed exactly when its effect was applied
      ensures destroyed == (old(destroyed) || outcome.Applied?)
      ensures !outcome.Applied? && stats != null ==> unchanged(stats)
      ensures !outcome.Applied? && shoot != null ==> unchanged(shoot)
      ensures outcome == Applied(Medikit) ==>
        && stats.health == Stats.ClampedAdd(old(stats.health), data.value.healAmount, stats.maxHealth)
        && stats.OnlyHealthChanged()
        && unchanged(shoot)
      ensures outcome == Applied(Magazine) ==>
        && shoot.remainingMags == old(shoot.remainingMags) + data.value.magsToAdd
        && shoot.OnlySparesChanged()
        && unchanged(stats)
      // neither component's invariant is lost
      ensures stats != null && old(stats.Valid()) ==> stats.Valid()
      ensures shoot != null && old(shoot.Valid()) ==> shoot.Valid()
    {
      if !taggedPlayer {
        return NotPlayer;
      }
      if stats == null || shoot == null {
        return MissingComponent;
      }
      if data.None? {
        return NoData;
      }
      match data.value.itemType {
        case Medikit =>
          stats.AddHealth(data.value.healAmount);
        case Magazine =>
          shoot.remainingMags := shoot.remainingMags + data.value.magsToAdd;
      }
      outcome := Applied(data.value.itemType);
      destroyed := true;
    }
  }
}
