/**
 * AWeapon: an item with an ammo count, a falling flag raised when it is thrown and lowered by
 * the throw timer's callback, and the names its reload animation uses. AWeapon derives from
 * AItem; here a Weapon owns its Item part (`item`) and calls into it where AWeapon calls its
 * inherited members.
 */
module Weapons {
  import opened Engine
  import opened ItemTypes
  import opened ItemConfig
  import opened Items

  /** Signed 32-bit integer, the type of the ammo fields. */
  newtype int32 = x: int | -0x8000_0000 <= x < 0x8000_0000

  /** The socket on the weapon mesh from which shots leave. */
  const BarrelSocketName: string := "BarrelSocket"

  /** The seconds the weapon stays falling after a throw. */
  const DefaultThrowWeaponTime: real := 0.7

  /**
   * The ammo count DecrementAmmo leaves behind: one fewer round, but never below zero
   * (a count of one or less, negative counts included, becomes zero).
   */
  function DecrementedAmmo(a: int32): (r: int32)
    ensures 0 <= r
    ensures a >= 1 ==> r as int == a as int - 1
    ensures a <= 1 ==> r == 0
  {
    if a as int - 1 <= 0 then 0 else a - 1
  }

  /** The ammo count after n calls of DecrementAmmo. */
  function AmmoAfterShots(a: int32, n: nat): int32
  {
    if n == 0 then a else DecrementedAmmo(AmmoAfterShots(a, n - 1))
  }

  /** n shots from a non-negative count leave max(a - n, 0): the count saturates at zero. */
  lemma {:induction false} AmmoAfterShotsSaturates(a: int32, n: nat)
    requires a >= 0
    ensures AmmoAfterShots(a, n) as int == if a as int >= n then a as int - n else 0
  {
    if n > 0 {
      AmmoAfterShotsSaturates(a, n - 1);
    }
  }

  /** DecrementAmmo on an empty weapon leaves it empty, however often it is called. */
  lemma EmptyStaysEmpty(n: nat)
    ensures AmmoAfterShots(0, n) == 0
  {
    AmmoAfterShotsSaturates(0, n);
  }

  /**
   * TryGetBarrelSocketTransform for a weapon whose item mesh is `mesh` (None for a null mesh),
   * given as its sockets by name: the barrel socket's transform when both the mesh and the
   * socket exist, None otherwise, in which case the caller's out-parameter stays as it was.
   */
  function TryGetBarrelSocketTransform<T>(mesh: Option<map<string, T>>): (r: Option<T>)
    ensures r.Some? <==> mesh.Some? && BarrelSocketName in mesh.value
    ensures r.Some? ==> r.value == mesh.value[BarrelSocketName]
  {
    if mesh.Some? && BarrelSocketName in mesh.value then Some(mesh.value[BarrelSocketName]) else None
  }

  /** The out-parameter after `out := ...; ok := TryGet...(out)`: written only on success. */
  function BarrelSocketOut<T>(mesh: Option<map<string, T>>, prior: T): (out: T)
    ensures TryGetBarrelSocketTransform(mesh).None? ==> out == prior
    ensures TryGetBarrelSocketTransform(mesh).Some? ==> out == mesh.value[BarrelSocketName]
  {
    match TryGetBarrelSocketTransform(mesh)
    case Some(t) => t
    case None => prior
  }

  class Weapon {
    const item: Item
    const throwWeaponTime: real
    var falling: bool
    var ammo: int32
    var magazineCapacity: int32
    var reloadMontageSectionName: string
    var movingClip: bool
    var clipBoneName: string

    /** A new weapon: not falling, no ammo, and the defaults of a new item. */
    constructor (created: Components)
      ensures fresh(item) && item.ammoMesh == None
      ensures item.itemName == "Unnamed" && item.itemCount == 0 && item.itemRarity == Common
      ensures item.itemState == Pickup && item.itemType == TypeMax && item.activeStars == []
      ensures !item.interping && item.character == null && item.interpLocationIndex == 0
      ensures item.canChangeCustomDepth && item.slotIndex == 0 && !item.characterInventoryFull
      ensures item.mesh == created.mesh && item.areaSphere == created.areaSphere
      ensures item.collisionBox == created.collisionBox.(responses := Only(Visibility, Block))
      ensures item.pickupWidgetVisible == created.pickupWidgetVisible
      ensures !falling && ammo == 0 && throwWeaponTime == DefaultThrowWeaponTime
      ensures !IsFalling()
    {
      item := new Item(created, None);
      throwWeaponTime := DefaultThrowWeaponTime;
      falling := false;
      ammo := 0;
    }

    /** The item is falling and the throw has not yet been stopped. */
    predicate IsFalling()
      reads this, item
    {
      item.GetItemState() == Falling && falling
    }

    function GetAmmo(): int32
      reads this
    {
      ammo
    }

    function GetMagazineCapacity(): int32
      reads this
    {
      magazineCapacity
    }

    function GetReloadMontageSectionName(): string
      reads this
    {
      reloadMontageSectionName
    }

    function GetClipBoneName(): string
      reads this
    {
      clipBoneName
    }

    method SetReloadMontageSectionName(v: string)
      modifies this`reloadMontageSectionName
      ensures GetReloadMontageSectionName() == v
    {
      reloadMontageSectionName := v;
    }

    method SetClipBoneName(v: string)
      modifies this`clipBoneName
      ensures GetClipBoneName() == v
    {
      clipBoneName := v;
    }

    method SetMovingClip(v: bool)
      modifies this`movingClip
      ensures movingClip == v
    {
      movingClip := v;
    }

    /** Fires one round's worth: the count drops by one and saturates at zero. */
    method DecrementAmmo()
      modifies this`ammo
      ensures GetAmmo() == DecrementedAmmo(old(GetAmmo()))
    {
      if ammo as int - 1 <= 0 {
        ammo := 0;
      } else {
        ammo := ammo - 1;
      }
    }

    /**
     * Throws the weapon: raises the falling flag and arms the timer whose callback is
     * StopFalling. It does not change the item state; the caller puts it in Falling.
     */
    method ThrowWeapon()
      modifies this`falling
      ensures falling
      ensures IsFalling() <==> item.GetItemState() == Falling
    {
      falling := true;
    }

    /** The throw timer's callback: the weapon stops falling and lies ready for pickup. */
    method StopFalling()
      modifies this`falling
      modifies item`itemState, item`mesh, item`areaSphere, item`collisionBox, item`pickupWidgetVisible, item`ammoMesh
      ensures !falling && item.GetItemState() == Pickup && !IsFalling()
      ensures item.Configuration() == ConfigurationFor(Pickup, old(item.Configuration()))
      ensures item.ammoMesh == AmmoMeshAfter(Pickup, old(item.ammoMesh))
    {
      falling := false;
      item.SetItemState(Pickup);
    }

    /** Whether this frame's Tick applies the upright correction. */
    method Tick() returns (uprighted: bool)
      ensures uprighted <==> IsFalling()
      ensures uprighted ==> item.GetItemState() == Falling && falling
    {
      uprighted := false;
      if IsFalling() {
        uprighted := true;
      }
    }
  }

  /**
   * A throw of a weapon already set to Falling: it is falling until the timer's callback,
   * and afterwards it is not, lies in Pickup, and Tick no longer corrects it.
   */
  method ThrowAndLand(w: Weapon) returns (whileFalling: bool, afterLanding: bool)
    requires w.item.itemState == Falling
    modifies w, w.item
    ensures whileFalling && !afterLanding
    ensures w.item.itemState == Pickup && !w.falling
  {
    w.ThrowWeapon();
    whileFalling := w.Tick();
    w.StopFalling();
    afterLanding := w.Tick();
  }
}
