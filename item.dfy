/**
 * AItem: the pickup/equip life cycle of an item actor. Its state selects the configuration of
 * its components; picking it up runs an interpolation that reserves one of the character's
 * interp slots and freezes the custom-depth outline until the interpolation finishes.
 *
 * The AAmmo subclass overrides SetItemProperties to configure its own static mesh as well. That
 * virtual call is modelled here: `ammoMesh` holds the AmmoMesh component of an AAmmo and is
 * None for every other item, and SetItemProperties runs the override exactly when it is present.
 */
module Items {
  import opened Engine
  import opened ItemTypes
  import opened ItemConfig
  import AmmoConfig
  import opened Characters

  /** The actor that begins or ends an overlap with an item's area sphere. */
  datatype Actor = CharacterActor(character: ShooterCharacter) | OtherActor

  /** Cast<AShooterCharacter>(OtherActor), where None stands for a null actor pointer. */
  function AsCharacter(a: Option<Actor>): (c: ShooterCharacter?)
    ensures c != null <==> a.Some? && a.value.CharacterActor?
    ensures c != null ==> c == a.value.character
  {
    if a.Some? && a.value.CharacterActor? then a.value.character else null
  }

  /** The objects an overlap callback may change: the overlapping character, if it is one. */
  function OverlapFrame(a: Option<Actor>): set<object>
  {
    if AsCharacter(a) != null then {AsCharacter(a)} else {}
  }

  /** The ammo mesh after SetItemProperties(s): configured by the AAmmo override when present. */
  function AmmoMeshAfter(s: ItemState, am: Option<Primitive>): (r: Option<Primitive>)
    ensures r.Some? <==> am.Some?
    ensures am.Some? ==> r.value == AmmoConfig.AmmoMeshFor(s, am.value)
  {
    if am.Some? then Some(AmmoConfig.AmmoMeshFor(s, am.value)) else None
  }

  /**
   * The early return of InterpolateItemLoad as written: it carries on, and goes on to use both
   * the Z curve and the character, when the item is interping and EITHER of them is set.
   */
  function InterpolationProceedsAsWritten(interping: bool, hasCharacter: bool, hasZCurve: bool): (go: bool)
    ensures go <==> interping && (hasCharacter || hasZCurve)
  {
    if !interping then false
    else if !(hasCharacter || hasZCurve) then false
    else true
  }

  /** The guard as intended: carry on only when both objects used afterwards are set. */
  function InterpolationProceeds(interping: bool, hasCharacter: bool, hasZCurve: bool): (go: bool)
    ensures go <==> interping && hasCharacter && hasZCurve
  {
    if !interping then false
    else if !(hasCharacter && hasZCurve) then false
    else true
  }

  /** The written guard lets an interping item with a character but no Z curve through. */
  lemma InterpolationGuardAdmitsMissingCurve()
    ensures InterpolationProceedsAsWritten(true, true, false)
    ensures !InterpolationProceeds(true, true, false)
  {
  }

  /**
   * As an expression, the written guard also admits a Z curve without a character. No item
   * reaches that input: StartItemCurve sets interping only together with a non-null character,
   * and nothing else sets interping or clears the character.
   */
  lemma InterpolationGuardAdmitsMissingCharacter()
    ensures InterpolationProceedsAsWritten(true, false, true)
    ensures !InterpolationProceeds(true, false, true)
  {
  }

  /** Wherever the intended guard carries on, the written one does too, and both pointers are set. */
  lemma InterpolationGuardRefines(interping: bool, hasCharacter: bool, hasZCurve: bool)
    ensures InterpolationProceeds(interping, hasCharacter, hasZCurve) ==>
      InterpolationProceedsAsWritten(interping, hasCharacter, hasZCurve) && hasCharacter && hasZCurve
  {
  }

  class Item {
    var itemName: string
    var itemCount: int
    var itemRarity: ItemRarity
    var activeStars: seq<bool>
    var itemState: ItemState
    var itemType: ItemType
    var interping: bool
    var character: ShooterCharacter?
    var interpLocationIndex: int
    var canChangeCustomDepth: bool
    var slotIndex: int
    var characterInventoryFull: bool

    var mesh: Primitive
    var areaSphere: Primitive
    var collisionBox: Primitive
    var pickupWidgetVisible: bool
    var ammoMesh: Option<Primitive>

    /**
     * The defaults of a new item. `created` is the components as the engine creates them and
     * `createdAmmoMesh` the AmmoMesh an AAmmo creates (None for any other item); of these the
     * constructor itself only sets the collision box's channel responses.
     */
    constructor (created: Components, createdAmmoMesh: Option<Primitive>)
      ensures itemName == "Unnamed" && itemCount == 0 && itemRarity == Common
      ensures itemState == Pickup && itemType == TypeMax && activeStars == []
      ensures !interping && character == null && interpLocationIndex == 0
      ensures canChangeCustomDepth && slotIndex == 0 && !characterInventoryFull
      ensures mesh == created.mesh && areaSphere == created.areaSphere
      ensures collisionBox == created.collisionBox.(responses := Only(Visibility, Block))
      ensures pickupWidgetVisible == created.pickupWidgetVisible
      ensures ammoMesh == createdAmmoMesh
    {
      itemName := "Unnamed";
      itemCount := 0;
      itemRarity := Common;
      itemState := Pickup;
      interping := false;
      itemType := TypeMax;
      interpLocationIndex := 0;
      canChangeCustomDepth := true;
      slotIndex := 0;
      characterInventoryFull := false;
      activeStars := [];
      character := null;
      mesh := created.mesh;
      var box := created.collisionBox.(responses := AllChannels(Ignore));
      box := box.(responses := box.responses.With(Visibility, Block));
      collisionBox := box;
      pickupWidgetVisible := created.pickupWidgetVisible;
      areaSphere := created.areaSphere;
      ammoMesh := createdAmmoMesh;
    }

    /** The base components as one value. */
    function Configuration(): Components
      reads this
    {
      Components(mesh, areaSphere, collisionBox, pickupWidgetVisible)
    }

    function GetItemState(): ItemState
      reads this
    {
      itemState
    }

    function GetItemCount(): int
      reads this
    {
      itemCount
    }

    /** Appends MaxRarityScore unlit stars, then lights as many leading stars as the rarity earns. */
    method SetActiveStars()
      modifies this`activeStars
      ensures activeStars == WithActiveStars(old(activeStars), itemRarity)
    {
      var i := 0;
      while i < MaxRarityScore
        invariant 0 <= i <= MaxRarityScore
        invariant activeStars == old(activeStars) + Unlit(i)
      {
        activeStars := activeStars + [false];
        i := i + 1;
      }
      ghost var grown := activeStars;
      match itemRarity {
        case Damaged =>
          activeStars := activeStars[0 := true];
        case Common =>
          activeStars := activeStars[0 := true];
          activeStars := activeStars[1 := true];
        case Uncommon =>
          activeStars := activeStars[0 := true];
          activeStars := activeStars[1 := true];
          activeStars := activeStars[2 := true];
        case Rare =>
          activeStars := activeStars[0 := true];
          activeStars := activeStars[1 := true];
          activeStars := activeStars[2 := true];
          activeStars := activeStars[3 := true];
        case Legendary =>
          activeStars := activeStars[0 := true];
          activeStars := activeStars[1 := true];
          activeStars := activeStars[2 := true];
          activeStars := activeStars[3 := true];
          activeStars := activeStars[4 := true];
        case RarityMax =>
      }
      ghost var lit := Light(grown, ActiveStarCount(itemRarity));
      assert forall k :: 0 <= k < |activeStars| ==> activeStars[k] == lit[k];
    }

    /** Stores the new state, then configures the components for it. */
    method SetItemState(s: ItemState)
      modifies this`itemState, this`mesh, this`areaSphere, this`collisionBox, this`pickupWidgetVisible, this`ammoMesh
      ensures itemState == s && GetItemState() == s
      ensures Configuration() == ConfigurationFor(s, old(Configuration()))
      ensures ammoMesh == AmmoMeshAfter(s, old(ammoMesh))
    {
      itemState := s;
      SetItemProperties(s);
    }

    /** The virtual SetItemProperties: AItem's configuration, then the AAmmo override if this is ammo. */
    method SetItemProperties(s: ItemState)
      modifies this`mesh, this`areaSphere, this`collisionBox, this`pickupWidgetVisible, this`ammoMesh
      ensures Configuration() == ConfigurationFor(s, old(Configuration()))
      ensures ammoMesh == AmmoMeshAfter(s, old(ammoMesh))
    {
      SetBaseItemProperties(s);
      if ammoMesh.Some? {
        SetAmmoMeshProperties(s);
      }
    }

    /** AItem::SetItemProperties: the engine calls of each case, in order. */
    method SetBaseItemProperties(s: ItemState)
      modifies this`mesh, this`areaSphere, this`collisionBox, this`pickupWidgetVisible
      ensures Configuration() == ConfigurationFor(s, old(Configuration()))
    {
      match s {
        case Pickup =>
          mesh := mesh.(simulatePhysics := false);
          mesh := mesh.(visible := true);
          mesh := mesh.(responses := AllChannels(Ignore));
          mesh := mesh.(collision := NoCollision);
          mesh := mesh.(gravity := false);

          areaSphere := areaSphere.(responses := AllChannels(Overlap));
          areaSphere := areaSphere.(collision := QueryOnly);

          collisionBox := collisionBox.(responses := AllChannels(Ignore));
          collisionBox := collisionBox.(responses := collisionBox.responses.With(Visibility, Block));
          collisionBox := collisionBox.(collision := QueryAndPhysics);

        case Equipped =>
          mesh := mesh.(simulatePhysics := false);
          mesh := mesh.(visible := true);
          mesh := mesh.(responses := AllChannels(Ignore));
          mesh := mesh.(collision := NoCollision);
          mesh := mesh.(gravity := false);

          areaSphere := areaSphere.(responses := AllChannels(Ignore));
          areaSphere := areaSphere.(collision := NoCollision);

          collisionBox := collisionBox.(responses := AllChannels(Ignore));
          collisionBox := collisionBox.(collision := NoCollision);

          pickupWidgetVisible := false;

        case Falling =>
          mesh := mesh.(simulatePhysics := true);
          mesh := mesh.(collision := QueryAndPhysics);
          mesh := mesh.(responses := AllChannels(Ignore));
          mesh := mesh.(responses := mesh.responses.With(WorldStatic, Block));
          mesh := mesh.(gravity := true);
          mesh := mesh.(visible := true);

          areaSphere := areaSphere.(responses := AllChannels(Ignore));
          areaSphere := areaSphere.(collision := NoCollision);

          collisionBox := collisionBox.(responses := AllChannels(Ignore));
          collisionBox := collisionBox.(collision := NoCollision);

        case EquipInterpolating =>
          pickupWidgetVisible := false;

          mesh := mesh.(simulatePhysics := false);
          mesh := mesh.(visible := true);
          mesh := mesh.(responses := AllChannels(Ignore));
          mesh := mesh.(collision := NoCollision);
          mesh := mesh.(gravity := false);

          areaSphere := areaSphere.(responses := AllChannels(Ignore));
          areaSphere := areaSphere.(collision := NoCollision);

          collisionBox := collisionBox.(responses := AllChannels(Ignore));
          collisionBox := collisionBox.(collision := NoCollision);

        case PickedUp =>
          pickupWidgetVisible := false;

          mesh := mesh.(simulatePhysics := false);
          mesh := mesh.(visible := false);
          mesh := mesh.(responses := AllChannels(Ignore));
          mesh := mesh.(collision := NoCollision);
          mesh := mesh.(gravity := false);

          areaSphere := areaSphere.(responses := AllChannels(Ignore));
          areaSphere := areaSphere.(collision := NoCollision);

          collisionBox := collisionBox.(responses := AllChannels(Ignore));
          collisionBox := collisionBox.(collision := NoCollision);

        case StateMax =>
      }
    }

    /** The switch of AAmmo::SetItemProperties on the ammo mesh; PickedUp leaves it alone. */
    method SetAmmoMeshProperties(s: ItemState)
      requires ammoMesh.Some?
      modifies this`ammoMesh
      ensures ammoMesh == Some(AmmoConfig.AmmoMeshFor(s, old(ammoMesh).value))
    {
      var m := ammoMesh.value;
      match s {
        case Pickup =>
          m := m.(simulatePhysics := false);
          m := m.(visible := true);
          m := m.(responses := AllChannels(Ignore));
          m := m.(collision := NoCollision);
          m := m.(gravity := false);

        case Equipped =>
          m := m.(simulatePhysics := false);
          m := m.(visible := true);
          m := m.(responses := AllChannels(Ignore));
          m := m.(collision := NoCollision);
          m := m.(gravity := false);

        case Falling =>
          m := m.(simulatePhysics := true);
          m := m.(collision := QueryAndPhysics);
          m := m.(responses := AllChannels(Ignore));
          m := m.(responses := m.responses.With(WorldStatic, Block));
          m := m.(gravity := true);

        case EquipInterpolating =>
          m := m.(simulatePhysics := false);
          m := m.(visible := true);
          m := m.(responses := AllChannels(Ignore));
          m := m.(collision := NoCollision);
          m := m.(gravity := false);

        case PickedUp =>
        case StateMax =>
      }
      ammoMesh := Some(m);
    }

    /**
     * Begins the pickup interpolation towards `origin`, reserving `slot` (the index the
     * character's GetInterpLocationIndex returns). A null character changes nothing.
     */
    method StartItemCurve(origin: ShooterCharacter?, slot: int, forcePlaySound: bool)
      modifies this`character, this`interpLocationIndex, this`interping, this`canChangeCustomDepth
      modifies this`itemState, this`mesh, this`areaSphere, this`collisionBox, this`pickupWidgetVisible, this`ammoMesh
      modifies origin
      ensures origin == null ==> unchanged(this)
      ensures origin != null ==> character == origin && interpLocationIndex == slot
      ensures origin != null ==> interping && !canChangeCustomDepth && itemState == EquipInterpolating
      ensures origin != null ==> Configuration() == ConfigurationFor(EquipInterpolating, old(Configuration()))
      ensures origin != null ==> ammoMesh == AmmoMeshAfter(EquipInterpolating, old(ammoMesh))
      ensures origin != null ==> origin.SlotCount(slot) == old(origin.SlotCount(slot)) + 1
      ensures origin != null ==> forall j :: j != slot ==> origin.SlotCount(j) == old(origin.SlotCount(j))
      ensures origin != null ==> origin.overlappedItemCount == old(origin.overlappedItemCount)
    {
      if origin == null {
        return;
      }
      character := origin;
      interpLocationIndex := slot;
      character.IncrementInterpLocationItemCount(interpLocationIndex, 1);
      interping := true;
      SetItemState(EquipInterpolating);
      canChangeCustomDepth := false;
    }

    /**
     * The character's LoadPickupItem(this). Its body is not part of this model: it may set the
     * item state and reconfigure the components, so they are left unconstrained here. It cannot
     * change the item's class, so an ammo item keeps an ammo mesh and no other item gains one.
     */
    method LoadedByCharacter()
      modifies this`itemState, this`mesh, this`areaSphere, this`collisionBox, this`pickupWidgetVisible, this`ammoMesh
      ensures ammoMesh.Some? == old(ammoMesh).Some?
    {
      itemState := *;
      mesh := *;
      areaSphere := *;
      collisionBox := *;
      pickupWidgetVisible := *;
      if ammoMesh.Some? {
        var m: Primitive := *;
        ammoMesh := Some(m);
      }
    }

    /**
     * The interp timer's callback: ends the interpolation, releases the reserved slot of the
     * character and hands the item to it, re-enables custom-depth changes and then switches
     * custom depth off. Without a character only the interpolation and the outline change.
     */
    method ItemInterpTimerFinished()
      modifies this`interping, this`canChangeCustomDepth, character
      modifies this`itemState, this`mesh, this`areaSphere, this`collisionBox, this`pickupWidgetVisible, this`ammoMesh
      ensures !interping && canChangeCustomDepth && !mesh.renderCustomDepth
      ensures ammoMesh.Some? == old(ammoMesh).Some?
      ensures character != null ==> character.SlotCount(interpLocationIndex) == old(character.SlotCount(interpLocationIndex)) - 1
      ensures character != null ==> forall j :: j != interpLocationIndex ==> character.SlotCount(j) == old(character.SlotCount(j))
      ensures character != null ==> character.overlappedItemCount == old(character.overlappedItemCount)
      ensures character == null ==> mesh == old(mesh).(renderCustomDepth := false)
      ensures character == null ==> itemState == old(itemState) && ammoMesh == old(ammoMesh)
      ensures character == null ==> areaSphere == old(areaSphere) && collisionBox == old(collisionBox)
      ensures character == null ==> pickupWidgetVisible == old(pickupWidgetVisible)
    {
      interping := false;
      if character != null {
        character.IncrementInterpLocationItemCount(interpLocationIndex, -1);
        LoadedByCharacter();
      }
      canChangeCustomDepth := true;
      DisableCustomDepth();
    }

    /** Turns the custom-depth outline on, unless changes to it are frozen. */
    method EnableCustomDepth()
      modifies this`mesh
      ensures mesh == if canChangeCustomDepth then old(mesh).(renderCustomDepth := true) else old(mesh)
    {
      if canChangeCustomDepth {
        mesh := mesh.(renderCustomDepth := true);
      }
    }

    /** Turns the custom-depth outline off, unless changes to it are frozen. */
    method DisableCustomDepth()
      modifies this`mesh
      ensures mesh == if canChangeCustomDepth then old(mesh).(renderCustomDepth := false) else old(mesh)
    {
      if canChangeCustomDepth {
        mesh := mesh.(renderCustomDepth := false);
      }
    }

    /** Whether StartPulseTimer arms the pulse timer: only an item lying in Pickup pulses. */
    method StartPulseTimer() returns (armed: bool)
      ensures armed <==> GetItemState() == Pickup
    {
      armed := itemState == Pickup;
    }

    /** A shooter character entering the area sphere counts one more overlapped item. */
    method OnSphereOverlap(other: Option<Actor>)
      modifies OverlapFrame(other)
      ensures AsCharacter(other) != null ==>
        AsCharacter(other).overlappedItemCount == old(AsCharacter(other).overlappedItemCount) + 1
      ensures AsCharacter(other) != null ==>
        AsCharacter(other).interpSlotCounts == old(AsCharacter(other).interpSlotCounts)
    {
      if other.None? {
        return;
      }
      var shooter := AsCharacter(other);
      if shooter != null {
        shooter.AddOverlappedItemCount(1);
      }
    }

    /** A shooter character leaving the area sphere counts one overlapped item fewer. */
    method OnSphereEndOverlap(other: Option<Actor>)
      modifies OverlapFrame(other)
      ensures AsCharacter(other) != null ==>
        AsCharacter(other).overlappedItemCount == old(AsCharacter(other).overlappedItemCount) - 1
      ensures AsCharacter(other) != null ==>
        AsCharacter(other).interpSlotCounts == old(AsCharacter(other).interpSlotCounts)
    {
      if other.None? {
        return;
      }
      var shooter := AsCharacter(other);
      if shooter != null {
        shooter.AddOverlappedItemCount(-1);
      }
    }

    /**
     * BeginPlay's state part: hide the widget, fill the stars, configure for the current state,
     * switch custom depth off; returns whether the pulse timer was armed.
     */
    method BeginPlay() returns (pulseArmed: bool)
      modifies this`activeStars, this`mesh, this`areaSphere, this`collisionBox, this`pickupWidgetVisible, this`ammoMesh
      ensures activeStars == WithActiveStars(old(activeStars), itemRarity)
      ensures Configuration() == ConfigurationFor(itemState, old(Configuration()).(pickupWidgetVisible := false))
                                   .(mesh := MeshFor(itemState, old(mesh)).(renderCustomDepth := if canChangeCustomDepth then false else old(mesh).renderCustomDepth))
      ensures ammoMesh == AmmoMeshAfter(itemState, old(ammoMesh))
      ensures pulseArmed <==> itemState == Pickup
    {
      pickupWidgetVisible := false;
      SetActiveStars();
      SetItemProperties(itemState);
      DisableCustomDepth();
      pulseArmed := StartPulseTimer();
    }
  }

  /**
   * A whole pickup interpolation, StartItemCurve followed by its timer's callback: every interp
   * slot of the character ends with the count it started with, and the outline is off and
   * changeable again.
   */
  method PickupInterpolation(item: Item, origin: ShooterCharacter, slot: int)
    modifies item, origin
    ensures forall j :: origin.SlotCount(j) == old(origin.SlotCount(j))
    ensures origin.overlappedItemCount == old(origin.overlappedItemCount)
    ensures !item.interping && item.canChangeCustomDepth && !item.mesh.renderCustomDepth
    ensures item.character == origin && item.interpLocationIndex == slot
    ensures item.ammoMesh.Some? == old(item.ammoMesh).Some?
  {
    item.StartItemCurve(origin, slot, false);
    item.ItemInterpTimerFinished();
  }

  /** While an item interpolates, EnableCustomDepth cannot turn its outline on. */
  method OutlineFrozenWhileInterping(item: Item, origin: ShooterCharacter, slot: int)
    modifies item, origin
    ensures item.interping && item.mesh.renderCustomDepth == old(item.mesh.renderCustomDepth)
  {
    item.StartItemCurve(origin, slot, false);
    item.EnableCustomDepth();
  }

  /** Overlap begin and end by the same character leave its overlap count where it was. */
  method OverlapBalanced(item: Item, origin: ShooterCharacter)
    modifies origin
    ensures origin.overlappedItemCount == old(origin.overlappedItemCount)
  {
    item.OnSphereOverlap(Some(CharacterActor(origin)));
    item.OnSphereEndOverlap(Some(CharacterActor(origin)));
  }
}
