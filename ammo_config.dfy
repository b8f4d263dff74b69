/**
 * The configuration the AAmmo override of SetItemProperties gives the ammo's own static mesh
 * in each item state, after the AItem configuration has been applied.
 */
module AmmoConfig {
  import opened Engine
  import opened ItemTypes
  import ItemConfig

  /** The ammo mesh after AAmmo::SetItemProperties(s), given it before. */
  function AmmoMeshFor(s: ItemState, m: Primitive): (r: Primitive)
    ensures s == PickedUp || s == StateMax ==> r == m
    ensures s != PickedUp && s != StateMax ==> (r.simulatePhysics <==> s == Falling)
    ensures s != PickedUp && s != StateMax ==> (r.gravity <==> s == Falling)
    ensures s != PickedUp && s != StateMax ==> (r.responses.To(WorldStatic) == Block <==> s == Falling)
    ensures s != PickedUp && s != StateMax ==> forall c :: c != WorldStatic ==> r.responses.To(c) == Ignore
    ensures s == Falling ==> r.visible == m.visible && r.collision == QueryAndPhysics
    ensures s != Falling && s != PickedUp && s != StateMax ==> r.visible && r.collision == NoCollision
    ensures r.renderCustomDepth == m.renderCustomDepth
  {
    match s
    case Pickup =>
      m.(simulatePhysics := false, visible := true, responses := AllChannels(Ignore),
         collision := NoCollision, gravity := false)
    case Equipped =>
      m.(simulatePhysics := false, visible := true, responses := AllChannels(Ignore),
         collision := NoCollision, gravity := false)
    case Falling =>
      m.(simulatePhysics := true, collision := QueryAndPhysics, responses := Only(WorldStatic, Block),
         gravity := true)
    case EquipInterpolating =>
      m.(simulatePhysics := false, visible := true, responses := AllChannels(Ignore),
         collision := NoCollision, gravity := false)
    case PickedUp => m
    case StateMax => m
  }

  /** Pickup, Equipped and EquipInterpolating give the ammo mesh one and the same configuration. */
  lemma AmmoMeshSharedConfiguration(m: Primitive)
    ensures AmmoMeshFor(Pickup, m) == AmmoMeshFor(Equipped, m) == AmmoMeshFor(EquipInterpolating, m)
    ensures AmmoMeshFor(Pickup, m)
         == m.(simulatePhysics := false, visible := true, gravity := false,
               collision := NoCollision, responses := AllChannels(Ignore))
  {
  }

  /**
   * Where the override configures the ammo mesh it configures it as AItem configures the item
   * mesh, except that in Falling it leaves the visibility as it was.
   */
  lemma AmmoMeshFollowsItemMesh(s: ItemState, m: Primitive)
    requires s != PickedUp
    ensures s != Falling ==> AmmoMeshFor(s, m) == ItemConfig.MeshFor(s, m)
    ensures s == Falling ==> AmmoMeshFor(s, m) == ItemConfig.MeshFor(s, m).(visible := m.visible)
  {
  }

  /** Re-applying the override for the same state changes nothing further. */
  lemma AmmoMeshIdempotent(s: ItemState, m: Primitive)
    ensures AmmoMeshFor(s, AmmoMeshFor(s, m)) == AmmoMeshFor(s, m)
  {
  }
}
