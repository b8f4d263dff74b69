/**
 * The configuration an item's components take in each item state (the switch of
 * AItem::SetItemProperties written as a table), and the active-star array that
 * AItem::SetActiveStars produces.
 */
module ItemConfig {
  import opened Engine
  import opened ItemTypes

  /** The components of an AItem that SetItemProperties configures. */
  datatype Components = Components(
    mesh: Primitive,
    areaSphere: Primitive,
    collisionBox: Primitive,
    pickupWidgetVisible: bool)

  /** Whether a state hides the pickup widget: all but Pickup and Falling (and the sentinel). */
  predicate HidesWidget(s: ItemState)
  {
    s == Equipped || s == EquipInterpolating || s == PickedUp
  }

  /** The item mesh after SetItemProperties(s), given the mesh before. */
  function MeshFor(s: ItemState, m: Primitive): (r: Primitive)
    ensures s == StateMax ==> r == m
    ensures s != StateMax ==> (r.simulatePhysics <==> s == Falling)
    ensures s != StateMax ==> (r.gravity <==> s == Falling)
    ensures s != StateMax ==> (r.visible <==> s != PickedUp)
    ensures s != StateMax ==> (r.collision != NoCollision <==> s == Falling)
    ensures s != StateMax ==> (r.responses.To(WorldStatic) == Block <==> s == Falling)
    ensures s == Falling ==> r.collision == QueryAndPhysics
    ensures s != StateMax && s != Falling ==> r.collision == NoCollision && r.responses.To(WorldStatic) == Ignore
    ensures forall c :: c != WorldStatic ==> r.responses.To(c) == (if s == StateMax then m.responses.To(c) else Ignore)
    ensures r.renderCustomDepth == m.renderCustomDepth
  {
    match s
    case Pickup =>
      m.(simulatePhysics := false, visible := true, responses := AllChannels(Ignore),
         collision := NoCollision, gravity := false)
    case Equipped =>
      m.(simulatePhysics := false, visible := true, responses := AllChannels(Ignore),
         collision := NoCollision, gravity := false)
    case Falling =>
      m.(simulatePhysics := true, collision := QueryAndPhysics, responses := Only(WorldStatic, Block),
         gravity := true, visible := true)
    case EquipInterpolating =>
      m.(simulatePhysics := false, visible := true, responses := AllChannels(Ignore),
         collision := NoCollision, gravity := false)
    case PickedUp =>
      m.(simulatePhysics := false, visible := false, responses := AllChannels(Ignore),
         collision := NoCollision, gravity := false)
    case StateMax => m
  }

  /** The area sphere after SetItemProperties(s): overlapping, query-only, in Pickup alone. */
  function AreaSphereFor(s: ItemState, a: Primitive): (r: Primitive)
    ensures s == StateMax ==> r == a
    ensures s != StateMax ==> (r.collision != NoCollision <==> s == Pickup)
    ensures s == Pickup ==> r.collision == QueryOnly && forall c :: r.responses.To(c) == Overlap
    ensures s != Pickup && s != StateMax ==> forall c :: r.responses.To(c) == Ignore
    ensures r.simulatePhysics == a.simulatePhysics && r.visible == a.visible && r.gravity == a.gravity
    ensures r.renderCustomDepth == a.renderCustomDepth
  {
    match s
    case Pickup => a.(responses := AllChannels(Overlap), collision := QueryOnly)
    case Equipped => a.(responses := AllChannels(Ignore), collision := NoCollision)
    case Falling => a.(responses := AllChannels(Ignore), collision := NoCollision)
    case EquipInterpolating => a.(responses := AllChannels(Ignore), collision := NoCollision)
    case PickedUp => a.(responses := AllChannels(Ignore), collision := NoCollision)
    case StateMax => a
  }

  /** The collision box after SetItemProperties(s): it blocks Visibility, and only it, in Pickup alone. */
  function CollisionBoxFor(s: ItemState, b: Primitive): (r: Primitive)
    ensures s == StateMax ==> r == b
    ensures s != StateMax ==> (r.collision != NoCollision <==> s == Pickup)
    ensures s != StateMax ==> forall c :: r.responses.To(c) == Block <==> s == Pickup && c == Visibility
    ensures s != StateMax ==> forall c :: r.responses.To(c) != Overlap
    ensures s == Pickup ==> r.collision == QueryAndPhysics
    ensures s != Pickup && s != StateMax ==> r.collision == NoCollision && forall c :: r.responses.To(c) == Ignore
    ensures r.simulatePhysics == b.simulatePhysics && r.visible == b.visible && r.gravity == b.gravity
    ensures r.renderCustomDepth == b.renderCustomDepth
  {
    match s
    case Pickup =>
      b.(responses := AllChannels(Ignore).With(Visibility, Block), collision := QueryAndPhysics)
    case Equipped => b.(responses := AllChannels(Ignore), collision := NoCollision)
    case Falling => b.(responses := AllChannels(Ignore), collision := NoCollision)
    case EquipInterpolating => b.(responses := AllChannels(Ignore), collision := NoCollision)
    case PickedUp => b.(responses := AllChannels(Ignore), collision := NoCollision)
    case StateMax => b
  }

  /** The pickup widget's visibility after SetItemProperties(s), given it before. */
  function PickupWidgetFor(s: ItemState, visible: bool): (r: bool)
    ensures HidesWidget(s) ==> !r
    ensures !HidesWidget(s) ==> r == visible
  {
    match s
    case Equipped => false
    case EquipInterpolating => false
    case PickedUp => false
    case _ => visible
  }

  /** The whole configuration after AItem::SetItemProperties(s). */
  function ConfigurationFor(s: ItemState, c: Components): Components
  {
    Components(MeshFor(s, c.mesh), AreaSphereFor(s, c.areaSphere),
               CollisionBoxFor(s, c.collisionBox), PickupWidgetFor(s, c.pickupWidgetVisible))
  }

  /**
   * Every real state fixes the whole physical configuration: two items in the same state
   * have the same mesh and the same collision setup whatever they were before (the pickup
   * widget and the flags SetItemProperties never touches aside).
   */
  lemma ConfigurationDeterminedByState(s: ItemState, c1: Components, c2: Components)
    requires s != StateMax
    requires c1.mesh.renderCustomDepth == c2.mesh.renderCustomDepth
    ensures ConfigurationFor(s, c1).mesh == ConfigurationFor(s, c2).mesh
    ensures ConfigurationFor(s, c1).areaSphere.collision == ConfigurationFor(s, c2).areaSphere.collision
    ensures ConfigurationFor(s, c1).areaSphere.responses == ConfigurationFor(s, c2).areaSphere.responses
    ensures ConfigurationFor(s, c1).collisionBox.collision == ConfigurationFor(s, c2).collisionBox.collision
    ensures ConfigurationFor(s, c1).collisionBox.responses == ConfigurationFor(s, c2).collisionBox.responses
  {
  }

  /** Configuring for a state twice is the same as configuring for it once. */
  lemma ConfigurationIdempotent(s: ItemState, c: Components)
    ensures ConfigurationFor(s, ConfigurationFor(s, c)) == ConfigurationFor(s, c)
  {
  }

  // ----- active stars -----

  /** n unlit stars: the entries the loop of SetActiveStars appends. */
  function Unlit(n: nat): (t: seq<bool>)
    ensures |t| == n && forall i :: 0 <= i < n ==> !t[i]
  {
    if n == 0 then [] else Unlit(n - 1) + [false]
  }

  /** s with its first n entries set to true, one entry at a time. */
  function Light(s: seq<bool>, n: nat): (t: seq<bool>)
    requires n <= |s|
    ensures |t| == |s|
    ensures forall i :: 0 <= i < |s| ==> t[i] == (i < n || s[i])
  {
    if n == 0 then s else Light(s, n - 1)[n - 1 := true]
  }

  /**
   * The star array after one call of SetActiveStars on `stars` for rarity r: MaxRarityScore unlit
   * stars appended, then the first ActiveStarCount(r) entries lit.
   */
  function WithActiveStars(stars: seq<bool>, r: ItemRarity): seq<bool>
  {
    Light(stars + Unlit(MaxRarityScore), ActiveStarCount(r))
  }

  /** The star array after n calls of SetActiveStars on an item whose array starts empty. */
  function StarsAfterCalls(n: nat, r: ItemRarity): seq<bool>
  {
    if n == 0 then [] else WithActiveStars(StarsAfterCalls(n - 1, r), r)
  }

  /** From an empty array one call leaves five entries, entry i lit iff i < rank(r) + 1. */
  lemma StarsFromEmpty(r: ItemRarity)
    requires r != RarityMax
    ensures |WithActiveStars([], r)| == MaxRarityScore
    ensures forall i :: 0 <= i < MaxRarityScore ==> (WithActiveStars([], r)[i] <==> i < RarityValue(r) + 1)
  {
  }

  /**
   * A call on a non-empty array lengthens it by MaxRarityScore and touches only its first
   * ActiveStarCount(r) entries; the appended entries beyond those stay unlit.
   */
  lemma StarsAppend(stars: seq<bool>, r: ItemRarity)
    ensures |WithActiveStars(stars, r)| == |stars| + MaxRarityScore
    ensures forall i :: ActiveStarCount(r) <= i < |stars| ==> WithActiveStars(stars, r)[i] == stars[i]
    ensures forall i :: 0 <= i < ActiveStarCount(r) ==> WithActiveStars(stars, r)[i]
    ensures forall i :: |stars| <= i < |stars| + MaxRarityScore && ActiveStarCount(r) <= i ==> !WithActiveStars(stars, r)[i]
  {
  }

  /**
   * After n calls from an empty array, the array has 5n entries and exactly the first
   * ActiveStarCount(r) are lit: repeated calls never light a second group of stars.
   */
  lemma {:induction false} StarsAfterRepeatedCalls(n: nat, r: ItemRarity)
    ensures |StarsAfterCalls(n, r)| == n * MaxRarityScore
    ensures forall i :: 0 <= i < |StarsAfterCalls(n, r)| ==> (StarsAfterCalls(n, r)[i] <==> i < ActiveStarCount(r))
  {
    if n > 0 {
      StarsAfterRepeatedCalls(n - 1, r);
    }
  }
}
