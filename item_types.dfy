/**
 * The item enumerations and the rarity constant: EItemRarity, EItemState and EItemType, each
 * with the engine's trailing _MAX sentinel, and MAX_RARITY_SCORE.
 */
module ItemTypes {

  /** Number of stars an item widget can show, one per real rarity level. */
  const MaxRarityScore: nat := 5

  /** EItemRarity, in declaration order; RarityMax is the sentinel EIR_MAX. */
  datatype ItemRarity = Damaged | Common | Uncommon | Rare | Legendary | RarityMax

  /** EItemState, in declaration order; StateMax is the sentinel EIS_MAX. */
  datatype ItemState = Pickup | EquipInterpolating | PickedUp | Equipped | Falling | StateMax

  /** EItemType, in declaration order; TypeMax is the sentinel EIT_MAX. */
  datatype ItemType = AmmoItem | WeaponItem | TypeMax

  /** The real rarity levels, from lowest to highest. */
  const Rarities: seq<ItemRarity> := [Damaged, Common, Uncommon, Rare, Legendary]

  /** The real item states, in declaration order. */
  const States: seq<ItemState> := [Pickup, EquipInterpolating, PickedUp, Equipped, Falling]

  /** The real item types, in declaration order. */
  const Types: seq<ItemType> := [AmmoItem, WeaponItem]

  /** The underlying uint8 value of a rarity: its position in the declaration. */
  function RarityValue(r: ItemRarity): (k: nat)
    ensures k <= MaxRarityScore
    ensures k == MaxRarityScore <==> r == RarityMax
    ensures k < MaxRarityScore ==> Rarities[k] == r
  {
    match r
    case Damaged => 0
    case Common => 1
    case Uncommon => 2
    case Rare => 3
    case Legendary => 4
    case RarityMax => 5
  }

  /** Rarity order: Damaged < Common < Uncommon < Rare < Legendary (< EIR_MAX). */
  predicate RarityBelow(a: ItemRarity, b: ItemRarity)
  {
    RarityValue(a) < RarityValue(b)
  }

  /** The underlying uint8 value of an item state. */
  function StateValue(s: ItemState): (k: nat)
    ensures k <= |States|
    ensures k == |States| <==> s == StateMax
    ensures k < |States| ==> States[k] == s
  {
    match s
    case Pickup => 0
    case EquipInterpolating => 1
    case PickedUp => 2
    case Equipped => 3
    case Falling => 4
    case StateMax => 5
  }

  /** The underlying uint8 value of an item type. */
  function TypeValue(t: ItemType): (k: nat)
    ensures k <= |Types|
    ensures k == |Types| <==> t == TypeMax
    ensures k < |Types| ==> Types[k] == t
  {
    match t
    case AmmoItem => 0
    case WeaponItem => 1
    case TypeMax => 2
  }

  /**
   * The number of stars SetActiveStars lights for a rarity: the entries its switch sets to true.
   * EIR_MAX has no case in that switch and lights none.
   */
  function ActiveStarCount(r: ItemRarity): (n: nat)
    ensures n <= MaxRarityScore
    ensures r != RarityMax ==> n == RarityValue(r) + 1
    ensures r == RarityMax ==> n == 0
  {
    match r
    case Damaged => 1
    case Common => 2
    case Uncommon => 3
    case Rare => 4
    case Legendary => 5
    case RarityMax => 0
  }

  /** Five real rarities in strictly increasing order, one per star, plus the sentinel. */
  lemma RaritiesMatchScore()
    ensures |Rarities| == MaxRarityScore
    ensures forall i, j :: 0 <= i < j < |Rarities| ==> RarityBelow(Rarities[i], Rarities[j])
    ensures forall r :: r in Rarities <==> r != RarityMax
    ensures forall r :: r != RarityMax ==> RarityBelow(r, RarityMax)
  {
  }

  /** Exactly five real item states, all distinct, plus the sentinel. */
  lemma FiveItemStates()
    ensures |States| == 5
    ensures forall i, j :: 0 <= i < j < |States| ==> States[i] != States[j]
    ensures forall s :: s in States <==> s != StateMax
  {
  }

  /** Exactly two real item types, Ammo and Weapon, plus the sentinel. */
  lemma TwoItemTypes()
    ensures |Types| == 2 && Types[0] != Types[1]
    ensures forall t :: t in Types <==> t != TypeMax
  {
  }

  /** Higher rarity lights strictly more stars. */
  lemma StarsMonotone(a: ItemRarity, b: ItemRarity)
    requires a != RarityMax && b != RarityMax
    ensures RarityBelow(a, b) <==> ActiveStarCount(a) < ActiveStarCount(b)
  {
  }
}
