# Shooter item, weapon and enemy state, in Dafny

A model of the discrete state layer under the gameplay code of a third-person shooter built on a
game engine's actor and component framework. The layer is made of enums, flags, counters and one map:

- **Items** (`AItem`) move through the states Pickup, EquipInterpolating, PickedUp, Equipped and
  Falling, plus the sentinel `EIS_MAX`. The state fixes how the three components are configured:
  the item mesh, the area sphere and the collision box. The pickup widget's visibility follows too.
  Each component is a record of abstract flags (`Engine.Primitive`):
  - simulate-physics, visible and gravity;
  - the kind of collision enabled;
  - the response to each collision channel;
  - the custom-depth render flag.
- **Item lifecycle.** The model also covers the star array drawn from an item's rarity, and the
  pickup interpolation. That interpolation reserves one of the character's interp slots and frees
  it again when it ends. While it runs, the custom-depth outline cannot change, because a gate
  flag is off. The area-sphere overlap callbacks count overlapping characters.
- **Ammo** (`AAmmo`) overrides `SetItemProperties`. It runs the `AItem` configuration first, then
  configures its own static mesh. The model does not use traits, so the virtual call is modelled in
  `Items.Item`. Its `ammoMesh` field holds the AmmoMesh of an `AAmmo` and is `None` for any other
  item. `SetItemProperties` runs the override exactly when that field is present.
- **Weapons** (`AWeapon`) add an ammo count that saturates at zero and a falling flag. A throw
  raises the flag. The throw timer's callback lowers it again and puts the item back in Pickup. A
  `Weapon` owns its `Item` part and calls into it wherever `AWeapon` calls inherited members.
- **Enemies** (`AEnemy`) have health that clamps at zero and a hit-react gate that a timer
  re-opens. They also have a stun flag set by a random draw, and a map from hit-number widgets to
  world locations.

Item methods, weapon methods and enemy methods change state step by step. They are class methods
whose `ensures` tie the new state to pure table functions (`ItemConfig`, `AmmoConfig`) or to
closed forms (`WithActiveStars`, `DecrementedAmmo`, `HealthAfterDamage`). The properties the
game relies on are proved about those functions.

Timers are explicit callback methods that the caller invokes:
- `ItemInterpTimerFinished`;
- `StopFalling`;
- `ResetHitReactTimer`;
- `DestroyHitNumber`.

Random draws are parameters. The value the character's `GetInterpLocationIndex` returns is the
`slot` parameter of `StartItemCurve`. The components as the engine creates them are constructor
parameters.

Files: `engine.dfy` (component flags), `item_types.dfy` (the enums of Item.h), `item_config.dfy` and
`ammo_config.dfy` (per-state tables and the star array), `character.dfy` (the character as a
counter holder), `item.dfy`, `weapon.dfy`, `enemy.dfy`.

## Model

| member | source | states |
|---|---|---|
| ItemTypes.RarityValue | Source/Shooter/Item.h:10-19 | Rarities are numbered 0..4 from Damaged to Legendary, in that order; 5 is the `EIR_MAX` sentinel and only the sentinel reaches MAX_RARITY_SCORE |
| ItemTypes.StateValue | Source/Shooter/Item.h:22-31 | The five real states are numbered 0..4 in declaration order; `EIS_MAX` is 5 |
| ItemTypes.TypeValue | Source/Shooter/Item.h:33-40 | Ammo is 0 and Weapon is 1; `EIT_MAX` is 2 |
| ItemTypes.ActiveStarCount | Source/Shooter/Item.cpp:146-177 | The switch lights rank + 1 stars for a real rarity (Damaged 1 … Legendary 5) and none for `EIR_MAX`, never more than MAX_RARITY_SCORE |
| ItemTypes.RaritiesMatchScore | Source/Shooter/Item.h:52 | There are exactly MAX_RARITY_SCORE = 5 real rarities, strictly ordered, and every rarity but the sentinel is one of them |
| ItemTypes.FiveItemStates | Source/Shooter/Item.h:22-31 | Exactly five distinct real item states exist; everything else is the sentinel |
| ItemTypes.TwoItemTypes | Source/Shooter/Item.h:33-40 | Exactly two real item types, Ammo and Weapon, exist besides the sentinel |
| ItemTypes.StarsMonotone | Source/Shooter/Item.cpp:146-177 | A higher rarity lights strictly more stars, and the converse holds |
| ItemConfig.MeshFor | Source/Shooter/Item.cpp:187-269 | Only Falling turns on physics and gravity, enables QueryAndPhysics collision and blocks WorldStatic; the other real states give NoCollision and ignore WorldStatic; only PickedUp hides the mesh; every real state ignores all other channels; `EIS_MAX` changes nothing; custom depth is untouched |
| ItemConfig.AreaSphereFor | Source/Shooter/Item.cpp:187-269 | Only Pickup enables the area sphere: query-only, overlapping every channel; every other real state gives NoCollision and ignores all channels |
| ItemConfig.CollisionBoxFor | Source/Shooter/Item.cpp:187-269 | Only Pickup enables the collision box, with QueryAndPhysics, and it then blocks Visibility and nothing else; all other real states give NoCollision and ignore every channel |
| ItemConfig.PickupWidgetFor | Source/Shooter/Item.cpp:189-269 | Equipped, EquipInterpolating and PickedUp hide the pickup widget; Pickup and Falling leave it as it was |
| ItemConfig.ConfigurationDeterminedByState | Source/Shooter/Item.cpp:187-269 | For every real state, the mesh and the collision set-up of sphere and box do not depend on what they were before |
| ItemConfig.ConfigurationIdempotent | Source/Shooter/Item.cpp:187-269 | Configuring twice for the same state is the same as configuring once |
| ItemConfig.Unlit | Source/Shooter/Item.cpp:141-144 | The loop appends exactly n entries that are all false |
| ItemConfig.Light | Source/Shooter/Item.cpp:146-177 | Lighting the first n stars keeps the length, makes those n entries true and leaves every other entry as it was |
| ItemConfig.StarsFromEmpty | Source/Shooter/Item.cpp:139-177 | Starting from an empty array, one call leaves 5 entries, and entry i is true iff i < rank(rarity) + 1 |
| ItemConfig.StarsAppend | Source/Shooter/Item.cpp:139-177 | Each call adds 5 entries and writes only the leading entries; older entries past the lit ones keep their value and the new ones past them are false |
| ItemConfig.StarsAfterRepeatedCalls | Source/Shooter/Item.cpp:139-177 | After n calls from empty, the array has 5n entries and exactly the first ActiveStarCount(rarity) are true |
| AmmoConfig.AmmoMeshFor | Source/Shooter/Ammo.cpp:28-61 | The ammo mesh simulates physics, has gravity, enables collision and blocks WorldStatic only in Falling, and Falling keeps its visibility; the other configured states make it visible with NoCollision; PickedUp and `EIS_MAX` leave it untouched |
| AmmoConfig.AmmoMeshSharedConfiguration | Source/Shooter/Ammo.cpp:30-59 | Pickup, Equipped and EquipInterpolating give the ammo mesh one identical configuration: no physics, visible, ignoring all channels, no collision, no gravity |
| AmmoConfig.AmmoMeshFollowsItemMesh | Source/Shooter/Ammo.cpp:28-61 | Where the override acts, it matches the AItem mesh table, except that in Falling it keeps the visibility |
| AmmoConfig.AmmoMeshIdempotent | Source/Shooter/Ammo.cpp:28-61 | Re-applying the override for the same state changes nothing more |
| Characters.ShooterCharacter.AddOverlappedItemCount | Source/Shooter/ShooterCharacter.h:368-369 | The overlapped-item count changes by exactly the given amount |
| Characters.ShooterCharacter.IncrementInterpLocationItemCount | Source/Shooter/Item.cpp:282-284 | The chosen slot's count changes by the amount, and every other slot keeps its count |
| Items.AsCharacter | Source/Shooter/Item.cpp:98-104 | The cast yields a character exactly when the actor is non-null and is a shooter character, and then it is that character |
| Items.AmmoMeshAfter | Source/Shooter/Ammo.cpp:24-26 | Items with an ammo mesh get the override's configuration; items without one have none afterwards either |
| Items.InterpolationProceedsAsWritten | Source/Shooter/Item.cpp:335-343 | The written guard proceeds iff the item is interping and at least one of the character and the Z curve is set |
| Items.InterpolationProceeds | Source/Shooter/Item.cpp:335-346 | The intended guard proceeds iff interping and both the character and the Z curve are set |
| Items.InterpolationGuardAdmitsMissingCurve | Source/Shooter/Item.cpp:340-346 | An interping item with a character and no Z curve passes the written guard and reaches the curve; the intended guard stops it |
| Items.InterpolationGuardAdmitsMissingCharacter | Source/Shooter/Item.cpp:340 | As an expression, the written guard also admits interping with the Z curve set and the character null, which the intended guard rejects. No item reaches that input: interping is only set after the character was stored non-null |
| Items.InterpolationGuardRefines | Source/Shooter/Item.cpp:340-346 | Every input the intended guard admits is admitted by the written guard too, and has both pointers set |
| Items.Item.constructor | Source/Shooter/Item.cpp:15-64 | New item defaults: name "Unnamed", count 0, rarity Common, state Pickup, not interping, type `EIT_MAX`, interp index 0, custom depth changeable, slot index 0, inventory not full; the collision box blocks Visibility and only it |
| Items.Item.SetActiveStars | Source/Shooter/Item.cpp:139-178 | The new star array equals WithActiveStars of the old one: five falses appended in a loop, then the leading stars lit |
| Items.Item.SetItemState | Source/Shooter/Item.cpp:180-185 | Afterwards GetItemState() is the new state, and every component equals the table entry for that state, including the ammo mesh of an ammo item |
| Items.Item.SetItemProperties | Source/Shooter/Ammo.cpp:24-26 | The virtual call applies the full AItem configuration first, then the ammo-mesh override when the item is ammo |
| Items.Item.SetBaseItemProperties | Source/Shooter/Item.cpp:187-270 | The engine calls of each case, in source order, produce exactly the table configuration for the state |
| Items.Item.SetAmmoMeshProperties | Source/Shooter/Ammo.cpp:28-61 | The engine calls on the ammo mesh produce exactly the ammo table entry, and nothing else changes |
| Items.Item.StartItemCurve | Source/Shooter/Item.cpp:272-308 | A null character changes nothing. Otherwise: the character and slot are stored, interping is set, the state becomes EquipInterpolating with its configuration, custom depth is frozen, and the slot's count rises by exactly 1 with other slots untouched |
| Items.Item.LoadedByCharacter | Source/Shooter/Item.cpp:319 | Stands for `Character->LoadPickupItem(this)`: it may set the item state and every component to any value, but an ammo item keeps an ammo mesh and no other item gains one, since a call cannot change an object's class. No other item field changes; that is an assumption about a body the source does not show (see "## Left out") |
| Items.Item.ItemInterpTimerFinished | Source/Shooter/Item.cpp:310-331 | Interping ends and the outline ends off, because the gate is re-enabled before custom depth is switched off. With a character set, the stored slot's count falls by exactly 1, other slots and the overlap count keep theirs, and the item is handed to the character's LoadPickupItem, whose effect on the item state and components is left open. Without a character, the state and components other than the outline stay as they were. Either way an ammo item is still an ammo item |
| Items.Item.EnableCustomDepth | Source/Shooter/Item.cpp:449-455 | The outline turns on only when the gate allows it |
| Items.Item.DisableCustomDepth | Source/Shooter/Item.cpp:457-463 | The outline turns off only when the gate allows it |
| Items.Item.StartPulseTimer | Source/Shooter/Item.cpp:503-509 | The pulse timer is armed iff the item is in Pickup |
| Items.Item.OnSphereOverlap | Source/Shooter/Item.cpp:91-108 | A shooter character's overlap count rises by exactly 1. For a null actor or a non-character actor, nothing changes (empty frame) |
| Items.Item.OnSphereEndOverlap | Source/Shooter/Item.cpp:110-126 | A shooter character's overlap count falls by exactly 1. For a null actor or a non-character actor, nothing changes |
| Items.Item.BeginPlay | Source/Shooter/Item.cpp:67-89 | The widget is hidden, the stars are filled, the current state's configuration is applied, custom depth goes off where permitted, and the pulse timer is armed iff the state is Pickup |
| Items.PickupInterpolation | Source/Shooter/Item.cpp:272-331 | StartItemCurve followed by its callback leaves every interp slot count and the overlap count as they were. The outline ends off and changeable again, and the item keeps its character, its slot and its class (ammo or not) |
| Items.OutlineFrozenWhileInterping | Source/Shooter/Item.cpp:272-308 | During interpolation, EnableCustomDepth does not change the outline |
| Items.OverlapBalanced | Source/Shooter/Item.cpp:91-126 | A begin-overlap and end-overlap by the same character leave its overlap count unchanged |
| Weapons.DecrementedAmmo | Source/Shooter/Weapon.cpp:63-73 | The new count is max(Ammo − 1, 0): never negative, exactly one lower from 1 up, and 0 at or below 1, so 0 stays 0 |
| Weapons.AmmoAfterShotsSaturates | Source/Shooter/Weapon.cpp:63-73 | n decrements from a non-negative count leave max(count − n, 0) |
| Weapons.EmptyStaysEmpty | Source/Shooter/Weapon.cpp:63-73 | Decrementing an empty weapon any number of times leaves it empty (idempotence at 0), as the case a = 0 of AmmoAfterShotsSaturates |
| Weapons.TryGetBarrelSocketTransform | Source/Shooter/Weapon.cpp:75-89 | A transform comes back iff the mesh exists and has a "BarrelSocket", and it is that socket's transform |
| Weapons.BarrelSocketOut | Source/Shooter/Weapon.cpp:75-89 | The out-parameter is written only on success; on failure it keeps its prior value |
| Weapons.Weapon.constructor | Source/Shooter/Weapon.cpp:7-13 | A new weapon is not falling, has Ammo 0 and throw time 0.7, and IsFalling() is false. Its item has every item default: name "Unnamed", count 0, rarity Common, state Pickup, type `EIT_MAX`, no stars, not interping, no character, interp index 0, custom depth changeable, slot index 0, inventory not full, no ammo mesh, and a collision box that blocks only Visibility |
| Weapons.Weapon.DecrementAmmo | Source/Shooter/Weapon.cpp:63-73 | The stored count becomes DecrementedAmmo of the old count |
| Weapons.Weapon.ThrowWeapon | Source/Shooter/Weapon.cpp:26-48 | bFalling becomes true and the item state is not touched, so IsFalling() then holds iff the state is already Falling |
| Weapons.Weapon.StopFalling | Source/Shooter/Weapon.cpp:50-55 | bFalling is cleared and the state becomes Pickup with the Pickup configuration, so IsFalling() is false |
| Weapons.Weapon.Tick | Source/Shooter/Weapon.cpp:15-24 | The upright correction is applied iff IsFalling() |
| Weapons.Weapon.SetReloadMontageSectionName | Source/Shooter/Weapon.h:206 | The getter then returns the value set. Only this field may change |
| Weapons.Weapon.SetClipBoneName | Source/Shooter/Weapon.h:212 | The getter then returns the value set. Only this field may change |
| Weapons.Weapon.SetMovingClip | Source/Shooter/Weapon.h:214 | bMovingClip becomes the value. Only this field may change |
| Weapons.ThrowAndLand | Source/Shooter/Weapon.cpp:15-55 | For a weapon in Falling, Tick corrects after the throw but no longer after StopFalling, which leaves it in Pickup |
| Enemies.HealthAfterDamage | Source/Shooter/Enemy.cpp:106-119 | Health becomes 0 iff Health − Damage ≤ 0, and otherwise drops by exactly Damage; it is never negative |
| Enemies.HitsNeverGoNegative | Source/Shooter/Enemy.cpp:106-119 | Across any run of hits, non-negative health stays non-negative; at 0, non-negative hits keep it at 0 |
| Enemies.Enemy.constructor | Source/Shooter/Enemy.cpp:17-27 | Health = MaxHealth = 100, can hit-react, not stunned, stun chance 0.5, no hit numbers |
| Enemies.Enemy.TakeDamage | Source/Shooter/Enemy.cpp:106-119 | It returns exactly the damage passed in. Health follows HealthAfterDamage. Die is called iff Health − Damage ≤ 0 |
| Enemies.Enemy.PlayHitMontage | Source/Shooter/Enemy.cpp:136-158 | With the gate closed it does nothing. Otherwise the reaction plays and the gate closes |
| Enemies.Enemy.ResetHitReactTimer | Source/Shooter/Enemy.cpp:160-163 | The gate opens again |
| Enemies.Enemy.BulletHit | Source/Shooter/Enemy.cpp:97-103 | The enemy becomes stunned iff the draw is ≤ StunChance; nothing here clears the stun. The gate closes only on a stunning draw |
| Enemies.Enemy.StoreHitNumber | Source/Shooter/Enemy.cpp:165-178 | The widget maps to the location, and every other entry is unchanged |
| Enemies.Enemy.DestroyHitNumber | Source/Shooter/Enemy.cpp:180-184 | The widget is removed, and the map is otherwise the same |
| Enemies.HitReactCycle | Source/Shooter/Enemy.cpp:136-163 | After a reaction, a second hit before the timer is blocked; once the timer fires, another one plays |
| Enemies.HitNumberRoundTrip | Source/Shooter/Enemy.cpp:165-184 | Storing a new hit number and then destroying it restores the map |
| Items.Item.GetItemState | Source/Shooter/Item.h:174-177 | Reads the item state and nothing else; what it returns after each operation is stated by SetItemState, StartItemCurve and StopFalling |
| Items.Item.GetItemCount | Source/Shooter/Item.h:196 | Reads the item count and nothing else; no operation of the model changes the count after construction |
| Weapons.Weapon.IsFalling | Source/Shooter/Weapon.h:187-190 | True exactly when the item state is Falling and bFalling is set; ThrowWeapon, StopFalling, Tick and the constructor state its value |
| Weapons.Weapon.GetAmmo | Source/Shooter/Weapon.h:192 | Reads the ammo count; DecrementAmmo states its value afterwards |
| Weapons.Weapon.GetMagazineCapacity | Source/Shooter/Weapon.h:194 | Reads the magazine capacity, which no operation of the model changes |
| Weapons.Weapon.GetReloadMontageSectionName | Source/Shooter/Weapon.h:204 | Reads the reload section name; SetReloadMontageSectionName states its value afterwards |
| Weapons.Weapon.GetClipBoneName | Source/Shooter/Weapon.h:210 | Reads the clip bone name; SetClipBoneName states its value afterwards |

The getters have no contract of their own: each is a `reads`-framed function returning its
stored field (for `IsFalling` the conjunction of Weapon.h:189), and the rows of the operations
named in their third column state what they return.

## Left out

- Vector, rotation and impulse math: the impulse of `ThrowWeapon` and `EnsureWeaponIsUpright`.
  Both are float geometry and physics. `Tick` only reports whether the correction runs.
- `InterpolateItemLoad` beyond its guard, and `GetInterpLocation`. Also left out: the interp start
  location, the yaw offset and `SetActorScale3D`. All of these are curve sampling and float
  interpolation.
- `UpdatePulse`, `OnConstruction`, `EnableGlowMaterial`, `DisableGlowMaterial`, `ResetPulseTimer`
  and the material parameters. These are rendering.
- `PlayPickupSound` and `PlayEquipSound`. `StartItemCurve` takes `forcePlaySound` and ignores it.
  Sounds are engine I/O.
- Other engine I/O that the model does not represent:
  - impact sounds and particles;
  - `ShowHealthBar` and `HideHealthBar`;
  - montage playback, and the `SectionName` and `PlayRate` of `PlayHitMontage`;
  - `RemoveFromParent` on a destroyed hit number;
  - `UpdateHitNumbers`, with its screen projection;
  - `DrawDebugSphere`.
- `Die` itself is not modelled. `TakeDamage` only reports, as `died`, that it was called.
- Timer-manager internals and timer durations (`ZCurveTime`, `PulseCurveTime`, the random hit-react
  time, `HitNumberDestroyTime`, `HealthBarDisplayTime`). Each callback is a method the caller
  invokes, and `throwWeaponTime` is only a constant.
- `ClearTimer(PulseTimer)` in `StartItemCurve` is left out for the same reason.
- `FMath::FRandRange`: the stun draw is the `draw` parameter of `BulletHit`.
- `AEnemy::BeginPlay`, `AgroSphereOverlap` and `Tick`. These are behaviour-tree, blackboard and
  engine AI calls.
- The delegate binding in `AItem::BeginPlay`. The overlap callbacks are methods that the caller
  invokes.
- The overlap callbacks' end-overlap call to `UnhighlightInventorySlot`, and
  `ItemInterpTimerFinished`'s call to `UnhighlightInventorySlot`. The source does not show the
  bodies of these character members.
- `LoadPickupItem(this)` in `ItemInterpTimerFinished`: its body is not shown. `Items.Item.LoadedByCharacter`
  stands for it and may set the item state and reconfigure every component to anything, so the model
  does not say which state the item is in once a pickup ends. It does not model any change
  `LoadPickupItem` makes to the character or to a weapon's own fields. The model assumes that
  `LoadPickupItem` does not restart the curve. It also assumes it leaves alone these fields of the
  item: the character, the interp index, the slot index, the interping flag and the custom-depth
  gate. It further assumes the call leaves the character's overlap and interp-slot counts alone.
  The public `StartItemCurve` could change several of these fields, and the header the item code
  compiles against is not part of this model. So
  `ItemInterpTimerFinished`'s `!interping` and `PickupInterpolation`'s kept character and slot rest
  on that assumption.
- Widgets and components are assumed non-null. The hit-number widget and the `Primitive` component
  fields have no null value. So the model leaves out the paths where the source dereferences them
  without a check:
  - `HitNumber->RemoveFromParent()` in `DestroyHitNumber` (Enemy.cpp:183);
  - `PickupWidget->SetVisibility(false)` in `SetItemProperties` (Item.cpp:219, 238, 254), although
    `BeginPlay` checks the same pointer at Item.cpp:71;
  - the `AmmoMesh` calls in the `AAmmo` override (Ammo.cpp:31-43).
- Characters.ShooterCharacter.AddOverlappedItemCount: the source shows only its declaration and its
  comment ("adds given amount"). The model adds the amount and does no clamping or tracing.
- Characters.ShooterCharacter.IncrementInterpLocationItemCount: the source shows neither a body nor a
  declaration. The model adds the amount to an abstract per-slot counter.
- `GetInterpLocationIndex` is modelled as the `slot` parameter.
- ShooterCharacter.cpp (movement and turn-rate input), and the other members of ShooterCharacter.h
  (firing, reloading, inventory). The source shows no bodies for them.
- `AWeapon::ReloadAmmo` and `IsClipFull`: the source shows no bodies.
- The `AAmmo` overrides of `EnableCustomDepth`, `DisableCustomDepth` and `OnAmmoSphereOverlap`: the
  source shows no bodies. The model gives ammo items the `AItem` custom-depth behaviour.
- The pointer getters (`GetPickupWidget`, `GetItemMesh`, `GetPickupSound`, `GetEquipSound`,
  `GetCollisionBox`, `GetAreaSphere`). In the model, the components are fields.
- `GetWeaponType`, `GetAmmoType`, `GetAutoFireRate`, `GetMuzzleFlash` and `GetFireSound`. They
  return assets or enums declared in headers (AmmoType.h, WeaponType.h) that are not part of this
  model.
- Explosive.cpp, ShooterAnimInstance and ShooterPlayerController. These are engine queries, velocity
  magnitudes and HUD.
- Floating point. Health, damage, stun chance and the draw are reals, so float rounding is not
  modelled.
- Weapons.DecrementedAmmo: C++ leaves `Ammo - 1` undefined at the 32-bit minimum. The model
  compares in unbounded integers and yields 0 there.
- Integer counters other than `Ammo` are unbounded and do not wrap.
- Item.h:198 declares `StartItemCurve` with one parameter. Item.cpp:272 defines it with two. The
  model follows the definition.
- Components created by `CreateDefaultSubobject` are constructor parameters, with their engine
  defaults unknown. `MagazineCapacity`, which the constructor leaves unset, is unconstrained.

## Findings

| source | as written | input that shows it | evidently intended | confidence | as-written member | corrected member |
|---|---|---|---|---|---|---|
| Source/Shooter/Item.cpp:340-346 | `if (!(Character \|\| ItemZCurve)) return;` proceeds when either pointer is set, then dereferences `ItemZCurve` (line 346) and `Character` (line 379) | an interping item with `Character` set and `ItemZCurve` null passes the guard and dereferences a null curve (`ItemZCurve` is an editor-assigned default, Item.h:125-126, so it can be left unset). The guard expression would also admit a null `Character` with the curve set, but no item reaches that input, because `bInterping` is only set after `Character` was stored non-null (Item.cpp:274-290) | return unless both are set: `!(Character && ItemZCurve)` | not executed | Items.InterpolationProceedsAsWritten (shown by Items.InterpolationGuardAdmitsMissingCurve and Items.InterpolationGuardAdmitsMissingCharacter) | Items.InterpolationProceeds |
