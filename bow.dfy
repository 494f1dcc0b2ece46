/** The bow overhaul (Common/ModEntities/Items/Overhauls/Generic/Bow.cs):
    which items it applies to, its fire sound, and its crosshair. */
module Bows {
  import opened Host

  /** ProjectileID.None */
  const ProjectileNone: int := 0
  /** AmmoID.Arrow */
  const AmmoArrow: int := 40
  /** TileID.Dirt */
  const TileDirt: int := 0

  /** The overhaul's bow fire sound asset. */
  const BowFireSound: SoundStyle := Asset("Assets/Sounds/Items/Bows/BowFire")

  predicate ShootsWithoutMelee(item: Item)
  {
    item.shoot > ProjectileNone && item.noMelee
  }

  predicate UsesArrows(item: Item)
  {
    item.useAmmo == AmmoArrow
  }

  predicate IsToolOrPlaceable(item: Item)
  {
    item.pick > 0 || item.axe > 0 || item.hammer > 0 || item.createTile >= TileDirt || item.createWall >= 0
  }

  /** A bow is an arrow-using weapon that fires projectiles without a melee
      hitbox and is neither a tool nor a placeable. */
  function ShouldApplyItemOverhaul(item: Item): (r: bool)
    ensures item.shoot <= ProjectileNone || !item.noMelee ==> !r
    ensures item.useAmmo != AmmoArrow ==> !r
    ensures item.pick > 0 || item.axe > 0 || item.hammer > 0 || item.createTile >= TileDirt || item.createWall >= 0 ==> !r
    ensures r <==> ShootsWithoutMelee(item) && UsesArrows(item) && !IsToolOrPlaceable(item)
  {
    if item.shoot <= ProjectileNone || !item.noMelee then false
    else if item.useAmmo != AmmoArrow then false
    else if item.pick > 0 || item.axe > 0 || item.hammer > 0 || item.createTile >= TileDirt || item.createWall >= 0 then false
    else true
  }

  /** An arrow-firing, non-melee, non-tool item, such as the wooden bow, is a bow. */
  lemma WoodenBowQualifies()
    ensures ShouldApplyItemOverhaul(Item(39, true, 12, 28, 1.0, 30, 1, true, AmmoArrow, 0, 0, 0, -1, -1, Some(Item5Sound)))
  {
  }

  /** The item's defaults: the host's bow sound becomes the overhaul's fire
      sound; any other use sound is kept. */
  function SetDefaults(item: Item): (r: Item)
    ensures item.useSound == Some(Item5Sound) ==> r.useSound == Some(BowFireSound)
    ensures item.useSound != Some(Item5Sound) ==> r.useSound == item.useSound
    ensures r.useSound != Some(Item5Sound)
    ensures r == item.(useSound := r.useSound)
  {
    if item.useSound == Some(Item5Sound) then item.(useSound := Some(BowFireSound)) else item
  }

  /** Applying the defaults twice is the same as once. */
  lemma SetDefaultsIdempotent(item: Item)
    ensures SetDefaults(SetDefaults(item)) == SetDefaults(item)
  {
  }

  /** Whether an item is a bow does not depend on its sound. */
  lemma SetDefaultsKeepsEligibility(item: Item)
    ensures ShouldApplyItemOverhaul(SetDefaults(item)) == ShouldApplyItemOverhaul(item)
  {
  }

  /** Bows always show the item crosshair. */
  function ShowItemCrosshair(item: Item, player: Player): (r: bool)
    ensures r
  {
    true
  }
}
