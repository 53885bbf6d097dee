/**
 * The player's equipment loadout: three slots, each empty or holding an
 * item, and the stat modifiers the loadout grants.
 */
module Equipment {
  import opened Wrappers

  datatype EquipmentSlot = Weapon | Armour | Accessory

  /** A C# `int`. */
  newtype Int32 = x: int | -0x8000_0000 <= x < 0x8000_0000

  /** An item asset; its name and description are text the model has no use for. */
  datatype EquipmentItem = EquipmentItem(id: nat, slot: EquipmentSlot, power: Int32, defence: Int32, focus: Int32)

  /** The three stats an item carries. */
  datatype Stat = Power | Defence | Focus

  const Modulus: int := 0x1_0000_0000

  /** Two's-complement wrap-around of an unchecked C# `int` sum. */
  function Wrap32(v: int): (r: Int32)
    ensures -0x8000_0000 <= v < 0x8000_0000 ==> r as int == v
    ensures (v - r as int) % Modulus == 0
  {
    ((v + 0x8000_0000) % Modulus - 0x8000_0000) as Int32
  }

  /** Values that differ by a multiple of 2^32 wrap to the same `int`. */
  lemma WrapCongruent(u: int, v: int)
    requires (u - v) % Modulus == 0
    ensures Wrap32(u) == Wrap32(v)
  {
  }

  /** Unchecked C# `int` addition. */
  function Add32(a: Int32, b: Int32): (r: Int32)
    ensures (a as int + b as int - r as int) % Modulus == 0
  {
    Wrap32(a as int + b as int)
  }

  /** The three serialised fields; the inspector lets any item sit in any field. */
  datatype Loadout = Loadout(weapon: Option<EquipmentItem>, armour: Option<EquipmentItem>, accessory: Option<EquipmentItem>)

  /** The field that holds a slot's item. */
  function Item(l: Loadout, slot: EquipmentSlot): Option<EquipmentItem>
  {
    match slot
    case Weapon => l.weapon
    case Armour => l.armour
    case Accessory => l.accessory
  }

  /** The slots in the order EquippedItems lists them. */
  const Slots: seq<EquipmentSlot> := [Weapon, Armour, Accessory]

  /** One stat of an item, with an empty slot counting 0. */
  function StatOf(item: Option<EquipmentItem>, stat: Stat): int
  {
    match item
    case None => 0
    case Some(i) =>
      match stat
      case Power => i.power as int
      case Defence => i.defence as int
      case Focus => i.focus as int
  }

  /** Which slots a stat's modifier sums over: power ignores armour, defence ignores the weapon. */
  predicate Counts(stat: Stat, slot: EquipmentSlot)
  {
    match stat
    case Power => slot != Armour
    case Defence => slot != Weapon
    case Focus => true
  }

  /** The stat summed over the counted slots, over unbounded integers. */
  function Total(l: Loadout, stat: Stat): int
  {
    TotalFrom(l, stat, 0)
  }

  function TotalFrom(l: Loadout, stat: Stat, k: nat): int
    requires k <= |Slots|
    decreases |Slots| - k
  {
    if k == |Slots| then 0
    else (if Counts(stat, Slots[k]) then StatOf(Item(l, Slots[k]), stat) else 0) + TotalFrom(l, stat, k + 1)
  }

  /** EquippedItems: weapon, armour, accessory, in that order, with None for an empty slot. */
  function EquippedItems(l: Loadout): (r: seq<Option<EquipmentItem>>)
    ensures |r| == |Slots|
    ensures forall k :: 0 <= k < |Slots| ==> r[k] == Item(l, Slots[k])
  {
    [l.weapon, l.armour, l.accessory]
  }

  /** An item's stat as its getter returns it, 0 for an empty slot. */
  function Part(item: Option<EquipmentItem>, stat: Stat): (r: Int32)
    ensures r as int == StatOf(item, stat)
  {
    match item
    case None => 0
    case Some(i) =>
      match stat
      case Power => i.power
      case Defence => i.defence
      case Focus => i.focus
  }

  /** PowerModifier: the weapon's and the accessory's power, wrapped to an `int`. */
  function PowerModifier(l: Loadout): (r: Int32)
    ensures r == Wrap32(Total(l, Power))
  {
    Add32(Part(l.weapon, Power), Part(l.accessory, Power))
  }

  /** DefenceModifier: the armour's and the accessory's defence, wrapped to an `int`. */
  function DefenceModifier(l: Loadout): (r: Int32)
    ensures r == Wrap32(Total(l, Defence))
  {
    Add32(Part(l.armour, Defence), Part(l.accessory, Defence))
  }

  /** FocusModifier: the focus of all three slots, each addition wrapped to an `int`. */
  function FocusModifier(l: Loadout): (r: Int32)
    ensures r == Wrap32(Total(l, Focus))
  {
    var (w, a, c) := (Part(l.weapon, Focus), Part(l.armour, Focus), Part(l.accessory, Focus));
    var partial := Add32(w, a);
    WrapCongruent(Total(l, Focus), partial as int + c as int);
    Add32(partial, c)
  }

  /** The modifier for a stat. */
  function Modifier(l: Loadout, stat: Stat): Int32
  {
    match stat
    case Power => PowerModifier(l)
    case Defence => DefenceModifier(l)
    case Focus => FocusModifier(l)
  }

  /** When the exact sum fits in an `int`, the modifier is that sum. */
  lemma ModifierExact(l: Loadout, stat: Stat)
    requires -0x8000_0000 <= Total(l, stat) < 0x8000_0000
    ensures Modifier(l, stat) as int == Total(l, stat)
  {
  }

  /** EquipItem: the field named by the item's slot takes the item. */
  function Equip(l: Loadout, item: EquipmentItem): (r: Loadout)
    ensures Item(r, item.slot) == Some(item)
    ensures forall s :: s != item.slot ==> Item(r, s) == Item(l, s)
  {
    match item.slot
    case Weapon => l.(weapon := Some(item))
    case Armour => l.(armour := Some(item))
    case Accessory => l.(accessory := Some(item))
  }

  /** Equipping the same item twice leaves the loadout as equipping it once. */
  lemma EquipIdempotent(l: Loadout, item: EquipmentItem)
    ensures Equip(Equip(l, item), item) == Equip(l, item)
  {
  }

  /** Items for different slots can be equipped in either order. */
  lemma EquipCommutes(l: Loadout, a: EquipmentItem, b: EquipmentItem)
    requires a.slot != b.slot
    ensures Equip(Equip(l, a), b) == Equip(Equip(l, b), a)
  {
  }

  /**
   * Equipping an item in a slot a stat does not count leaves that stat's
   * modifier unchanged; in a counted slot the exact sum changes by the
   * difference between the new item's stat and the replaced one's.
   */
  lemma EquipChangesTotal(l: Loadout, item: EquipmentItem, stat: Stat)
    ensures !Counts(stat, item.slot) ==> Modifier(Equip(l, item), stat) == Modifier(l, stat)
    ensures Counts(stat, item.slot) ==>
      Total(Equip(l, item), stat) == Total(l, stat) - StatOf(Item(l, item.slot), stat) + StatOf(Some(item), stat)
  {
  }

  /** The scene component holding the three fields. */
  class EquipmentLoadout {
    var weapon: Option<EquipmentItem>
    var armour: Option<EquipmentItem>
    var accessory: Option<EquipmentItem>

    function Current(): Loadout
      reads this
    {
      Loadout(weapon, armour, accessory)
    }

    /** A component as the editor creates it, with whatever the inspector placed in each field. */
    constructor (weapon: Option<EquipmentItem>, armour: Option<EquipmentItem>, accessory: Option<EquipmentItem>)
      ensures Current() == Loadout(weapon, armour, accessory)
    {
      this.weapon := weapon;
      this.armour := armour;
      this.accessory := accessory;
    }

    /** Puts the item into the field its slot names. */
    method EquipItem(item: EquipmentItem)
      modifies this
      ensures Current() == Equip(old(Current()), item)
    {
      match item.slot
      case Weapon =>
        weapon := Some(item);
      case Armour =>
        armour := Some(item);
      case Accessory =>
        accessory := Some(item);
    }
  }
}
