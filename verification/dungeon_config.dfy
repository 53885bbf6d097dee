/**
 * DungeonConfig: the designer-authored settings of the generator. The raw
 * serialised fields are kept as they are; the accessors clamp the budget and
 * the grid size and hand everything else back verbatim.
 */
module DungeonConfig {
  import opened Wrappers
  import opened UnityMath

  /** A room prefab reference; the model only needs to tell prefabs apart. */
  datatype Prefab = Prefab(id: nat)

  /** The serialised fields of a DungeonConfig asset. */
  datatype Config = Config(
    roomBudget: int,
    gridSize: Vector2Int,
    defaultRoomPrefab: Option<Prefab>,          // None: no prefab assigned
    specialRoomPrefabs: Option<seq<Prefab>>,    // None: a null array
    seed: int)                                  // 0: randomise on each generation

  /** The field values of a newly created asset. */
  const NewAsset := Config(12, Vector2Int(8, 8), None, Some([]), 0)

  /** Number of walk steps (including the origin): never below 1. */
  function RoomBudget(c: Config): (b: int)
    ensures b >= 1
    ensures c.roomBudget >= 1 ==> b == c.roomBudget
    ensures c.roomBudget < 1 ==> b == 1
  {
    Max(1, c.roomBudget)
  }

  /** Grid size explored by the walk: each component never below 2. */
  function GridSize(c: Config): (g: Vector2Int)
    ensures g.x >= 2 && g.y >= 2
    ensures c.gridSize.x >= 2 ==> g.x == c.gridSize.x
    ensures c.gridSize.y >= 2 ==> g.y == c.gridSize.y
    ensures c.gridSize.x < 2 ==> g.x == 2
    ensures c.gridSize.y < 2 ==> g.y == 2
  {
    Vector2Int(Max(2, c.gridSize.x), Max(2, c.gridSize.y))
  }

  function DefaultRoomPrefab(c: Config): Option<Prefab>
  {
    c.defaultRoomPrefab
  }

  function SpecialRoomPrefabs(c: Config): Option<seq<Prefab>>
  {
    c.specialRoomPrefabs
  }

  function Seed(c: Config): int
  {
    c.seed
  }

  /** The config with its budget and grid size replaced by their clamped values. */
  function Clamped(c: Config): Config
  {
    c.(roomBudget := RoomBudget(c), gridSize := GridSize(c))
  }

  /**
   * Clamping is idempotent, and the prefab and seed accessors are not clamped:
   * storing the accessor values back into the asset changes no accessor.
   */
  lemma ClampedChangesNoAccessor(c: Config)
    ensures RoomBudget(Clamped(c)) == RoomBudget(c)
    ensures GridSize(Clamped(c)) == GridSize(c)
    ensures DefaultRoomPrefab(Clamped(c)) == DefaultRoomPrefab(c)
    ensures SpecialRoomPrefabs(Clamped(c)) == SpecialRoomPrefabs(c)
    ensures Seed(Clamped(c)) == Seed(c)
  {
  }

  /** A new asset asks for 12 rooms on an 8 x 8 grid with a randomised seed, and no clamp alters that. */
  lemma NewAssetDefaults()
    ensures RoomBudget(NewAsset) == 12
    ensures GridSize(NewAsset) == Vector2Int(8, 8)
    ensures Seed(NewAsset) == 0
    ensures DefaultRoomPrefab(NewAsset).None?
    ensures SpecialRoomPrefabs(NewAsset) == Some([])
  {
  }
}
