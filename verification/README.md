# ChronoDepths gameplay core in Dafny

This project models four scripts of the ChronoDepths Unity prototype and proves properties of them:

- **The dungeon generator** (`DungeonGenerator`, `DungeonConfig`). A seeded random walk on a grid places room prefabs, starting from the origin `(0,0)`. Each step probes up to 32 random directions for the next cell, clamped to the grid's half-extents. A free cell receives a room; an occupied one only moves the walk. Late in the walk (progress `index / totalCount` above 0.8), a free cell takes one of the configured special prefabs, if there are any.
- **The card deck** (`CardDeckController`). A draw pile, a hand and a discard pile. The deck is Fisher-Yates shuffled and drawn from the top. An empty draw pile is refilled from the shuffled discard pile. Played cards are discarded.
- **The equipment loadout** (`EquipmentLoadout`). Three slots (weapon, armour, accessory) are set by `EquipItem`. Stat modifiers sum only certain slots per stat.

## How the model is built

- **`SystemRandom`.** `System.Random` is modelled as a value `Rng(stream, used)`: the seeded generator's raw output stream and the number of draws made so far. `Next(n)` takes the next raw value modulo `n`. That mapping is a modelling choice: the runtime's `Next(n)` scales a floating-point sample, `floor(sample * n)`. Because the model draws every bound from one shared stream, draws with different bounds at the same position are linked (`x % 2 == (x % 4) % 2`), which the runtime's draws are not. No property proved here depends on this link; "same stream" means "same draws in the model", not the same values as .NET. The runtime's seed-to-stream algorithm is a parameter `algorithm`. Unity's `Random.Range`, used when no seed is set, is a parameter `entropy`. "Same seed, same layout" therefore holds as "same stream, same result": every result is a function of the stream.
- **`UnityMath`.** `Vector2Int`, `Mathf.Max` and `Mathf.Clamp`.
  - C#'s `/ 2` truncates toward zero, so it is written out as `HalfTowardZero`. Dafny's own `/` is Euclidean.
- **`DungeonConfig`.** The serialised fields as a datatype. The clamping accessors are functions.
- **`DungeonGenerator`.** The MonoBehaviour is a class:
  - `spawnedRooms` is a `map`, `traversalOrder` a `seq`, and `pseudoRandom` an `Option<Rng>`.
  - Its methods keep the source's loops: the `for` walk and the `do … while` probe with its guard.
  - Each method is proved equal to a specification function: `ProbeFrom`, `SelectPrefab`, and `WalkStep` / `WalkFrom` / `Generate`.
  - Lemmas about those functions prove the layout invariants.
- **`CardDeck`.** The component is a class whose three piles are `seq` fields.
  - `Shuffle` keeps the in-place swap loop.
  - Each other method is proved equal to a function on a `Deck` value: `DrawOne`, `DrawToFull`, `Initialised`, `PlayCard` and `DiscardAll`.
  - Lemmas prove conservation of cards, the stopping condition and the drawing order about those functions.
- **`Equipment`.** The component is a class with three `Option` fields, and `EquipItem` assigns one of them.
  - The modifiers are pure expressions in the source, so they are functions on a `Loadout` value.
  - C# `int` addition is unchecked, so the modifiers wrap modulo 2^32 (`Wrap32`).
  - Each modifier is proved equal to the wrapped value of an independent sum over the slots the stat counts (`Total`).

Four facts about the code that a reader might expect to be otherwise:

- `GenerateDungeon` returns early without a default prefab, leaving the previous layout in place. No fallback room template is synthesised.
- Progress is `index / totalCount`, not `index / (totalCount - 1)`.
- The origin room always receives the default prefab. The prefab selector is not consulted for it and makes no draw.
- The grid runs from `-(size / 2)` to `size / 2` on each axis, so a 2 x 2 grid has 3 x 3 = 9 usable cells.

## Model

| member | source | states |
|---|---|---|
| SystemRandom.Seeded | Assets/Scripts/Dungeon/DungeonGenerator.cs:86 | a freshly seeded generator has made no draw yet |
| SystemRandom.Next | Assets/Scripts/Dungeon/DungeonGenerator.cs:113 | a draw `Next(n)` lies in [0, n), comes from the same stream and advances it by exactly one |
| UnityMath.Max | Assets/Scripts/Dungeon/DungeonConfig.cs:30-31 | Mathf.Max is an upper bound of both arguments and equal to one of them |
| UnityMath.Clamp | Assets/Scripts/Dungeon/DungeonGenerator.cs:115-116 | Mathf.Clamp returns the lower bound below it, the value itself inside the range, the upper bound above it (testing the lower bound first, so an empty range yields the lower bound below it and the upper one otherwise), and always lands in a non-empty range |
| UnityMath.HalfTowardZero | Assets/Scripts/Dungeon/DungeonGenerator.cs:115-116 | C# `v / 2` truncates toward zero: for v >= 0 it lies in [v/2 - 1/2, v/2], for v < 0 in [v/2, v/2 + 1/2] |
| DungeonConfig.RoomBudget | Assets/Scripts/Dungeon/DungeonConfig.cs:30 | the budget is at least 1, the serialised value when that is at least 1, else 1 |
| DungeonConfig.GridSize | Assets/Scripts/Dungeon/DungeonConfig.cs:31 | each grid dimension is at least 2, the serialised value when that is at least 2, else 2 |
| DungeonConfig.DefaultRoomPrefab | Assets/Scripts/Dungeon/DungeonConfig.cs:32 | the default prefab as stored, None when none is assigned |
| DungeonConfig.SpecialRoomPrefabs | Assets/Scripts/Dungeon/DungeonConfig.cs:33 | the special prefab array as stored, None for a null array |
| DungeonConfig.Seed | Assets/Scripts/Dungeon/DungeonConfig.cs:34 | the seed as stored; 0 asks for a randomised seed |
| DungeonConfig.ClampedChangesNoAccessor | Assets/Scripts/Dungeon/DungeonConfig.cs:30-34 | storing the accessor values back into the asset changes no accessor: clamping is idempotent and the prefab and seed accessors are verbatim |
| DungeonConfig.NewAssetDefaults | Assets/Scripts/Dungeon/DungeonConfig.cs:14-28 | a new asset asks for 12 rooms on an 8 x 8 grid with seed 0 (randomise), no default prefab and an empty special list |
| DungeonGenerator.Direction | Assets/Scripts/Dungeon/DungeonGenerator.cs:99-105 | the `directions` array up, down, left, right; every entry is a unit step along one axis |
| DungeonGenerator.HalfExtents | Assets/Scripts/Dungeon/DungeonGenerator.cs:108-116 | on a grid of size at least 2 the clamp bound is at least 1 and at most half the size, so the grid has at least 3 cells per axis and the origin is inside it |
| DungeonGenerator.NegatedHalf | Assets/Scripts/Dungeon/DungeonGenerator.cs:115-116 | `-extent / 2` equals `-(extent / 2)` under C# truncation, so the clamp range is symmetric about the origin |
| DungeonGenerator.Candidate | Assets/Scripts/Dungeon/DungeonGenerator.cs:113-116 | one probe: a unit step in the drawn direction, each axis then clamped to [-h, h]; on a grid with non-negative half-extents the result always lies in the grid |
| DungeonGenerator.CandidateNearby | Assets/Scripts/Dungeon/DungeonGenerator.cs:113-116 | from a cell inside the grid, a step in any of the four directions followed by the clamp stays inside the grid and is the cell itself or a cardinal neighbour |
| DungeonGenerator.ProbeFrom | Assets/Scripts/Dungeon/DungeonGenerator.cs:107-119 | the do-while loop: draw a direction, compute the candidate, repeat while fewer than 32 probes are made and the candidate is occupied; yields the last candidate and the generator after the draws (its properties are ProbeDraws and ProbeLands) |
| DungeonGenerator.ProbeDraws | Assets/Scripts/Dungeon/DungeonGenerator.cs:107-119 | the probe makes between 1 and 32 draws from the same stream; every candidate before the last one was occupied; an occupied result means all 32 were used; the result is the candidate of the last draw |
| DungeonGenerator.ProbeLands | Assets/Scripts/Dungeon/DungeonGenerator.cs:107-119 | the probed cell lies in the grid and is the current cell or one of its neighbours |
| DungeonGenerator.Late | Assets/Scripts/Dungeon/DungeonGenerator.cs:129-130 | `(float)index / totalCount > 0.8f` on integers: `5 * index > 4 * totalCount` for a non-negative count (a zero count gives infinity or NaN), the comparison reversed for a negative one |
| DungeonGenerator.SelectPrefab | Assets/Scripts/Dungeon/DungeonGenerator.cs:122-136 | the choice is always an offered prefab; without a non-empty special list, or before progress exceeds 0.8, it is the default prefab and makes no draw; otherwise it is the special prefab at one draw below the list's length |
| DungeonGenerator.SmallBudgetNeverSpecial | Assets/Scripts/Dungeon/DungeonGenerator.cs:48-57 | with a budget of 5 or less, no loop index reaches progress above 0.8, so every room is default |
| DungeonGenerator.Start | Assets/Scripts/Dungeon/DungeonGenerator.cs:45-46 | the state after the origin room: one room at (0,0) with the default prefab, the walk standing on it |
| DungeonGenerator.WalkStep | Assets/Scripts/Dungeon/DungeonGenerator.cs:49-59 | one loop iteration: probe; an occupied cell only moves the walk, a free one also receives the selected prefab and is appended to the order (its properties are WalkStepGrows and WalkStepKeeps) |
| DungeonGenerator.WalkFrom | Assets/Scripts/Dungeon/DungeonGenerator.cs:48-60 | the loop from iteration `i` up to RoomBudget - 1 (its properties are WalkFromExtends, WalkFromCounts and WalkFromKeeps) |
| DungeonGenerator.Generate | Assets/Scripts/Dungeon/DungeonGenerator.cs:43-60 | the whole generation from a seeded generator: Start, then the loop from iteration 1 on the configured grid (its properties are GenerateFacts and NoSpecialsAllDefault) |
| DungeonGenerator.SpawnKeepsLayout | Assets/Scripts/Dungeon/DungeonGenerator.cs:89-95 | recording a room at a free in-grid cell next to an existing room keeps the layout invariants: origin first, order and dictionary keys the same set without duplicates, every room in the grid, adjacent to an earlier room, with an offered prefab |
| DungeonGenerator.WalkStepGrows | Assets/Scripts/Dungeon/DungeonGenerator.cs:48-60 | one loop iteration never removes or replaces a room, adds at most one, and makes between 1 and 33 draws |
| DungeonGenerator.WalkStepKeeps | Assets/Scripts/Dungeon/DungeonGenerator.cs:48-60 | one loop iteration keeps the layout invariants and leaves the walk standing on a room |
| DungeonGenerator.WalkFromPreserves | Assets/Scripts/Dungeon/DungeonGenerator.cs:48-60 | any property of the state that every loop iteration keeps holds when the loop ends |
| DungeonGenerator.WalkFromExtends | Assets/Scripts/Dungeon/DungeonGenerator.cs:48-60 | the remaining iterations never remove or replace a room or change the draw stream |
| DungeonGenerator.WalkFromCounts | Assets/Scripts/Dungeon/DungeonGenerator.cs:48-60 | the remaining iterations add at most one room each and make between 1 and 33 draws each |
| DungeonGenerator.WalkFromKeeps | Assets/Scripts/Dungeon/DungeonGenerator.cs:48-60 | the remaining iterations keep the layout invariants |
| DungeonGenerator.GenerateFacts | Assets/Scripts/Dungeon/DungeonGenerator.cs:43-60 | a generated layout satisfies every layout invariant, has between 1 and RoomBudget rooms with as many order entries as rooms, ends on a room, and is only the origin when the budget is 1 |
| DungeonGenerator.NoSpecialsAllDefault | Assets/Scripts/Dungeon/DungeonGenerator.cs:122-127 | without special prefabs every generated room uses the default prefab |
| DungeonGenerator.Generator.constructor | Assets/Scripts/Dungeon/DungeonGenerator.cs:13-24 | a new component has its configuration, no rooms, an empty order and no generator |
| DungeonGenerator.Generator.GenerateDungeon | Assets/Scripts/Dungeon/DungeonGenerator.cs:29-63 | with no configuration or no default prefab nothing changes; otherwise the rooms, the order and the generator are those of `Generate` from a generator seeded with the configured seed, or with the entropy when the seed is 0 |
| DungeonGenerator.Generator.PrepareGeneration | Assets/Scripts/Dungeon/DungeonGenerator.cs:65-87 | the rooms and order are emptied and a new generator is seeded with the configured seed, or with the entropy when it is 0 |
| DungeonGenerator.Generator.SpawnRoom | Assets/Scripts/Dungeon/DungeonGenerator.cs:89-95 | a room at a cell without one is added to the dictionary, which grows by one, and appended to the order |
| DungeonGenerator.Generator.StepToNextCoordinate | Assets/Scripts/Dungeon/DungeonGenerator.cs:97-120 | the retry loop returns the `ProbeFrom` cell and generator; from a cell in the grid the result is in the grid, the cell or a neighbour, after 1 to 32 draws, and all 32 when it is occupied |
| DungeonGenerator.Generator.SelectRoomPrefab | Assets/Scripts/Dungeon/DungeonGenerator.cs:122-136 | returns the prefab and advances the generator exactly as `SelectPrefab` specifies |
| CardDeck.Swap | Assets/Scripts/Cards/CardDeckController.cs:95 | the tuple swap exchanges the two entries and leaves every other entry in place |
| CardDeck.SwapPermutes | Assets/Scripts/Cards/CardDeckController.cs:95 | a swap keeps the pile's multiset of cards |
| CardDeck.ShuffleFrom | Assets/Scripts/Cards/CardDeckController.cs:92-96 | the Fisher-Yates loop from position `i` down to 1, one swap with a drawn lower-or-equal position each; keeps the pile's length (its properties are ShufflePermutes, ShuffleKeepsAbove and ShuffleDraws) |
| CardDeck.Shuffled | Assets/Scripts/Cards/CardDeckController.cs:90-97 | shuffling a whole pile starts the loop at its last position; keeps the pile's length |
| CardDeck.ShufflePermutes | Assets/Scripts/Cards/CardDeckController.cs:90-97 | the Fisher-Yates loop yields a permutation of the pile |
| CardDeck.ShuffleKeepsAbove | Assets/Scripts/Cards/CardDeckController.cs:90-97 | the positions the loop has already passed are left alone by the rest of the loop |
| CardDeck.ShuffleDraws | Assets/Scripts/Cards/CardDeckController.cs:90-97 | shuffling a pile of n cards makes exactly n - 1 draws (none for n <= 1) from the same stream |
| CardDeck.IndexOf | Assets/Scripts/Cards/CardDeckController.cs:73 | List.IndexOf is -1 exactly when the card is absent, and otherwise the first position holding it |
| CardDeck.RemoveAt | Assets/Scripts/Cards/CardDeckController.cs:79 | removing one position shortens the hand by one, keeps every entry before it in place and shifts every entry after it down by one, and removes exactly that card from its multiset |
| CardDeck.Refill | Assets/Scripts/Cards/CardDeckController.cs:52-62 | the pile drawn from is never empty, the hand is untouched, and the draw and discard piles together keep their size |
| CardDeck.DrawOne | Assets/Scripts/Cards/CardDeckController.cs:50-69 | a draw keeps the deck well formed, and a successful draw takes one card out of the draw and discard piles |
| CardDeck.TakeTop | Assets/Scripts/Cards/CardDeckController.cs:64-67 | the last card of the draw pile is removed from it and appended to the hand (its property is TakeTopConserves) |
| CardDeck.DrawOneOutcome | Assets/Scripts/Cards/CardDeckController.cs:50-69 | a draw fails, changing nothing, exactly when both piles are empty; otherwise the last card of the draw pile moves to the end of the hand, and an empty draw pile is first replaced by the shuffled discard pile, which is left empty |
| CardDeck.DrawOneConserves | Assets/Scripts/Cards/CardDeckController.cs:50-69 | a draw loses no card and creates none |
| CardDeck.RefillConserves | Assets/Scripts/Cards/CardDeckController.cs:59-61 | moving the discard pile into the draw pile and shuffling it keeps every card |
| CardDeck.TakeTopConserves | Assets/Scripts/Cards/CardDeckController.cs:64-67 | moving the top card into the hand keeps every card |
| CardDeck.DrawToFull | Assets/Scripts/Cards/CardDeckController.cs:39-48 | filling the hand keeps the deck well formed |
| CardDeck.DrawToFullConserves | Assets/Scripts/Cards/CardDeckController.cs:39-48 | filling the hand loses no card and creates none |
| CardDeck.DrawToFullStops | Assets/Scripts/Cards/CardDeckController.cs:39-48 | filling stops with at least handSize cards or with nothing left to draw, only appends to the hand, and never goes beyond the larger of handSize and the old hand size |
| CardDeck.DrawToFullFromTop | Assets/Scripts/Cards/CardDeckController.cs:39-48 | with an empty discard pile the drawn cards are the top of the draw pile in reverse order, and neither the discard pile nor the generator changes |
| CardDeck.Initialised | Assets/Scripts/Cards/CardDeckController.cs:27-37 | an initialised deck is well formed |
| CardDeck.InitialisedFacts | Assets/Scripts/Cards/CardDeckController.cs:27-37 | after initialisation the discard pile is empty, draw pile and hand are a permutation of the starting deck, the hand holds min(max(handSize, 0), deck size) cards, and they are the top of the shuffled deck |
| CardDeck.PlayCard | Assets/Scripts/Cards/CardDeckController.cs:71-82 | no change and false when IndexOf finds nothing; otherwise that position is removed from the hand and the card appended to the discard pile (its properties are PlayCardFacts) |
| CardDeck.PlayCardFacts | Assets/Scripts/Cards/CardDeckController.cs:71-82 | a play succeeds exactly when the card is in the hand; a failed play changes nothing; a successful one removes the first occurrence of the card from the hand, keeping the other cards in order, and puts it at the end of the discard pile; no card is lost |
| CardDeck.DiscardAll | Assets/Scripts/Cards/CardDeckController.cs:84-88 | the hand, in order, is appended to the discard pile and the hand emptied (its properties are DiscardAllConserves) |
| CardDeck.DiscardAllConserves | Assets/Scripts/Cards/CardDeckController.cs:84-88 | discarding the hand empties it and loses no card |
| CardDeck.CardDeckController.constructor | Assets/Scripts/Cards/CardDeckController.cs:12-21 | a new component holds its serialised deck and hand size, empty piles and no generator |
| CardDeck.CardDeckController.InitialiseDeck | Assets/Scripts/Cards/CardDeckController.cs:27-37 | the new state is `Initialised` from a generator seeded with the given seed, or with the entropy when none is given |
| CardDeck.CardDeckController.DrawToFullHand | Assets/Scripts/Cards/CardDeckController.cs:39-48 | the while loop leaves the state `DrawToFull` specifies |
| CardDeck.CardDeckController.TryDrawOne | Assets/Scripts/Cards/CardDeckController.cs:50-69 | the result and new state are those of `DrawOne` |
| CardDeck.CardDeckController.TryPlayCard | Assets/Scripts/Cards/CardDeckController.cs:71-82 | the result and new state are those of `PlayCard` |
| CardDeck.CardDeckController.DiscardHand | Assets/Scripts/Cards/CardDeckController.cs:84-88 | the new state is that of `DiscardAll` |
| CardDeck.CardDeckController.Shuffle | Assets/Scripts/Cards/CardDeckController.cs:90-97 | the in-place swap loop leaves the draw pile and generator that `Shuffled` specifies |
| Equipment.Wrap32 | Assets/Scripts/Equipment/EquipmentLoadout.cs:34-36 | wrap-around leaves an in-range value unchanged and always differs from its input by a multiple of 2^32 |
| Equipment.Add32 | Assets/Scripts/Equipment/EquipmentLoadout.cs:34-36 | unchecked `int` addition agrees with the exact sum modulo 2^32 |
| Equipment.EquippedItems | Assets/Scripts/Equipment/EquipmentLoadout.cs:21-32 | the list always has 3 entries, the weapon, armour and accessory fields in that order, with None for an empty slot |
| Equipment.Part | Assets/Scripts/Equipment/EquipmentLoadout.cs:34-36 | the `?.Stat ?? 0` term is the item's stat, and 0 for an empty slot |
| Equipment.PowerModifier | Assets/Scripts/Equipment/EquipmentLoadout.cs:34 | the power modifier is the wrapped sum of power over the counted slots (weapon and accessory, not armour) |
| Equipment.DefenceModifier | Assets/Scripts/Equipment/EquipmentLoadout.cs:35 | the defence modifier is the wrapped sum of defence over the counted slots (armour and accessory, not weapon) |
| Equipment.FocusModifier | Assets/Scripts/Equipment/EquipmentLoadout.cs:36 | the focus modifier, with both additions wrapped, is the wrapped sum of focus over all three slots |
| Equipment.ModifierExact | Assets/Scripts/Equipment/EquipmentLoadout.cs:34-36 | when the exact sum fits in an `int`, each modifier equals it |
| Equipment.Equip | Assets/Scripts/Equipment/EquipmentLoadout.cs:43-57 | the slot named by the item holds the item and the other two slots are unchanged |
| Equipment.EquipIdempotent | Assets/Scripts/Equipment/EquipmentLoadout.cs:43-57 | equipping the same item twice gives the same loadout as equipping it once |
| Equipment.EquipCommutes | Assets/Scripts/Equipment/EquipmentLoadout.cs:43-57 | items for different slots can be equipped in either order |
| Equipment.EquipChangesTotal | Assets/Scripts/Equipment/EquipmentLoadout.cs:34-57 | equipping into a slot a stat ignores leaves that modifier unchanged; into a counted slot, the stat's sum changes by the new item's value minus the replaced one's |
| Equipment.EquipmentLoadout.constructor | Assets/Scripts/Equipment/EquipmentLoadout.cs:12-19 | a new component holds whatever items its three fields were given |
| Equipment.EquipmentLoadout.EquipItem | Assets/Scripts/Equipment/EquipmentLoadout.cs:43-57 | the new loadout is `Equip` of the old one |

## Left out

- Scene work is left out: `Instantiate`, the destruction of `dungeonRoot`'s children under `clearPrevious`, world positions (`x * 20f`), and all `Debug.Log` / `Debug.LogError` output. A spawned room is recorded by the prefab it was made from.
- `System.Random`'s algorithm (a .NET runtime component) and Unity's `Random.Range` are parameters. `entropy` may be any integer, not only one in [int.MinValue, int.MaxValue).
- Float progress: `(float)index / totalCount > 0.8f` is modelled exactly, on integers, including a zero or negative count. Single-precision rounding is not modelled. It changes the outcome from a room budget of 4,793,491 up: with that count and index 3,834,793, the exact quotient exceeds 0.8 but rounds to `0.8f`, so the source draws no special prefab where `Late` says it would.
- `ApplyLoadoutModifiers` only writes a log line and is not modelled.
- Null items are not modelled.
  - An `EquipItem(null)` or `TryPlayCard(null)` call, and a null entry inside the special prefab array, cannot be expressed: items, cards and prefabs in the model are never null.
  - A null special list and a missing default prefab are modelled.
- `CardData` and `EquipmentItem` are Unity assets compared by reference. They are modelled as values distinguished by an id. Their display names, descriptions and artwork are not modelled.
- `Shuffle(pile)` takes the pile as a parameter, but it is only ever applied to the draw pile. The model shuffles the draw pile field.
- Integers other than the equipment stats are unbounded: room budget, grid size, hand size and pile sizes. The source's loops never approach `int` limits with them.
- `Assets/Scripts/Core` and `Assets/Scripts/TimeSystem` are not part of this model.
- DungeonGenerator.SelectPrefab: requires a default prefab. It is only reached after `GenerateDungeon` has returned early when there is none. Without that guard the source would return null.
- DungeonGenerator.Generator.StepToNextCoordinate: the grid and adjacency facts are stated for a current cell inside the grid. The walk only ever stands on such a cell. The link to `ProbeFrom` is stated for every cell.
