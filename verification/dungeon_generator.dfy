/**
 * DungeonGenerator: a random walk over a bounded grid that places one room per
 * newly reached cell. The walk is specified by pure functions (one run of
 * StepToNextCoordinate's retry loop, one prefab choice, one iteration of the
 * outer loop, the whole walk); the Generator class updates its dictionary,
 * list and generator fields in place and is proved to end in exactly the state
 * those functions describe. The lemmas prove the layout's invariants about the
 * functions.
 */
module DungeonGenerator {
  import opened Wrappers
  import opened UnityMath
  import opened SystemRandom
  import opened DungeonConfig

  /** StepToNextCoordinate's retry guard. */
  const MaxProbes := 32

  /** The first room is always placed here. */
  const Origin := Zero

  /** The source's `directions` array, in its order. */
  function Direction(d: nat): (r: Vector2Int)
    requires d < 4
    ensures (r.x == 0 && (r.y == 1 || r.y == -1)) || (r.y == 0 && (r.x == 1 || r.x == -1))
  {
    [Up, Down, Left, Right][d]
  }

  /**
   * The upper clamp bounds `gridExtents.x / 2` and `gridExtents.y / 2`, with
   * C#'s truncating division. The lower bounds `-gridExtents.x / 2` are their
   * negations (NegatedHalf), so the walk's range is [-h.x, h.x] x [-h.y, h.y].
   */
  function HalfExtents(size: Vector2Int): (h: Vector2Int)
    ensures size.x >= 2 ==> h.x >= 1 && 2 * h.x <= size.x
    ensures size.y >= 2 ==> h.y >= 1 && 2 * h.y <= size.y
  {
    Vector2Int(HalfTowardZero(size.x), HalfTowardZero(size.y))
  }

  /** `-w / 2` in C# is `-(w / 2)`: truncation toward zero is symmetric. */
  lemma NegatedHalf(v: int)
    ensures HalfTowardZero(-v) == -HalfTowardZero(v)
  {
  }

  /** The cell lies in [-h.x, h.x] x [-h.y, h.y]. */
  predicate InGrid(c: Vector2Int, h: Vector2Int)
  {
    -h.x <= c.x <= h.x && -h.y <= c.y <= h.y
  }

  /** The two cells are cardinal neighbours. */
  predicate Adjacent(a: Vector2Int, b: Vector2Int)
  {
    (a.x == b.x && (a.y - b.y == 1 || b.y - a.y == 1))
    || (a.y == b.y && (a.x - b.x == 1 || b.x - a.x == 1))
  }

  /** One probe: move one cell in direction `d`, then clamp each axis into the grid. */
  function Candidate(current: Vector2Int, d: nat, h: Vector2Int): (r: Vector2Int)
    requires d < 4
    ensures h.x >= 0 && h.y >= 0 ==> InGrid(r, h)
  {
    var moved := Add(current, Direction(d));
    Vector2Int(Clamp(moved.x, -h.x, h.x), Clamp(moved.y, -h.y, h.y))
  }

  /** A probe from a cell of the grid stays in the grid, on the cell itself or next to it. */
  lemma CandidateNearby(current: Vector2Int, d: nat, h: Vector2Int)
    requires d < 4 && InGrid(current, h)
    ensures InGrid(Candidate(current, d, h), h)
    ensures Candidate(current, d, h) == current || Adjacent(current, Candidate(current, d, h))
  {
  }

  /**
   * The do-while loop of StepToNextCoordinate after `guard` probes: probe, and
   * probe again while the guard allows it and the candidate is occupied. Yields
   * the last candidate and the generator after the draws.
   */
  function ProbeFrom(current: Vector2Int, h: Vector2Int, occupied: set<Vector2Int>, rng: Rng, guard: nat)
    : (Vector2Int, Rng)
    requires guard < MaxProbes
    decreases MaxProbes - guard
  {
    var (d, after) := Next(rng, 4);
    var candidate := Candidate(current, d, h);
    if guard + 1 < MaxProbes && candidate in occupied then
      ProbeFrom(current, h, occupied, after, guard + 1)
    else
      (candidate, after)
  }

  /** The direction index of the generator's most recent draw of `Next(4)`. */
  function LastDirection(r: Rng): (d: nat)
    requires r.used >= 1
    ensures d < 4
  {
    r.stream(r.used - 1) % 4
  }

  /**
   * StepToNextCoordinate makes between 1 and 32 draws; it returns a free cell,
   * or else has used all 32 draws; either way the result is the candidate of
   * the last draw.
   */
  lemma {:induction false} ProbeDraws(current: Vector2Int, h: Vector2Int, occupied: set<Vector2Int>,
                                      rng: Rng, guard: nat)
    requires guard < MaxProbes
    ensures var r := ProbeFrom(current, h, occupied, rng, guard);
      && r.1.stream == rng.stream
      && rng.used + 1 <= r.1.used <= rng.used + (MaxProbes - guard)
      && (r.0 in occupied ==> r.1.used == rng.used + (MaxProbes - guard))
      && r.0 == Candidate(current, LastDirection(r.1), h)
      && (forall k :: rng.used <= k < r.1.used - 1 ==> Candidate(current, rng.stream(k) % 4, h) in occupied)
    decreases MaxProbes - guard
  {
    var n := Next(rng, 4);
    var candidate := Candidate(current, n.0, h);
    if guard + 1 < MaxProbes && candidate in occupied {
      ProbeDraws(current, h, occupied, n.1, guard + 1);
    }
  }

  /** The cell StepToNextCoordinate returns lies in the grid and is `current` itself or one of its neighbours. */
  lemma ProbeLands(current: Vector2Int, h: Vector2Int, occupied: set<Vector2Int>, rng: Rng, guard: nat)
    requires guard < MaxProbes && InGrid(current, h)
    ensures var r := ProbeFrom(current, h, occupied, rng, guard);
      && InGrid(r.0, h)
      && (r.0 == current || Adjacent(current, r.0))
  {
    ProbeDraws(current, h, occupied, rng, guard);
    var r := ProbeFrom(current, h, occupied, rng, guard);
    CandidateNearby(current, LastDirection(r.1), h);
  }

  /** A special prefab list exists and is not empty. */
  predicate HasSpecials(c: Config)
  {
    c.specialRoomPrefabs.Some? && |c.specialRoomPrefabs.value| > 0
  }

  /**
   * Walk progress `index / totalCount`, a float division, exceeds 0.8. A
   * negative count flips the comparison; a count of 0 gives +infinity for a
   * positive index and NaN, which is never greater, otherwise.
   */
  predicate Late(index: int, totalCount: int)
  {
    if totalCount >= 0 then 5 * index > 4 * totalCount else 5 * index < 4 * totalCount
  }

  /** A prefab the configuration can hand out: the default one or one of the special ones. */
  predicate AllowedPrefab(c: Config, p: Prefab)
  {
    c.defaultRoomPrefab == Some(p)
    || (c.specialRoomPrefabs.Some? && p in c.specialRoomPrefabs.value)
  }

  /**
   * SelectRoomPrefab: the default prefab, without a draw, unless a special list
   * is present and non-empty and the walk is late; then one special prefab,
   * chosen by one draw below the list's length.
   */
  function SelectPrefab(c: Config, index: int, totalCount: int, rng: Rng): (r: (Prefab, Rng))
    requires c.defaultRoomPrefab.Some?
    ensures AllowedPrefab(c, r.0)
    ensures !(HasSpecials(c) && Late(index, totalCount)) ==> r.0 == c.defaultRoomPrefab.value && r.1 == rng
    ensures HasSpecials(c) && Late(index, totalCount) ==>
      && r.0 in c.specialRoomPrefabs.value
      && r.1.stream == rng.stream && r.1.used == rng.used + 1
      && r.0 == c.specialRoomPrefabs.value[rng.stream(rng.used) % |c.specialRoomPrefabs.value|]
  {
    if !HasSpecials(c) then
      (c.defaultRoomPrefab.value, rng)
    else if Late(index, totalCount) then
      var (k, after) := Next(rng, |c.specialRoomPrefabs.value|);
      (c.specialRoomPrefabs.value[k], after)
    else
      (c.defaultRoomPrefab.value, rng)
  }

  /**
   * Progress is `index / totalCount`, and the loop's last index is
   * RoomBudget - 1, so with a budget of 5 or less no room is ever special.
   */
  lemma SmallBudgetNeverSpecial(c: Config, index: int, rng: Rng)
    requires c.defaultRoomPrefab.Some? && 1 <= index < RoomBudget(c) <= 5
    ensures SelectPrefab(c, index, RoomBudget(c), rng).0 == c.defaultRoomPrefab.value
  {
  }

  /** The generator's observable state during a walk, plus the walk position. */
  datatype WalkState = WalkState(rooms: map<Vector2Int, Prefab>, order: seq<Vector2Int>,
                                 position: Vector2Int, rng: Rng)

  /**
   * Iteration `i` of GenerateDungeon's loop on a grid of half-extents `h`:
   * probe for the next cell; an occupied cell only moves the walk, a free one
   * also receives a room.
   */
  function WalkStep(c: Config, h: Vector2Int, i: int, s: WalkState): WalkState
    requires c.defaultRoomPrefab.Some?
  {
    var (next, afterProbe) := ProbeFrom(s.position, h, s.rooms.Keys, s.rng, 0);
    if next in s.rooms then
      s.(position := next, rng := afterProbe)
    else
      var (prefab, afterSelect) := SelectPrefab(c, i, RoomBudget(c), afterProbe);
      WalkState(s.rooms[next := prefab], s.order + [next], next, afterSelect)
  }

  /** Iterations `i` up to RoomBudget - 1 of the loop. */
  function WalkFrom(c: Config, h: Vector2Int, i: int, s: WalkState): WalkState
    requires c.defaultRoomPrefab.Some?
    decreases RoomBudget(c) - i
  {
    if i < RoomBudget(c) then WalkFrom(c, h, i + 1, WalkStep(c, h, i, s)) else s
  }

  /** The state just after the origin room is spawned. */
  function Start(c: Config, rng: Rng): WalkState
    requires c.defaultRoomPrefab.Some?
  {
    WalkState(map[Origin := c.defaultRoomPrefab.value], [Origin], Origin, rng)
  }

  /** The whole generation from a freshly seeded generator. */
  function Generate(c: Config, rng: Rng): WalkState
    requires c.defaultRoomPrefab.Some?
  {
    WalkFrom(c, HalfExtents(GridSize(c)), 1, Start(c, rng))
  }

  ghost predicate NoDuplicates(s: seq<Vector2Int>)
  {
    forall i, j :: 0 <= i < j < |s| ==> s[i] != s[j]
  }

  /** Some cell placed before position `k` of the order is a neighbour of the cell at `k`. */
  ghost predicate HasEarlierNeighbour(order: seq<Vector2Int>, k: int)
    requires 0 <= k < |order|
  {
    exists j :: 0 <= j < k && Adjacent(order[j], order[k])
  }

  /**
   * The layout invariants on a grid of half-extents `h`: the origin comes first
   * and holds the default prefab; the order lists each key of the dictionary
   * exactly once; every room lies in the grid, uses a prefab the configuration
   * offers, and (after the origin) is a cardinal neighbour of a room placed
   * before it.
   */
  ghost predicate ValidLayout(c: Config, h: Vector2Int, rooms: map<Vector2Int, Prefab>, order: seq<Vector2Int>)
  {
    && |order| >= 1 && order[0] == Origin
    && Origin in rooms && c.defaultRoomPrefab == Some(rooms[Origin])
    && NoDuplicates(order)
    && (forall p :: p in rooms <==> p in order)
    && |rooms| == |order|
    && (forall k :: 0 <= k < |order| ==> InGrid(order[k], h))
    && (forall k :: 0 < k < |order| ==> HasEarlierNeighbour(order, k))
    && (forall p :: p in rooms ==> AllowedPrefab(c, rooms[p]))
  }

  /** ValidLayout, and the walk stands on a room. */
  ghost predicate WalkInvariant(c: Config, h: Vector2Int, s: WalkState)
  {
    ValidLayout(c, h, s.rooms, s.order) && s.position in s.rooms
  }

  /** The earlier layout survives unchanged inside the later one. */
  ghost predicate Extends(later: WalkState, earlier: WalkState)
  {
    && earlier.order <= later.order
    && (forall p :: p in earlier.rooms ==> p in later.rooms && later.rooms[p] == earlier.rooms[p])
    && later.rng.stream == earlier.rng.stream
  }

  lemma ExtendsTransitive(a: WalkState, b: WalkState, c: WalkState)
    requires Extends(a, b) && Extends(b, c)
    ensures Extends(a, c)
  {
  }

  /** Spawning a room on a free grid cell next to an existing room keeps the layout valid. */
  lemma SpawnKeepsLayout(c: Config, h: Vector2Int, rooms: map<Vector2Int, Prefab>, order: seq<Vector2Int>,
                         from: Vector2Int, next: Vector2Int, prefab: Prefab)
    requires ValidLayout(c, h, rooms, order)
    requires from in rooms && next !in rooms && Adjacent(from, next)
    requires InGrid(next, h) && AllowedPrefab(c, prefab)
    ensures ValidLayout(c, h, rooms[next := prefab], order + [next])
  {
    var rooms', order' := rooms[next := prefab], order + [next];
    var k :| 0 <= k < |order| && order[k] == from;
    assert order'[k] == from && order'[|order|] == next;
    forall p
      ensures p in rooms' <==> p in order'
    {
      if p in order { assert p in order'; }
    }
    assert NoDuplicates(order') by {
      forall a, b | 0 <= a < b < |order'|
        ensures order'[a] != order'[b]
      {
        if b == |order| { assert order'[a] in order; }
      }
    }
    forall m | 0 < m < |order'|
      ensures HasEarlierNeighbour(order', m)
    {
      if m == |order| {
        assert Adjacent(order'[k], order'[m]);
      } else {
        assert HasEarlierNeighbour(order, m);
        var j :| 0 <= j < m && Adjacent(order[j], order[m]);
        assert Adjacent(order'[j], order'[m]);
      }
    }
  }

  /**
   * One loop iteration never removes or replaces a room, adds at most one, and
   * draws between 1 and 33 times (up to 32 probes and at most one prefab choice).
   */
  lemma WalkStepGrows(c: Config, h: Vector2Int, i: int, s: WalkState)
    requires c.defaultRoomPrefab.Some?
    ensures var t := WalkStep(c, h, i, s);
      && Extends(t, s)
      && |t.order| <= |s.order| + 1
      && s.rng.used + 1 <= t.rng.used <= s.rng.used + MaxProbes + 1
  {
    ProbeDraws(s.position, h, s.rooms.Keys, s.rng, 0);
  }

  /** One loop iteration keeps the layout valid and the walk on a room. */
  lemma WalkStepKeeps(c: Config, h: Vector2Int, i: int, s: WalkState)
    requires c.defaultRoomPrefab.Some? && WalkInvariant(c, h, s)
    ensures WalkInvariant(c, h, WalkStep(c, h, i, s))
  {
    ProbeLands(s.position, h, s.rooms.Keys, s.rng, 0);
    var probe := ProbeFrom(s.position, h, s.rooms.Keys, s.rng, 0);
    var next := probe.0;
    if next !in s.rooms {
      var select := SelectPrefab(c, i, RoomBudget(c), probe.1);
      assert WalkStep(c, h, i, s) == WalkState(s.rooms[next := select.0], s.order + [next], next, select.1);
      SpawnKeepsLayout(c, h, s.rooms, s.order, s.position, next, select.0);
    } else {
      assert WalkStep(c, h, i, s) == s.(position := next, rng := probe.1);
    }
  }

  /** A property of walk states that every loop iteration keeps holds after the rest of the walk. */
  lemma {:induction false} WalkFromPreserves(c: Config, h: Vector2Int, i: int, s: WalkState, inv: WalkState -> bool)
    requires c.defaultRoomPrefab.Some? && inv(s)
    requires forall j, x :: inv(x) ==> inv(WalkStep(c, h, j, x))
    ensures inv(WalkFrom(c, h, i, s))
    decreases RoomBudget(c) - i
  {
    if i < RoomBudget(c) {
      WalkFromPreserves(c, h, i + 1, WalkStep(c, h, i, s), inv);
    }
  }

  /** The rest of the walk from iteration `i` never removes or replaces a room and keeps the draw stream. */
  lemma WalkFromExtends(c: Config, h: Vector2Int, i: int, s: WalkState)
    requires c.defaultRoomPrefab.Some?
    ensures Extends(WalkFrom(c, h, i, s), s)
  {
    forall j, x | Extends(x, s)
      ensures Extends(WalkStep(c, h, j, x), s)
    {
      WalkStepGrows(c, h, j, x);
      ExtendsTransitive(WalkStep(c, h, j, x), x, s);
    }
    WalkFromPreserves(c, h, i, s, x => Extends(x, s));
  }

  /**
   * The rest of the walk from iteration `i` adds at most one room per
   * remaining iteration and makes at least one and at most 33 draws per
   * remaining iteration.
   */
  lemma {:induction false} WalkFromCounts(c: Config, h: Vector2Int, i: int, s: WalkState)
    requires c.defaultRoomPrefab.Some? && i <= RoomBudget(c)
    ensures var t := WalkFrom(c, h, i, s);
      && |t.order| <= |s.order| + (RoomBudget(c) - i)
      && s.rng.used + (RoomBudget(c) - i) <= t.rng.used <= s.rng.used + 33 * (RoomBudget(c) - i)
    decreases RoomBudget(c) - i
  {
    if i < RoomBudget(c) {
      var s' := WalkStep(c, h, i, s);
      var t := WalkFrom(c, h, i + 1, s');
      assert WalkFrom(c, h, i, s) == t;
      WalkStepGrows(c, h, i, s);
      WalkFromCounts(c, h, i + 1, s');
      var rest := RoomBudget(c) - (i + 1);
      var (u0, u1, u2) := (s.rng.used, s'.rng.used, t.rng.used);
      assert u0 + 1 <= u1 <= u0 + 33 && u1 + rest <= u2 <= u1 + 33 * rest;
      assert |s'.order| <= |s.order| + 1 && |t.order| <= |s'.order| + rest;
    }
  }

  /** The rest of the walk keeps the layout valid and the walk on a room. */
  lemma WalkFromKeeps(c: Config, h: Vector2Int, i: int, s: WalkState)
    requires c.defaultRoomPrefab.Some? && WalkInvariant(c, h, s)
    ensures WalkInvariant(c, h, WalkFrom(c, h, i, s))
  {
    forall j, x | WalkInvariant(c, h, x)
      ensures WalkInvariant(c, h, WalkStep(c, h, j, x))
    {
      WalkStepKeeps(c, h, j, x);
    }
    WalkFromPreserves(c, h, i, s, x => WalkInvariant(c, h, x));
  }

  /**
   * What a generation run guarantees: a valid layout of 1 to RoomBudget rooms
   * whose first room is the origin, on which the walk ends; at most 33 draws
   * per loop iteration; and only the origin room when the budget is 1.
   */
  lemma GenerateFacts(c: Config, rng: Rng)
    requires c.defaultRoomPrefab.Some?
    ensures var t := Generate(c, rng);
      && ValidLayout(c, HalfExtents(GridSize(c)), t.rooms, t.order)
      && t.position in t.rooms
      && 1 <= |t.rooms| == |t.order| <= RoomBudget(c)
      && t.rng.stream == rng.stream
      && rng.used + (RoomBudget(c) - 1) <= t.rng.used <= rng.used + 33 * (RoomBudget(c) - 1)
      && (RoomBudget(c) == 1 ==> t.order == [Origin])
  {
    var h := HalfExtents(GridSize(c));
    var s := Start(c, rng);
    assert NoDuplicates(s.order);
    WalkFromKeeps(c, h, 1, s);
    WalkFromExtends(c, h, 1, s);
    WalkFromCounts(c, h, 1, s);
  }

  /** Without special prefabs every room uses the default prefab. */
  lemma NoSpecialsAllDefault(c: Config, rng: Rng)
    requires c.defaultRoomPrefab.Some? && !HasSpecials(c)
    ensures var t := Generate(c, rng);
      forall p :: p in t.rooms ==> t.rooms[p] == c.defaultRoomPrefab.value
  {
    GenerateFacts(c, rng);
  }

  /** How one loop iteration rewrites the state, and that the rest of the walk continues from there. */
  lemma WalkStepCases(c: Config, h: Vector2Int, i: int, s: WalkState)
    requires c.defaultRoomPrefab.Some? && i < RoomBudget(c)
    ensures WalkFrom(c, h, i, s) == WalkFrom(c, h, i + 1, WalkStep(c, h, i, s))
    ensures var p := ProbeFrom(s.position, h, s.rooms.Keys, s.rng, 0);
      p.0 in s.rooms ==> WalkStep(c, h, i, s) == s.(position := p.0, rng := p.1)
    ensures var p := ProbeFrom(s.position, h, s.rooms.Keys, s.rng, 0);
      var q := SelectPrefab(c, i, RoomBudget(c), p.1);
      p.0 !in s.rooms ==> WalkStep(c, h, i, s) == WalkState(s.rooms[p.0 := q.0], s.order + [p.0], p.0, q.1)
  {
  }

  /** Once the loop index reaches the budget the walk is over. */
  lemma WalkFromDone(c: Config, h: Vector2Int, i: int, s: WalkState)
    requires c.defaultRoomPrefab.Some? && i >= RoomBudget(c)
    ensures WalkFrom(c, h, i, s) == s
  {
  }

  /** The scene object that owns the generated layout. */
  class Generator {
    var config: Option<Config>
    var spawnedRooms: map<Vector2Int, Prefab>
    var traversalOrder: seq<Vector2Int>
    var pseudoRandom: Option<Rng>

    constructor (config: Option<Config>)
      ensures this.config == config
      ensures spawnedRooms == map[] && traversalOrder == [] && pseudoRandom.None?
    {
      this.config := config;
      spawnedRooms := map[];
      traversalOrder := [];
      pseudoRandom := None;
    }

    /**
     * GenerateDungeon. `entropy` is Unity's Random.Range result used when the
     * seed is 0; `algorithm` is System.Random's seed-to-stream map.
     */
    method GenerateDungeon(entropy: int, algorithm: int -> (nat -> nat))
      modifies this
      ensures config == old(config)
      ensures config.None? || config.value.defaultRoomPrefab.None? ==>
        spawnedRooms == old(spawnedRooms) && traversalOrder == old(traversalOrder)
        && pseudoRandom == old(pseudoRandom)
      ensures config.Some? && config.value.defaultRoomPrefab.Some? ==>
        var c := config.value;
        var t := Generate(c, Seeded(algorithm, if Seed(c) == 0 then entropy else Seed(c)));
        spawnedRooms == t.rooms && traversalOrder == t.order && pseudoRandom == Some(t.rng)
    {
      if config.None? {
        return;
      }
      var c := config.value;
      if DefaultRoomPrefab(c).None? {
        return;
      }

      PrepareGeneration(entropy, algorithm);
      ghost var start := Start(c, pseudoRandom.value);
      ghost var h := HalfExtents(GridSize(c));

      var currentPosition := Zero;
      SpawnRoom(currentPosition, DefaultRoomPrefab(c).value);
      assert WalkState(spawnedRooms, traversalOrder, currentPosition, pseudoRandom.value) == start;

      for i := 1 to RoomBudget(c)
        invariant config == Some(c) && pseudoRandom.Some?
        invariant WalkFrom(c, h, i, WalkState(spawnedRooms, traversalOrder, currentPosition, pseudoRandom.value))
               == WalkFrom(c, h, 1, start)
      {
        ghost var before := WalkState(spawnedRooms, traversalOrder, currentPosition, pseudoRandom.value);
        WalkStepCases(c, h, i, before);
        var nextPosition := StepToNextCoordinate(currentPosition);
        if nextPosition in spawnedRooms {
          currentPosition := nextPosition;
          continue;
        }

        var prefab := SelectRoomPrefab(i, RoomBudget(c));
        SpawnRoom(nextPosition, prefab);
        currentPosition := nextPosition;
      }
      WalkFromDone(c, h, RoomBudget(c), WalkState(spawnedRooms, traversalOrder, currentPosition, pseudoRandom.value));
    }

    /** Clears the layout and seeds a new generator (the scene clean-up is not modelled). */
    method PrepareGeneration(entropy: int, algorithm: int -> (nat -> nat))
      requires config.Some?
      modifies this`spawnedRooms, this`traversalOrder, this`pseudoRandom
      ensures spawnedRooms == map[] && traversalOrder == []
      ensures var seed := Seed(config.value);
        pseudoRandom == Some(Seeded(algorithm, if seed == 0 then entropy else seed))
    {
      spawnedRooms := map[];
      traversalOrder := [];
      var seed := Seed(config.value);
      seed := if seed == 0 then entropy else seed;
      pseudoRandom := Some(Seeded(algorithm, seed));
    }

    /** Records a room at a cell that has none yet, in the dictionary and at the end of the order. */
    method SpawnRoom(gridPosition: Vector2Int, prefab: Prefab)
      requires gridPosition !in spawnedRooms
      modifies this`spawnedRooms, this`traversalOrder
      ensures spawnedRooms == old(spawnedRooms)[gridPosition := prefab]
      ensures |spawnedRooms| == |old(spawnedRooms)| + 1
      ensures traversalOrder == old(traversalOrder) + [gridPosition]
    {
      spawnedRooms := spawnedRooms[gridPosition := prefab];
      traversalOrder := traversalOrder + [gridPosition];
    }

    /** The bounded retry loop that proposes the walk's next cell. */
    method StepToNextCoordinate(current: Vector2Int) returns (candidate: Vector2Int)
      requires config.Some? && pseudoRandom.Some?
      modifies this`pseudoRandom
      ensures var h := HalfExtents(GridSize(config.value));
        var r := ProbeFrom(current, h, spawnedRooms.Keys, old(pseudoRandom.value), 0);
        candidate == r.0 && pseudoRandom == Some(r.1)
      ensures var h := HalfExtents(GridSize(config.value));
        InGrid(current, h) ==>
        && InGrid(candidate, h)
        && (candidate == current || Adjacent(current, candidate))
        && old(pseudoRandom.value.used) + 1 <= pseudoRandom.value.used <= old(pseudoRandom.value.used) + MaxProbes
        && (candidate in spawnedRooms ==> pseudoRandom.value.used == old(pseudoRandom.value.used) + MaxProbes)
    {
      var directions := [Up, Down, Left, Right];
      var gridExtents := GridSize(config.value);
      ghost var h := HalfExtents(gridExtents);
      NegatedHalf(gridExtents.x);
      NegatedHalf(gridExtents.y);
      ghost var start := pseudoRandom.value;
      var guard := 0;
      while true
        invariant guard < MaxProbes && pseudoRandom.Some?
        invariant ProbeFrom(current, h, spawnedRooms.Keys, pseudoRandom.value, guard)
               == ProbeFrom(current, h, spawnedRooms.Keys, start, 0)
        decreases MaxProbes - guard
      {
        guard := guard + 1;
        var (d, after) := Next(pseudoRandom.value, |directions|);
        pseudoRandom := Some(after);
        var direction := directions[d];
        candidate := Add(current, direction);
        candidate := candidate.(x := Clamp(candidate.x, HalfTowardZero(-gridExtents.x), HalfTowardZero(gridExtents.x)));
        candidate := candidate.(y := Clamp(candidate.y, HalfTowardZero(-gridExtents.y), HalfTowardZero(gridExtents.y)));
        assert candidate == Candidate(current, d, h);
        if !(guard < MaxProbes && candidate in spawnedRooms) {
          break;
        }
      }
      ProbeDraws(current, h, spawnedRooms.Keys, start, 0);
      if InGrid(current, h) {
        ProbeLands(current, h, spawnedRooms.Keys, start, 0);
      }
    }

    /** Chooses the prefab for the room of loop iteration `index`. */
    method SelectRoomPrefab(index: int, totalCount: int) returns (prefab: Prefab)
      requires config.Some? && config.value.defaultRoomPrefab.Some? && pseudoRandom.Some?
      modifies this`pseudoRandom
      ensures var r := SelectPrefab(config.value, index, totalCount, old(pseudoRandom.value));
        prefab == r.0 && pseudoRandom == Some(r.1)
    {
      var c := config.value;
      if SpecialRoomPrefabs(c).None? || |SpecialRoomPrefabs(c).value| == 0 {
        return DefaultRoomPrefab(c).value;
      }
      if Late(index, totalCount) {
        var (k, after) := Next(pseudoRandom.value, |SpecialRoomPrefabs(c).value|);
        pseudoRandom := Some(after);
        return SpecialRoomPrefabs(c).value[k];
      }
      return DefaultRoomPrefab(c).value;
    }
  }
}
