/** The parts of Unity's Vector2Int and Mathf that the dungeon code relies on. */
module UnityMath {

  /** Vector2Int: an integer grid coordinate, compared by value. */
  datatype Vector2Int = Vector2Int(x: int, y: int)

  const Zero := Vector2Int(0, 0)
  const Up := Vector2Int(0, 1)
  const Down := Vector2Int(0, -1)
  const Left := Vector2Int(-1, 0)
  const Right := Vector2Int(1, 0)

  function Add(a: Vector2Int, b: Vector2Int): Vector2Int
  {
    Vector2Int(a.x + b.x, a.y + b.y)
  }

  /** Mathf.Max on ints. */
  function Max(a: int, b: int): (r: int)
    ensures r >= a && r >= b
    ensures r == a || r == b
  {
    if a >= b then a else b
  }

  /** Mathf.Clamp on ints: the lower bound is tested first. */
  function Clamp(value: int, min: int, max: int): (r: int)
    ensures value < min ==> r == min
    ensures min <= value <= max ==> r == value
    ensures value >= min && value > max ==> r == max
    ensures min <= max ==> min <= r <= max
  {
    if value < min then min else if value > max then max else value
  }

  /**
   * C#'s integer division by 2, which truncates toward zero (Dafny's `/` is
   * Euclidean and rounds negative dividends down instead).
   */
  function HalfTowardZero(v: int): (r: int)
    ensures v >= 0 ==> 0 <= 2 * r <= v < 2 * r + 2
    ensures v < 0 ==> 2 * r - 2 < v <= 2 * r <= 0
  {
    if v >= 0 then v / 2 else -((-v) / 2)
  }
}
