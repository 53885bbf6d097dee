/**
 * System.Random as the generator and the deck use it. The algorithm that turns
 * a seed into numbers belongs to the .NET runtime, so the model takes the
 * seeded generator's output as an infinite stream of raw values; a draw
 * `Next(n)` maps the next raw value into [0, n). Two generators built from the
 * same stream make the same draws, which is what "same seed, same result" means.
 */
module SystemRandom {

  /** One generator instance: the stream it was seeded with and how many draws it has made. */
  datatype Rng = Rng(stream: nat -> nat, used: nat)

  /** `new System.Random(seed)`, where `algorithm` is the runtime's seed-to-stream map. */
  function Seeded(algorithm: int -> (nat -> nat), seed: int): (r: Rng)
    ensures r.used == 0
  {
    Rng(algorithm(seed), 0)
  }

  /** `rng.Next(n)`: one draw in [0, n) from the same stream, one position further on. */
  function Next(r: Rng, n: nat): (res: (nat, Rng))
    requires n > 0
    ensures res.0 < n
    ensures res.1.stream == r.stream && res.1.used == r.used + 1
  {
    (r.stream(r.used) % n, Rng(r.stream, r.used + 1))
  }
}
