/** numpy's seeded random generator, as far as the mixup operators use it.
    The generator is a foreign library: what it draws is supplied as a
    `BitGenerator`, a pair of functions of the seed and of the calls made on
    the generator so far. Two generators made from the same seed that receive
    the same calls in the same order therefore draw the same values, which is
    the property the two mixup operators rely on. */
module NumpyRandom {
  import opened Pipeline

  /** `p` holds n indices, each into [0, n). */
  predicate InRange(p: seq<nat>, n: nat) {
    && |p| == n
    && forall i :: 0 <= i < n ==> p[i] < n
  }

  /** `p` lists every index of [0, n) exactly once. */
  predicate IsPermutation(p: seq<nat>, n: nat) {
    && InRange(p, n)
    && (forall v :: 0 <= v < n ==> v in p)
    && (forall i, j :: 0 <= i < j < n ==> p[i] != p[j])
  }

  /** `w` holds n values, each in the half-open interval [0, 1). */
  predicate IsUnitSample(w: seq<real>, n: nat) {
    && |w| == n
    && forall i :: 0 <= i < n ==> 0.0 <= w[i] < 1.0
  }

  /** A call made on a generator: `permutation(n)`, or `random(size)` drawing
      `count` values (the number of elements of `size`). */
  datatype Call = PermutationCall(n: nat) | RandomCall(count: nat)

  /** A generator: the seed it was made from and the calls made on it so far. */
  datatype Generator = Generator(seed: int, history: seq<Call>)

  /** The values a generator produces, as functions of the seed, the earlier
      calls and the size asked for. */
  datatype BitGenerator = BitGenerator(
    permutation: (int, seq<Call>, nat) -> seq<nat>,
    random: (int, seq<Call>, nat) -> seq<real>
  )

  /** What numpy promises of its draws: `permutation(n)` is a permutation of
      [0, n), and `random(n)` is n values in [0, 1). */
  ghost predicate Sound(bits: BitGenerator) {
    && (forall seed, h, n :: IsPermutation(bits.permutation(seed, h, n), n))
    && (forall seed, h, n :: IsUnitSample(bits.random(seed, h, n), n))
  }

  /** `default_rng(seed)`: a generator no call has been made on. */
  function DefaultRng(seed: int): Generator {
    Generator(seed, [])
  }

  /** `rng.permutation(n)`: the permutation drawn, and the generator after. */
  function DrawPermutation(bits: BitGenerator, g: Generator, n: nat): (r: (seq<nat>, Generator))
    requires Sound(bits)
    ensures IsPermutation(r.0, n)
    ensures r.1.seed == g.seed && r.1.history == g.history + [PermutationCall(n)]
  {
    (bits.permutation(g.seed, g.history, n), Generator(g.seed, g.history + [PermutationCall(n)]))
  }

  /** `rng.random(n)`: n uniform values in [0, 1), and the generator after. */
  function DrawRandom(bits: BitGenerator, g: Generator, n: nat): (r: (seq<real>, Generator))
    requires Sound(bits)
    ensures IsUnitSample(r.0, n)
    ensures r.1.seed == g.seed && r.1.history == g.history + [RandomCall(n)]
  {
    (bits.random(g.seed, g.history, n), Generator(g.seed, g.history + [RandomCall(n)]))
  }

  /** The draws of one mixup call: a partner order and one weight per sample. */
  datatype Draw = Draw(order: seq<nat>, lam: seq<real>)

  /** The draws both mixup operators make for a batch of n samples: seed a
      fresh generator, draw a permutation of [0, n), then n weights. */
  function Draws(bits: BitGenerator, seed: int, n: nat): (d: Draw)
    requires Sound(bits)
    ensures IsPermutation(d.order, n)
    ensures IsUnitSample(d.lam, n)
  {
    var (order, g) := DrawPermutation(bits, DefaultRng(seed), n);
    var (lam, _) := DrawRandom(bits, g, n);
    Draw(order, lam)
  }

  /** The value one call on a generator yields. */
  datatype Drawn = Perm(p: seq<nat>) | Weights(w: seq<real>)

  /** The values a sequence of calls on generator `g` yields, in call order. */
  function Replay(bits: BitGenerator, g: Generator, calls: seq<Call>): (r: seq<Drawn>)
    ensures |r| == |calls|
    decreases |calls|
  {
    if calls == [] then []
    else
      var out := match calls[0]
        case PermutationCall(n) => Perm(bits.permutation(g.seed, g.history, n))
        case RandomCall(n) => Weights(bits.random(g.seed, g.history, n));
      [out] + Replay(bits, Generator(g.seed, g.history + [calls[0]]), calls[1..])
  }

  /** What a call yields depends only on the seed and the calls made before
      it: two callers that make the same first calls on generators seeded
      alike see the same values from those calls, whatever they call later. */
  lemma {:induction false} ReplayPrefix(bits: BitGenerator, g: Generator, first: seq<Call>, later: seq<Call>)
    ensures Replay(bits, g, first + later)[..|first|] == Replay(bits, g, first)
    decreases |first|
  {
    if first != [] {
      var g' := Generator(g.seed, g.history + [first[0]]);
      assert (first + later)[0] == first[0];
      assert (first + later)[1..] == first[1..] + later;
      ReplayPrefix(bits, g', first[1..], later);
    }
  }

  /** `Draws` is what a fresh generator yields for the calls
      `permutation(n)` then `random(n)`: any caller that starts with those two
      calls, in that order, on a generator seeded alike, gets the same draws. */
  lemma DrawsAreReplay(bits: BitGenerator, seed: int, n: nat, later: seq<Call>)
    requires Sound(bits)
    ensures var d := Draws(bits, seed, n);
      Replay(bits, DefaultRng(seed), [PermutationCall(n), RandomCall(n)] + later)[..2]
        == [Perm(d.order), Weights(d.lam)]
  {
    ReplayPrefix(bits, DefaultRng(seed), [PermutationCall(n), RandomCall(n)], later);
  }

  // The public attributes of numpy's `Generator`, from numpy 1.17 through
  // 2.x, grouped as numpy's reference documentation groups them.

  /** Access to the underlying bit generator, and `spawn` (added in 1.25). */
  const BitGeneratorAccess: set<string> := {"bit_generator", "spawn"}

  const SimpleRandomData: set<string> := {"integers", "random", "choice", "bytes"}

  const Permutations: set<string> := {"shuffle", "permutation", "permuted"}

  const DiscreteDistributions: set<string> := {
    "binomial", "geometric", "hypergeometric", "logseries", "multinomial",
    "multivariate_hypergeometric", "negative_binomial", "poisson", "zipf"
  }

  const ContinuousDistributions: set<string> := {
    "beta", "chisquare", "dirichlet", "exponential", "f", "gamma", "gumbel",
    "laplace", "logistic", "lognormal", "multivariate_normal",
    "noncentral_chisquare", "noncentral_f", "normal", "pareto", "power",
    "rayleigh", "standard_cauchy", "standard_exponential", "standard_gamma",
    "standard_normal", "standard_t", "triangular", "uniform", "vonmises",
    "wald", "weibull"
  }

  /** Every public attribute of numpy's `Generator`. Looking up any other
      public (non-underscore) name on a generator fails. */
  const GeneratorAttributes: set<string> :=
    BitGeneratorAccess + SimpleRandomData + Permutations + DiscreteDistributions + ContinuousDistributions

  /** Python's `AttributeError`, naming the attribute that was looked up, as
      an interpreted run raises it. Compiled by Numba, the same lookup is a
      typing error raised when the closure is compiled, before it runs. */
  datatype Fault = AttributeError(name: string)

  /** `rng.<name>` for a public (non-underscore) name: every generator has
      the same interface, so the lookup depends on the name alone and fails,
      naming the attribute, when `Generator` has no public attribute of that
      name. Underscore names are not modelled. */
  function GetAttr(g: Generator, name: string): Result<(), Fault> {
    if name in GeneratorAttributes then Success(()) else Failure(AttributeError(name))
  }
}
