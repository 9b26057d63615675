/** The game's source of randomness and of the mathematical functions it calls.
    Every draw of Python's `random` module is taken from a tape of `random()`
    results; `math.pi`, `math.sin` and `math.cos` are constants of the
    environment about which the model assumes nothing. */
module Oracle {

  /** The value `random.random()` returns when the tape is `tape`: its head when
      that lies in [0, 1), and 0.0 once the tape is exhausted or malformed. */
  function NextUnit(tape: seq<real>): (u: real)
    ensures 0.0 <= u < 1.0
    ensures tape != [] && 0.0 <= tape[0] < 1.0 ==> u == tape[0]
  {
    if tape != [] && 0.0 <= tape[0] < 1.0 then tape[0] else 0.0
  }

  /** The tape after one draw. */
  function Consumed(tape: seq<real>): (rest: seq<real>)
    ensures tape != [] ==> rest == tape[1..]
    ensures tape == [] ==> rest == []
  {
    if tape == [] then [] else tape[1..]
  }

  /** `random.uniform(a, b)` is `a + (b - a) * random()`. */
  function UniformOf(a: real, b: real, u: real): (v: real)
    requires 0.0 <= u < 1.0
    ensures a <= b ==> a <= v <= b
  {
    var w := b - a;
    assert a <= b ==> 0.0 <= w * u <= w by {
      if a <= b { assert w * (1.0 - u) >= 0.0; }
    }
    a + w * u
  }

  /** An index in [0, n) chosen by the draw `u`, as `random.choice`,
      `random.randint` and `random.sample` need. */
  function BelowOf(n: nat, u: real): (k: nat)
    requires n > 0 && 0.0 <= u < 1.0
    ensures k < n
  {
    var m := n as real;
    assert 0.0 <= u * m < m by { assert (1.0 - u) * m > 0.0; }
    (u * m).Floor
  }

  class Env {
    /** The results of the calls to `random.random()` still to come. */
    var tape: seq<real>
    /** The platform's value of `math.pi`. */
    const pi: real
    /** The platform's `math.sin` and `math.cos`. */
    const sin: real -> real
    const cos: real -> real

    constructor (tape: seq<real>, pi: real, sin: real -> real, cos: real -> real)
      ensures this.tape == tape && this.pi == pi && this.sin == sin && this.cos == cos
    {
      this.tape := tape;
      this.pi := pi;
      this.sin := sin;
      this.cos := cos;
    }

    /** `random.random()`. */
    method Random() returns (u: real)
      modifies this
      ensures u == NextUnit(old(tape)) && tape == Consumed(old(tape))
    {
      u := NextUnit(tape);
      tape := Consumed(tape);
    }

    /** `random.uniform(a, b)`. */
    method Uniform(a: real, b: real) returns (v: real)
      modifies this
      ensures v == UniformOf(a, b, NextUnit(old(tape))) && tape == Consumed(old(tape))
    {
      var u := Random();
      v := UniformOf(a, b, u);
    }

    /** `_randbelow(n)`, the index draw behind `choice`, `randint` and `sample`. */
    method RandBelow(n: nat) returns (k: nat)
      requires n > 0
      modifies this
      ensures k == BelowOf(n, NextUnit(old(tape))) && tape == Consumed(old(tape))
    {
      var u := Random();
      k := BelowOf(n, u);
    }

    /** `random.sample(population, k)` on the path CPython takes for a small
        population: a partial Fisher-Yates shuffle of a copy of the population.
        The sample is drawn without replacement. */
    method Sample<T>(population: seq<T>, k: nat) returns (s: seq<T>)
      requires k <= |population|
      modifies this
      ensures |s| == k
      ensures multiset(s) <= multiset(population)
    {
      var n := |population|;
      var pool := population;
      s := [];
      assert pool[..n] == population;
      for i := 0 to k
        invariant |pool| == n && |s| == i
        invariant multiset(s) + multiset(pool[..n - i]) == multiset(population)
      {
        var j := RandBelow(n - i);
        PoolStep(pool, n - i, j);
        s := s + [pool[j]];
        pool := pool[j := pool[n - i - 1]];
      }
      assert multiset(s) + multiset(pool[..n - k]) == multiset(population);
    }
  }

  /** One draw of the pool algorithm: taking `pool[j]` out of the live prefix
      `pool[..m]` and moving the prefix's last element into its place leaves the
      other elements of the prefix. */
  lemma PoolStep<T>(pool: seq<T>, m: nat, j: nat)
    requires j < m <= |pool|
    ensures multiset(pool[j := pool[m - 1]][..m - 1]) + multiset{pool[j]} == multiset(pool[..m])
  {
    var p := pool[j := pool[m - 1]];
    assert pool[..m] == pool[..m - 1] + [pool[m - 1]];
    if j < m - 1 {
      assert p[..m - 1] == pool[..m - 1][j := pool[m - 1]];
      assert pool[..m - 1] == pool[..j] + [pool[j]] + pool[j + 1..m - 1];
      assert p[..m - 1] == pool[..j] + [pool[m - 1]] + pool[j + 1..m - 1];
    } else {
      assert p[..m - 1] == pool[..m - 1];
    }
  }
}
