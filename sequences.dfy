/** The sequence generators of the contract library: two infinite iterators,
    `Fibonacci` over a two-term window and `Threebonacci` over a three-term
    window, each advanced in place by `Next` and driven `n + 1` steps by `Nth`. */
module Sequences {

  /** Rust's `u64`. The additions in both `next` methods are plain unchecked `+`,
      so every addition on this type carries the obligation that it stays in range. */
  const U64_LIMIT: int := 0x1_0000_0000_0000_0000
  newtype u64 = x: int | 0 <= x < U64_LIMIT

  /** `usize` on wasm32, the only target the crate builds for: 32 bits wide. */
  const USIZE_LIMIT: int := 0x1_0000_0000
  newtype usize = x: int | 0 <= x < USIZE_LIMIT

  datatype Option<T> = None | Some(value: T)

  /** The Fibonacci numbers: F(0) = 0, F(1) = 1, F(k + 2) = F(k) + F(k + 1). */
  function Fib(k: nat): nat
  {
    if k < 2 then k else Fib(k - 2) + Fib(k - 1)
  }

  /** The three-term recurrence the library calls Threebonacci: T(0) = T(1) = 0,
      T(2) = 1, and every later term is the sum of the three before it. */
  function Trib(k: nat): nat
  {
    if k < 2 then 0 else if k == 2 then 1 else Trib(k - 3) + Trib(k - 2) + Trib(k - 1)
  }

  /** From F(1) on, the Fibonacci numbers never decrease. */
  lemma {:induction false} FibMonotone(i: nat, j: nat)
    requires 1 <= i <= j
    ensures Fib(i) <= Fib(j)
  {
    if i < j {
      FibMonotone(i, j - 1);
    }
  }

  /** The Threebonacci numbers never decrease. */
  lemma {:induction false} TribMonotone(i: nat, j: nat)
    requires i <= j
    ensures Trib(i) <= Trib(j)
  {
    if i < j {
      TribMonotone(i, j - 1);
    }
  }

  /** The Fibonacci numbers at the edge of the `u64` range, unfolded from the
      definition a few terms at a time. */
  lemma FibEdgeOfU64()
    ensures Fib(93) == 12200160415121876738 && Fib(94) == 19740274219868223167
  {
    assert Fib(10) == 55 && Fib(11) == 89;
    assert Fib(18) == 2584 && Fib(19) == 4181;
    assert Fib(26) == 121393 && Fib(27) == 196418;
    assert Fib(34) == 5702887 && Fib(35) == 9227465;
    assert Fib(42) == 267914296 && Fib(43) == 433494437;
    assert Fib(50) == 12586269025 && Fib(51) == 20365011074;
    assert Fib(58) == 591286729879 && Fib(59) == 956722026041;
    assert Fib(66) == 27777890035288 && Fib(67) == 44945570212853;
    assert Fib(74) == 1304969544928657 && Fib(75) == 2111485077978050;
    assert Fib(82) == 61305790721611591 && Fib(83) == 99194853094755497;
    assert Fib(90) == 2880067194370816120 && Fib(91) == 4660046610375530309;
  }

  /** F(93) is the last Fibonacci number that fits in a `u64`. */
  lemma FibFitsU64(k: nat)
    ensures Fib(k) < U64_LIMIT <==> k <= 93
  {
    FibEdgeOfU64();
    if 1 <= k <= 93 {
      FibMonotone(k, 93);
    } else if k > 93 {
      FibMonotone(94, k);
    }
  }

  /** The Threebonacci numbers at the edge of the `u64` range. */
  lemma TribEdgeOfU64()
    ensures Trib(75) == 12903063846126135669 && Trib(76) == 23732434433862494162
  {
    assert Trib(10) == 81 && Trib(11) == 149 && Trib(12) == 274;
    assert Trib(16) == 3136 && Trib(17) == 5768 && Trib(18) == 10609;
    assert Trib(22) == 121415 && Trib(23) == 223317 && Trib(24) == 410744;
    assert Trib(28) == 4700770 && Trib(29) == 8646064 && Trib(30) == 15902591;
    assert Trib(34) == 181997601 && Trib(35) == 334745777 && Trib(36) == 615693474;
    assert Trib(40) == 7046319384 && Trib(41) == 12960201916 && Trib(42) == 23837527729;
    assert Trib(46) == 272809183135 && Trib(47) == 501774317241 && Trib(48) == 922906855808;
    assert Trib(52) == 10562230626642 && Trib(53) == 19426970897100 && Trib(54) == 35731770264967;
    assert Trib(58) == 408933139743937 && Trib(59) == 752145307699165 && Trib(60) == 1383410902447554;
    assert Trib(64) == 15832480722303616 && Trib(65) == 29120472094716576 && Trib(66) == 53560898629395777;
    assert Trib(70) == 612979045863284359 && Trib(71) == 1127444240280152749 && Trib(72) == 2073693258389777176;
  }

  /** T(75) is the last Threebonacci number that fits in a `u64`. */
  lemma TribFitsU64(k: nat)
    ensures Trib(k) < U64_LIMIT <==> k <= 75
  {
    TribEdgeOfU64();
    if k <= 75 {
      TribMonotone(k, 75);
    } else {
      TribMonotone(76, k);
    }
  }

  /** `Threebonacci::new().nth(n)` returns T(n + 3); its additions stay in the
      `u64` range exactly when n <= 72. */
  lemma TribNthFits(n: nat)
    ensures Trib(n + 3) < U64_LIMIT <==> n <= 72
  {
    TribFitsU64(n + 3);
  }

  /** The two-term iterator. Its fields are private to the library, so every
      instance is `new()` followed by some number of `Next` calls; `steps` counts
      them, and `Valid` says the window then holds (F(steps), F(steps + 1)). */
  class Fibonacci {
    var prev: u64
    var curr: u64
    ghost var steps: nat

    ghost predicate Valid()
      reads this
    {
      prev as int == Fib(steps) && curr as int == Fib(steps + 1)
    }

    constructor ()
      ensures Valid() && steps == 0
      ensures prev == 0 && curr == 1
    {
      prev, curr := 0, 1;
      steps := 0;
    }

    /** One step of the iterator: the window shifts by one and the new term is
        returned. It never returns `None`. The requires is the condition under
        which the unchecked `prev + curr` does not overflow. */
    method Next() returns (r: Option<u64>)
      requires Valid()
      requires prev as int + curr as int < U64_LIMIT
      modifies this
      ensures Valid() && steps == old(steps) + 1
      ensures prev == old(curr) && curr as int == old(prev) as int + old(curr) as int
      ensures r == Some(curr)
    {
      var next := prev + curr;
      prev := curr;
      curr := next;
      steps := steps + 1;
      r := Some(curr);
    }

    /** `Iterator::nth` as the standard library defines it: `n` calls to `next`
        whose results are discarded, then one more whose result is returned.
        The requires says that the last (and so every) addition fits in a `u64`. */
    method Nth(n: usize) returns (r: Option<u64>)
      requires Valid()
      requires Fib(steps + n as int + 2) < U64_LIMIT
      modifies this
      ensures Valid() && steps == old(steps) + n as int + 1
      ensures r == Some(curr) && curr as int == Fib(old(steps) + n as int + 2)
    {
      var i: usize := 0;
      while i < n
        invariant Valid() && i <= n
        invariant steps == old(steps) + i as int
      {
        FibMonotone(steps + 2, old(steps) + n as int + 2);
        var skipped := Next();
        i := i + 1;
      }
      r := Next();
    }
  }

  /** The three-term iterator. As for `Fibonacci`, `steps` counts the `Next`
      calls since `new()`, and the window then holds
      (T(steps), T(steps + 1), T(steps + 2)) as (prev2, prev1, curr). */
  class Threebonacci {
    var prev1: u64
    var prev2: u64
    var curr: u64
    ghost var steps: nat

    ghost predicate Valid()
      reads this
    {
      prev2 as int == Trib(steps) && prev1 as int == Trib(steps + 1) && curr as int == Trib(steps + 2)
    }

    constructor ()
      ensures Valid() && steps == 0
      ensures prev2 == 0 && prev1 == 0 && curr == 1
    {
      curr, prev1, prev2 := 1, 0, 0;
      steps := 0;
    }

    /** One step: the new term is the sum of the window, the oldest term drops
        out, and the new term is returned. It never returns `None`. The requires
        is the condition under which the unchecked additions do not overflow. */
    method Next() returns (r: Option<u64>)
      requires Valid()
      requires prev1 as int + prev2 as int + curr as int < U64_LIMIT
      modifies this
      ensures Valid() && steps == old(steps) + 1
      ensures prev2 == old(prev1) && prev1 == old(curr)
      ensures curr as int == old(prev1) as int + old(prev2) as int + old(curr) as int
      ensures r == Some(curr)
    {
      var next := prev1 + prev2 + curr;
      prev2 := prev1;
      prev1 := curr;
      curr := next;
      steps := steps + 1;
      r := Some(curr);
    }

    /** `Iterator::nth`: `n` discarded calls to `next`, then one returned. */
    method Nth(n: usize) returns (r: Option<u64>)
      requires Valid()
      requires Trib(steps + n as int + 3) < U64_LIMIT
      modifies this
      ensures Valid() && steps == old(steps) + n as int + 1
      ensures r == Some(curr) && curr as int == Trib(old(steps) + n as int + 3)
    {
      var i: usize := 0;
      while i < n
        invariant Valid() && i <= n
        invariant steps == old(steps) + i as int
      {
        TribMonotone(steps + 3, old(steps) + n as int + 3);
        var skipped := Next();
        i := i + 1;
      }
      r := Next();
    }
  }

  /** The library's unit test of `Fibonacci`: the tenth term is 89. */
  method FibonacciNthNine() returns (r: Option<u64>)
    ensures r == Some(89)
  {
    var f := new Fibonacci();
    r := f.Nth(9);
  }

  /** The library's unit test of `Threebonacci`: the first four terms. */
  method ThreebonacciFirstFour() returns (terms: seq<Option<u64>>)
    ensures terms == [Some(1), Some(2), Some(4), Some(7)]
  {
    var t := new Threebonacci();
    var a := t.Next();
    var b := t.Next();
    var c := t.Next();
    var d := t.Next();
    terms := [a, b, c, d];
  }

  /** The tenth Threebonacci term, the value the integration test expects
      after the upgrade (tests/src/integration_tests.rs:27). */
  method ThreebonacciNthNine() returns (r: Option<u64>)
    ensures r == Some(274)
  {
    var t := new Threebonacci();
    r := t.Nth(9);
  }
}
