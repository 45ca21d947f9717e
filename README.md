# fib-contract, modelled in Dafny

This project models a small Casper smart contract and the library it is built on.

The library has two infinite iterators over linear recurrences:

- `Fibonacci` keeps the window `(prev, curr)`, starts at `(0, 1)`, and each `next` returns `prev + curr`.
- `Threebonacci` keeps `(prev_2, prev_1, curr)`, starts at `(0, 0, 1)`, and each `next` returns the sum of the three.

The contract has two parts:

- The entry point `fib` reads a `u64` argument `nth_fib`, converts it to the 32-bit `usize` of wasm32, and computes `Fibonacci::new().nth(nth_fib)`. It stores the result under the named key `last_result`. An index that does not fit reverts with `ApiError::User(0)`.
- The installer `call` declares the `fib` entry point and has the host create the contract package. It then records the contract hash and version under two named keys of the installing account.

Files:

- `sequences.dfy` (module `Sequences`) models `contract/src/lib.rs`.
  - Each iterator is a class with `u64` fields that `Next` updates in place.
  - A ghost counter `steps` records how many `Next` calls have run since `new()`. Rust keeps the fields private, so `new()` is the only way to build an instance.
  - The class invariant `Valid()` ties the window to the recurrences `Fib` and `Trib` at `steps`.
  - `Nth` is the standard library's `Iterator::nth`: a loop of `n` discarded `Next` calls, then one more whose value it returns.
- `contract.dfy` (module `FibContract`) models `contract/src/main.rs`.
  - The host's named-key store is a `NamedKeys` object holding a `map`.
  - A revert is an `Outcome.Revert` that leaves the store as it was.

The additions in both `next` methods are unchecked `u64` `+`. The model does not invent an error for overflow. Each addition instead carries a precondition that it stays in range.

The proved bounds are:

- F(93) is the last Fibonacci term that fits in a `u64`, so `fib` stays in range exactly when `nth_fib <= 91`, unless the index is rejected first.
- T(75) is the last Threebonacci term that fits, so `Threebonacci::new().nth(n)` stays in range exactly when `n <= 72`.

The code defines no overflow error and no installation, version or unknown-operation errors. Package versioning is done by the host.

## Model

| member | source | states |
|---|---|---|
| `Sequences.Fibonacci.constructor` | contract/src/lib.rs:9-11 | a new iterator has `prev = 0`, `curr = 1`, i.e. (F(0), F(1)) |
| `Sequences.Fibonacci.Next` | contract/src/lib.rs:17-23 | new `prev` = old `curr`, new `curr` = old `prev` + old `curr`, returns `Some(new curr)` (never `None`); keeps the window at (F(k), F(k+1)) after k calls; requires the unchecked `+` not to overflow |
| `Sequences.Fibonacci.Nth` | contract/src/lib.rs:14-23 | `nth(n)` runs `next` n+1 times and returns `Some(F(k+n+2))` from a window at step k, so `Fibonacci::new().nth(n)` is `Some(F(n+2))` |
| `Sequences.Threebonacci.constructor` | contract/src/lib.rs:33-39 | a new iterator has `prev_2 = 0`, `prev_1 = 0`, `curr = 1`, i.e. (T(0), T(1), T(2)) |
| `Sequences.Threebonacci.Next` | contract/src/lib.rs:44-52 | new `curr` = `prev_1 + prev_2 + curr`, `prev_2` takes old `prev_1`, `prev_1` takes old `curr`, returns `Some(new curr)`; keeps the window at (T(k), T(k+1), T(k+2)) |
| `Sequences.Threebonacci.Nth` | contract/src/lib.rs:42-53 | `nth(n)` returns `Some(T(k+n+3))` from a window at step k |
| `Sequences.FibMonotone` | contract/src/lib.rs:18 | Fibonacci terms never decrease from F(1) on, so one bound on the last term bounds every addition `nth` makes |
| `Sequences.TribMonotone` | contract/src/lib.rs:45 | Threebonacci terms never decrease, so one bound on the last term bounds every addition |
| `Sequences.FibEdgeOfU64` | contract/src/lib.rs:18 | F(93) = 12200160415121876738 and F(94) = 19740274219868223167 |
| `Sequences.FibFitsU64` | contract/src/lib.rs:18 | F(k) fits in a `u64` if and only if k <= 93 |
| `Sequences.TribEdgeOfU64` | contract/src/lib.rs:45 | T(75) = 12903063846126135669 and T(76) = 23732434433862494162 |
| `Sequences.TribFitsU64` | contract/src/lib.rs:45 | T(k) fits in a `u64` if and only if k <= 75 |
| `Sequences.TribNthFits` | contract/src/lib.rs:44-52 | `Threebonacci::new().nth(n)`, which is T(n + 3), makes no overflowing addition if and only if n <= 72 |
| `Sequences.FibonacciNthNine` | contract/src/lib.rs:59-64 | `Fibonacci::new().nth(9)` is `Some(89)` |
| `Sequences.ThreebonacciFirstFour` | contract/src/lib.rs:66-74 | the first four `next` calls on `Threebonacci::new()` return 1, 2, 4, 7 |
| `Sequences.ThreebonacciNthNine` | tests/src/integration_tests.rs:27 | `Threebonacci::new().nth(9)` is `Some(274)`, the value expected after the upgrade |
| `FibContract.ToApiError` | contract/src/main.rs:33-42 | a contract error becomes `ApiError::User` carrying its `u16` discriminant; `InvalidIndex` becomes `User(0)` |
| `FibContract.TryIntoUsize` | contract/src/main.rs:49-51 | the `u64` to 32-bit `usize` conversion succeeds if and only if the value is below 2^32, and it keeps the value |
| `FibContract.NoOverflowIsFit` | contract/src/main.rs:47-53 | for an index that fits in `usize`, `nth_fib <= 91` holds exactly when F(nth_fib + 2) fits in a `u64` |
| `FibContract.NamedKeys.PutKey` | contract/src/main.rs:56 | `put_key` binds a name and replaces any earlier binding, leaving every other name alone |
| `FibContract.FibEntry` | contract/src/main.rs:44-57 | reverts with `User(0)` if and only if `nth_fib >= 2^32`, writing nothing; otherwise stores F(nth_fib + 2) under `last_result` and changes no other name; the second unwrap cannot revert |
| `FibContract.FibEntryTwice` | contract/src/main.rs:55-56 | after two successful calls `last_result` holds only the second result, and the rest of the store is unchanged |
| `FibContract.FibEntryNine` | tests/src/integration_tests.rs:111-150 | calling `fib` with `nth_fib = 9` succeeds and leaves `last_result` holding 89 |
| `FibContract.DeclaredEntryPoints` | contract/src/main.rs:61-73 | the table has exactly one entry point: `fib`, with one parameter `nth_fib: U64`, return type `Unit`, `Public` access, `Contract` type |
| `FibContract.Call` | contract/src/main.rs:59-87 | returns the entry-point table it declares (handing it to the host is the host's side); the account's named keys gain the package hash, the access URef, the contract hash under `fib_contract_hash` and the version under `fib_contract_version`, and nothing else changes |

## Left out

- Host calls are opaque. `runtime::get_named_arg` becomes the `nthFib` parameter of `FibEntry`. `storage::new_contract` becomes the `host` parameter of `Call`, which carries the hashes, the access URef and the version the host returns. `storage::new_uref` is folded into the `Key.URef` value.
- Call: does not prove that the first install yields version 1, because version numbering belongs to the host's `storage::new_contract`. Package versioning is also the host's: upgrades, a package hash that stays stable across upgrades, and calling a pinned version.
- The upgrader session is not part of this model. Its source is not among the repository files modelled here. `ThreebonacciNthNine` covers only the value it is expected to store.
- Overflow past F(93) and T(75) is not modelled. Whether Rust's unchecked `+` panics or wraps depends on a build profile the repository does not show, so every addition carries a precondition instead.
- FibEntry: requires `nth_fib <= 91`, or an index that reverts first. The model does not describe what `fib` stores for larger indices.
- `get_named_arg` reverts on a missing or mistyped argument, and the host rejects calls to unknown entry points. Both are host behaviour and are not modelled.
- `ApiError` is reduced to its `User` variant. It is the only one this contract raises: the second `unwrap_or_revert` would raise `ApiError::None`, but that revert is proved never to happen.
- Gas, the integration-test harness (funding, deploy building, the in-memory engine), the build-target guards and the `no_std` declarations are left out. The only use made of the target guard is that `usize` is 32 bits.
