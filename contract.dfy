/** The stored contract: the `fib` entry point, which computes a Fibonacci term
    and keeps it under the named key `last_result`, and the installer `call`,
    which declares that entry point to the host and records what the host
    returns. The host's named-key store is modelled as a map held by a
    `NamedKeys` object; reading arguments and creating the contract package are
    host services and appear here as parameters. */
module FibContract {
  import opened Sequences

  const ARG_NTH_FIB: string := "nth_fib"
  const FIB_ENTRY_POINT_NAME: string := "fib"
  const LAST_RESULT_NAMED_KEY: string := "last_result"
  const CONTRACT_HASH_NAMED_KEY: string := "fib_contract_hash"
  const CONTRACT_VERSION_NAMED_KEY: string := "fib_contract_version"
  const CONTRACT_PACKAGE_HASH_NAMED_KEY: string := "fib_contract_package_hash"
  const CONTRACT_PACKAGE_ACCESS_NAMED_KEY: string := "fib_contract_package_access"

  newtype u16 = x: int | 0 <= x < 0x1_0000
  newtype u32 = x: int | 0 <= x < 0x1_0000_0000

  /** The contract's own error enum, represented as a `u16`. */
  datatype Error = InvalidIndex {
    function Discriminant(): u16
    {
      match this
      case InvalidIndex => 0
    }
  }

  /** The host's error type, reduced to the one variant this contract raises. */
  datatype ApiError = User(code: u16)

  /** The outcome of an entry point: it returns, or it reverts with an error
      and the host discards every change it made. */
  datatype Outcome = Ok | Revert(error: ApiError)

  /** `From<Error> for ApiError`: a contract error becomes a user error whose
      code is the enum's discriminant. */
  function ToApiError(e: Error): (r: ApiError)
    ensures r.code == e.Discriminant()
    ensures e == InvalidIndex ==> r == User(0)
  {
    User(e.Discriminant())
  }

  /** `u64::try_into::<usize>()` on wasm32: it succeeds exactly when the value
      fits in 32 bits, and then keeps the value. */
  function TryIntoUsize(n: u64): (r: Option<usize>)
    ensures r.Some? <==> n as int < USIZE_LIMIT
    ensures r.Some? ==> r.value as int == n as int
  {
    if n as int < USIZE_LIMIT then Some(n as int as usize) else None
  }

  /** A value kept behind a URef. */
  datatype CLValue = U64(u64) | U32(u32)

  /** A named key's target: a contract or package hash, a URef created by
      `storage::new_uref` (identified here by the value it holds), or the
      package's access URef handed out by the host. */
  datatype Key = Hash(addr: nat) | URef(value: CLValue) | AccessURef(addr: nat)

  /** A named-key store (an account's or a contract's). */
  class NamedKeys {
    var keys: map<string, Key>

    constructor (initial: map<string, Key>)
      ensures keys == initial
    {
      keys := initial;
    }

    /** `runtime::put_key`: binds the name, replacing any earlier binding. */
    method PutKey(name: string, key: Key)
      modifies this
      ensures keys == old(keys)[name := key]
    {
      keys := keys[name := key];
    }
  }

  /** The largest `nth_fib` for which `Fibonacci::new().nth(nth_fib)`, which is
      F(nth_fib + 2), performs no overflowing addition. */
  const MAX_NTH_FIB: int := 91

  /** The condition under which the unchecked additions of `fib` do not
      overflow: either the index is rejected before any addition, or the
      term it asks for fits in a `u64`. */
  predicate NoOverflow(nthFib: u64)
  {
    nthFib as int < USIZE_LIMIT ==> nthFib as int <= MAX_NTH_FIB
  }

  /** `NoOverflow` is exactly the condition that the computed term fits. */
  lemma NoOverflowIsFit(nthFib: u64)
    requires nthFib as int < USIZE_LIMIT
    ensures NoOverflow(nthFib) <==> Fib(nthFib as int + 2) < U64_LIMIT
  {
    FibFitsU64(nthFib as int + 2);
  }

  /** The `fib` entry point, run with the contract's named keys as `ctx` and
      the caller's `nth_fib` argument. An index that does not fit in `usize`
      reverts with `User(0)` and writes nothing; otherwise the term
      F(nth_fib + 2) is stored under `last_result` and no other name changes. */
  method FibEntry(ctx: NamedKeys, nthFib: u64) returns (outcome: Outcome)
    requires NoOverflow(nthFib)
    modifies ctx
    ensures outcome.Revert? <==> nthFib as int >= USIZE_LIMIT
    ensures outcome.Revert? ==> outcome.error == User(0) && ctx.keys == old(ctx.keys)
    ensures outcome.Ok? ==> Fib(nthFib as int + 2) < U64_LIMIT
    ensures outcome.Ok? ==>
      ctx.keys == old(ctx.keys)[LAST_RESULT_NAMED_KEY := URef(U64(Fib(nthFib as int + 2) as u64))]
  {
    var index := TryIntoUsize(nthFib);
    if index.None? {
      outcome := Revert(ToApiError(InvalidIndex));
      return;
    }
    NoOverflowIsFit(nthFib);
    var f := new Fibonacci();
    var nth := f.Nth(index.value);
    // The second `unwrap_or_revert`: `Nth` always yields `Some`, so taking
    // the value never reverts.
    var fib := nth.value;
    ctx.PutKey(LAST_RESULT_NAMED_KEY, URef(U64(fib)));
    outcome := Ok;
  }

  /** Two successful calls of `fib` leave only the second result under
      `last_result`, and nothing else in the store changes. */
  method FibEntryTwice(ctx: NamedKeys, first: u64, second: u64) returns (a: Outcome, b: Outcome)
    requires first as int <= MAX_NTH_FIB && second as int <= MAX_NTH_FIB
    modifies ctx
    ensures a == Ok && b == Ok
    ensures Fib(second as int + 2) < U64_LIMIT
    ensures ctx.keys == old(ctx.keys)[LAST_RESULT_NAMED_KEY := URef(U64(Fib(second as int + 2) as u64))]
  {
    a := FibEntry(ctx, first);
    b := FibEntry(ctx, second);
  }

  /** The first call of the integration test: after `fib` with `nth_fib = 9`
      the contract's `last_result` holds 89. */
  method FibEntryNine() returns (outcome: Outcome, lastResult: Option<Key>)
    ensures outcome == Ok && lastResult == Some(URef(U64(89)))
  {
    var ctx := new NamedKeys(map[]);
    outcome := FibEntry(ctx, 9);
    lastResult := if LAST_RESULT_NAMED_KEY in ctx.keys then Some(ctx.keys[LAST_RESULT_NAMED_KEY]) else None;
  }

  datatype CLType = U64Type | UnitType
  datatype Parameter = Parameter(name: string, clType: CLType)
  datatype EntryPointAccess = Public
  datatype EntryPointType = Session | Contract
  datatype EntryPoint = EntryPoint(
    name: string,
    args: seq<Parameter>,
    ret: CLType,
    access: EntryPointAccess,
    epType: EntryPointType)

  /** The host's entry-point table, keyed by entry-point name. */
  type EntryPoints = map<string, EntryPoint>

  /** The table `call` builds: an empty table into which the `fib` entry point
      is added. It has exactly one entry, `fib`, taking the single `u64`
      argument that `FibEntry` reads, returning unit, public, run in the
      contract's context. */
  function DeclaredEntryPoints(): (eps: EntryPoints)
    ensures eps.Keys == {FIB_ENTRY_POINT_NAME}
    ensures eps[FIB_ENTRY_POINT_NAME].name == FIB_ENTRY_POINT_NAME
    ensures eps[FIB_ENTRY_POINT_NAME].args == [Parameter(ARG_NTH_FIB, U64Type)]
    ensures eps[FIB_ENTRY_POINT_NAME].ret == UnitType
    ensures eps[FIB_ENTRY_POINT_NAME].access == Public
    ensures eps[FIB_ENTRY_POINT_NAME].epType == Contract
  {
    var empty: EntryPoints := map[];
    var fib := EntryPoint(FIB_ENTRY_POINT_NAME, [Parameter(ARG_NTH_FIB, U64Type)], UnitType, Public, Contract);
    empty[fib.name := fib]
  }

  /** What `storage::new_contract` hands back or creates: the package hash and
      access URef it stores under the two names it is given, and the hash and
      version number of the new contract. */
  datatype Installed = Installed(packageHash: nat, accessURef: nat, contractHash: nat, version: u32)

  /** The installer `call`, run with the installing account's named keys. It
      declares the entry points and returns that table; handing it to the host
      is the host's side, and what the host creates arrives as `host`. The
      host records the package hash and access URef under the two package
      names, and `call` then records the contract hash and version. */
  method Call(account: NamedKeys, host: Installed) returns (declared: EntryPoints)
    modifies account
    ensures declared == DeclaredEntryPoints()
    ensures account.keys == old(account.keys)
      [CONTRACT_PACKAGE_HASH_NAMED_KEY := Hash(host.packageHash)]
      [CONTRACT_PACKAGE_ACCESS_NAMED_KEY := AccessURef(host.accessURef)]
      [CONTRACT_HASH_NAMED_KEY := Hash(host.contractHash)]
      [CONTRACT_VERSION_NAMED_KEY := URef(U32(host.version))]
  {
    declared := DeclaredEntryPoints();
    account.PutKey(CONTRACT_PACKAGE_HASH_NAMED_KEY, Hash(host.packageHash));
    account.PutKey(CONTRACT_PACKAGE_ACCESS_NAMED_KEY, AccessURef(host.accessURef));
    account.PutKey(CONTRACT_HASH_NAMED_KEY, Hash(host.contractHash));
    account.PutKey(CONTRACT_VERSION_NAMED_KEY, URef(U32(host.version)));
  }
}
