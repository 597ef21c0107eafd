// keyValueStorage.go: saving a list of key-value pairs under an account, and its price.
module KeyValue {
  import opened Bytes
  import opened Wrappers
  import opened Ledger
  import opened Transfers

  type Store = map<bytes, bytes>

  /** Gas schedule, the flag FixGasRemainingForSaveKeyValue and the protected prefix of another package. */
  datatype Pricing = Pricing(base: uint64, persist: uint64, store: uint64, fixGas: bool, protected: bytes)

  // ----- storage -----

  function Read(m: Store, key: bytes): bytes {
    if key in m then m[key] else []
  }

  /** `SaveKeyValue`: an empty value removes the key. */
  function Write(m: Store, key: bytes, value: bytes): Store {
    if value == [] then m - {key} else m[key := value]
  }

  ghost predicate NoEmptyValue(m: Store) {
    forall k :: k in m ==> m[k] != []
  }

  /** `IsAllowedToSaveUnderKey` */
  predicate Allowed(p: Pricing, key: bytes) {
    !(p.protected <= key)
  }

  /** All pairs from argument `i` on, applied in order. */
  function Applied(m: Store, args: seq<bytes>, i: nat): Store
    requires |args| % 2 == 0 && i % 2 == 0
    decreases |args| - i
  {
    if i >= |args| then m else Applied(Write(m, args[i], args[i + 1]), args, i + 2)
  }

  // ----- price -----

  function Growth(before: bytes, after: bytes): nat {
    if |before| < |after| then |after| - |before| else 0
  }

  function Product(a: nat, b: nat): nat {
    a * b
  }

  /** Persisting the pair, and storing what the value grows by over the value it finds. */
  function PairCost(p: Pricing, m: Store, key: bytes, value: bytes): nat {
    Product(|value| + |key|, p.persist) + Product(p.store, Growth(Read(m, key), value))
  }

  /** The cost of the pairs from `i` on, each measured against the storage the earlier ones leave. */
  function Cost(p: Pricing, m: Store, args: seq<bytes>, i: nat): nat
    requires |args| % 2 == 0 && i % 2 == 0
    decreases |args| - i
  {
    if i >= |args| then 0
    else PairCost(p, m, args[i], args[i + 1]) + Cost(p, Write(m, args[i], args[i + 1]), args, i + 2)
  }

  // ----- what the code computes -----

  /** One turn of the loop: the storage and the gas used after the pair at `i`. */
  function SaveOne(
    p: Pricing, m: Store, key: bytes, value: bytes, used: uint64, provided: uint64): Result<(Store, uint64)> {
    var persisted := U64(used + U64(Product(|value| + |key|, p.persist)));
    var _ :- Need(Allowed(p, key), OperationNotPermitted);
    if Read(m, key) == value then
      Ok((m, persisted))
    else
      var stored := U64(persisted + U64(Product(p.store, Growth(Read(m, key), value))));
      var _ :- Need(provided >= stored, NotEnoughGas);
      Ok((Write(m, key, value), stored))
  }

  function SaveFrom(
    p: Pricing, m: Store, args: seq<bytes>, i: nat, used: uint64, provided: uint64): Result<(Store, uint64)>
    requires |args| % 2 == 0 && i % 2 == 0
    decreases |args| - i
  {
    if i >= |args| then
      Ok((m, used))
    else
      var (m1, used1) :- SaveOne(p, m, args[i], args[i + 1], used, provided);
      SaveFrom(p, m1, args, i + 2, used1, provided)
  }

  /** `checkArgumentsForSaveKeyValue` */
  function CheckArguments(input: Input): Result<()> {
    var _ :- Need(|input.args| >= 2, InvalidArguments);
    var _ :- Need(|input.args| % 2 == 0, InvalidArguments);
    var _ :- Need(input.caller == input.recipient, OperationNotPermitted);
    Need(!IsSmartContract(input.caller), OperationNotPermitted)
  }

  /** `subtractGasFromVMoutput` */
  function Remaining(p: Pricing, provided: uint64, used: uint64): Result<uint64> {
    var _ :- Need(!p.fixGas || provided >= used, NotEnoughGas);
    Ok(U64(provided - used))
  }

  /** `saveKeyValueStorage.ProcessBuiltinFunction`: the storage and the remaining gas. */
  function SaveKeyValue(p: Pricing, m: Store, input: Input): Result<(Store, uint64)> {
    var _ :- CheckArguments(input);
    var (m1, used) :- SaveFrom(p, m, input.args, 0, p.base, input.gasProvided);
    var left :- Remaining(p, input.gasProvided, used);
    Ok((m1, left))
  }

  /** What is left of the loop once one turn is known. */
  lemma RestIs(
    p: Pricing, one: Result<(Store, uint64)>, m: Store, r: Result<uint64>, args: seq<bytes>, i: nat, provided: uint64)
    requires |args| % 2 == 0 && i % 2 == 0
    requires if one.Ok? then r == Ok(one.value.1) && m == one.value.0 else r == Err(one.error)
    ensures RestFrom(p, one, args, i, provided) ==
            if r.Ok? then SaveFrom(p, m, args, i, r.value, provided) else Err(r.error)
  {
  }

  class UserAccount {
    var storage: Store

    /** The body of the loop, on the account. */
    method SavePair(p: Pricing, key: bytes, value: bytes, used: uint64, provided: uint64) returns (r: Result<uint64>)
      modifies this
      ensures match SaveOne(p, old(storage), key, value, used, provided)
              case Ok((m, used1)) => r == Ok(used1) && storage == m
              case Err(e) => r == Err(e)
    {
      var useGas := U64(used + U64(Product(|value| + |key|, p.persist)));
      if !Allowed(p, key) {
        return Err(OperationNotPermitted);
      }
      var oldValue := Read(storage, key);
      if oldValue == value {
        return Ok(useGas);
      }
      var lengthChange: nat := 0;
      if |oldValue| < |value| {
        lengthChange := |value| - |oldValue|;
      }
      useGas := U64(useGas + U64(Product(p.store, lengthChange)));
      if provided < useGas {
        return Err(NotEnoughGas);
      }
      storage := Write(storage, key, value);
      return Ok(useGas);
    }

    /** The loop over the pairs. */
    method SavePairs(p: Pricing, args: seq<bytes>, provided: uint64) returns (r: Result<uint64>)
      requires |args| % 2 == 0
      modifies this
      ensures match SaveFrom(p, old(storage), args, 0, p.base, provided)
              case Ok((m, used)) => r == Ok(used) && storage == m
              case Err(e) => r == Err(e)
    {
      hide SaveOne, RestFrom, Write;
      ghost var all := SaveFrom(p, storage, args, 0, p.base, provided);
      var useGas := p.base;
      var i := 0;
      while i < |args|
        invariant i <= |args| && i % 2 == 0
        invariant all == SaveFrom(p, storage, args, i, useGas, provided)
      {
        SaveFromStep(p, storage, args, i, useGas, provided);
        ghost var one := SaveOne(p, storage, args[i], args[i + 1], useGas, provided);
        r := SavePair(p, args[i], args[i + 1], useGas, provided);
        RestIs(p, one, storage, r, args, i + 2, provided);
        if r.Err? {
          return;
        }
        useGas := r.value;
        i := i + 2;
      }
      return Ok(useGas);
    }

    /** `saveKeyValueStorage.ProcessBuiltinFunction` */
    method ProcessSaveKeyValue(p: Pricing, input: Input) returns (r: Result<uint64>)
      modifies this
      ensures match SaveKeyValue(p, old(storage), input)
              case Ok((m, left)) => r == Ok(left) && storage == m
              case Err(e) => r == Err(e)
    {
      var _ :- CheckArguments(input);
      var useGas :- SavePairs(p, input.args, input.gasProvided);
      r := Remaining(p, input.gasProvided, useGas);
    }
  }

  // ----- what it achieves -----

  /** Numbers that differ by a multiple of 2^64 wrap to the same. */
  lemma WrapsAlike(a: int, q: int)
    ensures U64(a + q * TWO64) == U64(a)
  {
  }

  /** Wrapping one summand before the sum changes nothing. */
  lemma AddWraps(a: int, x: int)
    ensures U64(U64(a) + U64(x)) == U64(a + x)
  {
    assert U64(a) + U64(x) + (a / TWO64 + x / TWO64) * TWO64 == a + x;
    WrapsAlike(U64(a) + U64(x), a / TWO64 + x / TWO64);
  }

  lemma WriteKeeps(m: Store, key: bytes, value: bytes)
    requires NoEmptyValue(m)
    ensures NoEmptyValue(Write(m, key, value))
    ensures Read(Write(m, key, value), key) == value
    ensures forall k :: k != key ==> Read(Write(m, key, value), k) == Read(m, k)
    ensures Read(m, key) == value ==> Write(m, key, value) == m
  {
  }

  /** One turn writes the pair, and charges its cost modulo 2^64. */
  lemma SaveOneCharges(p: Pricing, m: Store, key: bytes, value: bytes, used: uint64, provided: uint64, total: int)
    requires NoEmptyValue(m) && used == U64(total) && SaveOne(p, m, key, value, used, provided).Ok?
    ensures var (m1, used1) := SaveOne(p, m, key, value, used, provided).value;
            && m1 == Write(m, key, value) && used1 == U64(total + PairCost(p, m, key, value))
            && Allowed(p, key)
            && (Read(m, key) != value ==> used1 <= provided)
  {
    WriteKeeps(m, key, value);
    var first: int := Product(|value| + |key|, p.persist);
    var second: int := Product(p.store, Growth(Read(m, key), value));
    AddWraps(total, first);
    AddWraps(total + first, second);
    GrowthOfSame(p, m, key, value);
  }

  lemma GrowthOfSame(p: Pricing, m: Store, key: bytes, value: bytes)
    ensures Read(m, key) == value ==> Product(p.store, Growth(Read(m, key), value)) == 0
  {
  }

  /** The rest of the loop from the state one turn left. */
  ghost predicate Charges(p: Pricing, m: Store, args: seq<bytes>, i: nat, r: Result<(Store, uint64)>, total: int)
    requires |args| % 2 == 0 && i % 2 == 0
  {
    r.Ok? ==>
      && r.value == (Applied(m, args, i), U64(total + Cost(p, m, args, i)))
      && AllAllowed(p, args, i)
  }

  predicate AllAllowed(p: Pricing, args: seq<bytes>, i: nat) {
    forall k :: i <= k < |args| && k % 2 == 0 ==> Allowed(p, args[k])
  }

  /** The rest of the loop from the state one turn left. */
  function RestFrom(p: Pricing, one: Result<(Store, uint64)>, args: seq<bytes>, i: nat, provided: uint64)
    : Result<(Store, uint64)>
    requires |args| % 2 == 0 && i % 2 == 0
  {
    var (m1, used1) :- one;
    SaveFrom(p, m1, args, i, used1, provided)
  }

  lemma SaveFromStep(p: Pricing, m: Store, args: seq<bytes>, i: nat, used: uint64, provided: uint64)
    requires |args| % 2 == 0 && i % 2 == 0 && i < |args|
    ensures SaveFrom(p, m, args, i, used, provided)
         == RestFrom(p, SaveOne(p, m, args[i], args[i + 1], used, provided), args, i + 2, provided)
  {
  }

  /** The turn wrote the pair and charged `pair`. */
  ghost predicate OneCharges(
    p: Pricing, m: Store, key: bytes, value: bytes, one: Result<(Store, uint64)>, total: int, pair: int)
  {
    one.Ok? ==>
      && NoEmptyValue(one.value.0) && one.value.0 == Write(m, key, value) && one.value.1 == U64(total + pair)
      && Allowed(p, key)
  }

  lemma {:induction false} SaveFromCharges(
    p: Pricing, m: Store, args: seq<bytes>, i: nat, used: uint64, provided: uint64, total: int)
    requires |args| % 2 == 0 && i % 2 == 0 && NoEmptyValue(m) && used == U64(total)
    ensures Charges(p, m, args, i, SaveFrom(p, m, args, i, used, provided), total)
    decreases |args| - i, 1
  {
    if i < |args| {
      var one := SaveOne(p, m, args[i], args[i + 1], used, provided);
      if one.Ok? {
        SaveOneCharges(p, m, args[i], args[i + 1], used, provided, total);
        WriteKeeps(m, args[i], args[i + 1]);
      }
      SaveFromStep(p, m, args, i, used, provided);
      RestCharges(p, m, args, i, one, provided, total, PairCost(p, m, args[i], args[i + 1]));
    }
  }

  lemma {:induction false} RestCharges(
    p: Pricing, m: Store, args: seq<bytes>, i: nat, one: Result<(Store, uint64)>, provided: uint64, total: int,
    pair: int)
    requires |args| % 2 == 0 && i % 2 == 0 && i < |args| && pair == PairCost(p, m, args[i], args[i + 1])
    requires OneCharges(p, m, args[i], args[i + 1], one, total, pair)
    ensures Charges(p, m, args, i, RestFrom(p, one, args, i + 2, provided), total)
    decreases |args| - i, 0
  {
    if one.Ok? {
      SaveFromCharges(p, one.value.0, args, i + 2, one.value.1, provided, total + pair);
      ChargesCons(p, m, args, i, SaveFrom(p, one.value.0, args, i + 2, one.value.1, provided), total, pair);
    }
  }

  lemma ChargesCons(p: Pricing, m: Store, args: seq<bytes>, i: nat, r: Result<(Store, uint64)>, total: int, pair: int)
    requires |args| % 2 == 0 && i % 2 == 0 && i < |args|
    requires pair == PairCost(p, m, args[i], args[i + 1]) && Allowed(p, args[i])
    requires Charges(p, Write(m, args[i], args[i + 1]), args, i + 2, r, total + pair)
    ensures Charges(p, m, args, i, r, total)
  {
    var rest: int := Cost(p, Write(m, args[i], args[i + 1]), args, i + 2);
    assert Cost(p, m, args, i) == pair + rest;
    assert total + pair + rest == total + (pair + rest);
  }

  lemma {:induction false} AppliedElsewhere(m: Store, args: seq<bytes>, i: nat, key: bytes)
    requires |args| % 2 == 0 && i % 2 == 0 && NoEmptyValue(m)
    requires forall k :: i <= k < |args| && k % 2 == 0 ==> args[k] != key
    ensures Read(Applied(m, args, i), key) == Read(m, key)
    decreases |args| - i
  {
    if i < |args| {
      WriteKeeps(m, args[i], args[i + 1]);
      AppliedElsewhere(Write(m, args[i], args[i + 1]), args, i + 2, key);
    }
  }

  /** The last pair for a key decides its value, however often the key occurs. */
  lemma {:induction false} AppliedLast(m: Store, args: seq<bytes>, i: nat, last: nat)
    requires |args| % 2 == 0 && i % 2 == 0 && last % 2 == 0 && NoEmptyValue(m)
    requires i <= last < |args| && forall k :: last < k < |args| && k % 2 == 0 ==> args[k] != args[last]
    ensures Read(Applied(m, args, i), args[last]) == args[last + 1]
    decreases last - i
  {
    WriteKeeps(m, args[i], args[i + 1]);
    var m1 := Write(m, args[i], args[i + 1]);
    if i == last {
      AppliedElsewhere(m1, args, i + 2, args[last]);
    } else {
      AppliedLast(m1, args, i + 2, last);
    }
  }

  /** With the fix a successful call is its loop, and what remains is the difference. */
  lemma FixedIsLoop(p: Pricing, m: Store, input: Input)
    requires p.fixGas && SaveKeyValue(p, m, input).Ok?
    ensures |input.args| % 2 == 0
    ensures var r := SaveFrom(p, m, input.args, 0, p.base, input.gasProvided);
            && r.Ok? && r.value.1 <= input.gasProvided
            && SaveKeyValue(p, m, input).value == (r.value.0, input.gasProvided - r.value.1)
  {
    U64Identity(input.gasProvided - SaveFrom(p, m, input.args, 0, p.base, input.gasProvided).value.1);
  }

  /** A successful call with the gas fix: the pairs are applied in order, no protected key changes, and the
      gas taken is the cost measured pair by pair, exactly when that cost is below 2^64. */
  lemma SavedAndPaid(p: Pricing, m: Store, input: Input, key: bytes)
    requires NoEmptyValue(m) && p.fixGas && SaveKeyValue(p, m, input).Ok?
    ensures |input.args| % 2 == 0
    ensures var (m1, left) := SaveKeyValue(p, m, input).value;
            var cost, taken := p.base + Cost(p, m, input.args, 0), input.gasProvided - left;
            && m1 == Applied(m, input.args, 0)
            && (!Allowed(p, key) ==> Read(m1, key) == Read(m, key))
            && left <= input.gasProvided
            && taken == U64(cost)
            && (taken == cost <==> cost < TWO64)
  {
    hide SaveFrom, SaveKeyValue, Applied;
    FixedIsLoop(p, m, input);
    U64Identity(p.base);
    SaveFromCharges(p, m, input.args, 0, p.base, input.gasProvided, p.base);
    U64Identity(p.base + Cost(p, m, input.args, 0));
    if !Allowed(p, key) {
      AppliedElsewhere(m, input.args, 0, key);
    }
  }

  lemma OneSucceeds(p: Pricing, m: Store, key: bytes, value: bytes, used: nat, provided: uint64)
    requires NoEmptyValue(m) && Allowed(p, key) && used + PairCost(p, m, key, value) <= provided
    ensures SaveOne(p, m, key, value, used, provided) == Ok((Write(m, key, value), used + PairCost(p, m, key, value)))
  {
    hide Product, Growth, Write, Read, U64;
    WriteKeeps(m, key, value);
    var first, second := Product(|value| + |key|, p.persist), Product(p.store, Growth(Read(m, key), value));
    AddWraps(used, first);
    AddWraps(used + first, second);
    U64Identity(used);
    U64Identity(used + first);
    U64Identity(used + first + second);
    GrowthOfSame(p, m, key, value);
  }

  lemma {:induction false} LoopSucceeds(p: Pricing, m: Store, args: seq<bytes>, i: nat, used: nat, provided: uint64)
    requires |args| % 2 == 0 && i % 2 == 0 && NoEmptyValue(m)
    requires AllAllowed(p, args, i) && used + Cost(p, m, args, i) <= provided
    ensures SaveFrom(p, m, args, i, used, provided) == Ok((Applied(m, args, i), used + Cost(p, m, args, i)))
    decreases |args| - i
  {
    hide SaveOne, PairCost, Write;
    if i < |args| {
      OneSucceeds(p, m, args[i], args[i + 1], used, provided);
      WriteKeeps(m, args[i], args[i + 1]);
      LoopSucceeds(p, Write(m, args[i], args[i + 1]), args, i + 2, used + PairCost(p, m, args[i], args[i + 1]),
                   provided);
    }
  }

  /** With the gas fix, and a cost below 2^64, a call succeeds exactly for an account that is no contract and acts
      for itself, with pairs of arguments, none for a protected key, and gas that covers the cost. */
  lemma SucceedsExactly(p: Pricing, m: Store, input: Input)
    requires NoEmptyValue(m) && p.fixGas && |input.args| % 2 == 0 && p.base + Cost(p, m, input.args, 0) < TWO64
    ensures SaveKeyValue(p, m, input).Ok? <==>
              && input.args != [] && input.caller == input.recipient && !IsSmartContract(input.caller)
              && AllAllowed(p, input.args, 0) && p.base + Cost(p, m, input.args, 0) <= input.gasProvided
  {
    hide SaveFrom, Cost;
    if SaveKeyValue(p, m, input).Ok? {
      FixedIsLoop(p, m, input);
      U64Identity(p.base);
      SaveFromCharges(p, m, input.args, 0, p.base, input.gasProvided, p.base);
      U64Identity(p.base + Cost(p, m, input.args, 0));
    }
    if AllAllowed(p, input.args, 0) && p.base + Cost(p, m, input.args, 0) <= input.gasProvided {
      LoopSucceeds(p, m, input.args, 0, p.base, input.gasProvided);
    }
  }

  /** Without the fix a successful call may cost more than the gas provided: it charges its cost, measured
      pair by pair, exactly when the gas provided covers it. */
  lemma RemainingUnfixed(p: Pricing, m: Store, input: Input)
    requires NoEmptyValue(m) && !p.fixGas && SaveKeyValue(p, m, input).Ok?
    ensures |input.args| % 2 == 0
    ensures var cost, left := p.base + Cost(p, m, input.args, 0), SaveKeyValue(p, m, input).value.1;
            && left == U64(input.gasProvided - cost)
            && (left + cost == input.gasProvided <==> cost <= input.gasProvided)
  {
    hide SaveFrom;
    U64Identity(p.base);
    SaveFromCharges(p, m, input.args, 0, p.base, input.gasProvided, p.base);
    var cost, provided := p.base + Cost(p, m, input.args, 0), input.gasProvided;
    var used := SaveFrom(p, m, input.args, 0, p.base, provided).value.1;
    WrapsAlike(provided - cost, cost / TWO64);
    assert provided - cost + cost / TWO64 * TWO64 == provided - used;
    if cost <= provided {
      U64Identity(provided - cost);
    }
  }

  /** The gas is checked only when a value changes: a call that ends with a change is within its gas. */
  lemma {:induction false} LastChangeChecked(
    p: Pricing, m: Store, args: seq<bytes>, i: nat, used: uint64, provided: uint64)
    requires |args| % 2 == 0 && i % 2 == 0 && i < |args| && NoEmptyValue(m)
    requires Read(AppliedTo(m, args, i, |args| - 2), args[|args| - 2]) != args[|args| - 1]
    ensures WithinGas(SaveFrom(p, m, args, i, used, provided), provided)
    decreases |args| - i
  {
    var key, value := args[i], args[i + 1];
    var one := SaveOne(p, m, key, value, used, provided);
    SaveFromStep(p, m, args, i, used, provided);
    WriteKeeps(m, key, value);
    if one.Ok? {
      SaveOneWrites(p, m, key, value, used, provided);
      if i + 2 < |args| {
        LastChangeChecked(p, Write(m, key, value), args, i + 2, one.value.1, provided);
      } else {
        SaveFromEnd(p, one.value.0, args, one.value.1, provided);
      }
    }
  }

  ghost predicate WithinGas(r: Result<(Store, uint64)>, provided: uint64) {
    r.Ok? ==> r.value.1 <= provided
  }

  lemma SaveFromEnd(p: Pricing, m: Store, args: seq<bytes>, used: uint64, provided: uint64)
    requires |args| % 2 == 0
    ensures SaveFrom(p, m, args, |args|, used, provided) == Ok((m, used))
  {
  }

  lemma SaveOneWrites(p: Pricing, m: Store, key: bytes, value: bytes, used: uint64, provided: uint64)
    requires NoEmptyValue(m) && SaveOne(p, m, key, value, used, provided).Ok?
    ensures var (m1, used1) := SaveOne(p, m, key, value, used, provided).value;
            m1 == Write(m, key, value) && (Read(m, key) != value ==> used1 <= provided)
  {
    WriteKeeps(m, key, value);
  }

  /** The pairs from `i` up to `end`, applied in order. */
  function AppliedTo(m: Store, args: seq<bytes>, i: nat, end: nat): Store
    requires |args| % 2 == 0 && i % 2 == 0 && end % 2 == 0 && end <= |args|
    decreases end - i
  {
    if i >= end then m else AppliedTo(Write(m, args[i], args[i + 1]), args, i + 2, end)
  }

  /** The failure without the fix: a call that changes nothing leaves more gas than it was given. */
  lemma UnfixedCreatesGas(input: Input)
    requires input.args == [[1], [2]] && input.caller == input.recipient == [7] && input.gasProvided == 0
    ensures SaveKeyValue(Pricing(1, 0, 0, false, [80]), map[[1] := [2]], input) == Ok((map[[1] := [2]], TWO64 - 1))
  {
    var p, m: Store := Pricing(1, 0, 0, false, [80]), map[[1] := [2]];
    assert Allowed(p, [1]) by {
      assert [1][0] != [80][0];
    }
    assert SaveOne(p, m, [1], [2], 1, 0) == Ok((m, 1));
    assert SaveFrom(p, m, input.args, 2, 1, 0) == Ok((m, 1));
  }
}
