// The built-in functions of one account as they run on the storage handler (dcdtNFTCreate.go,
// dcdtNFTAddQuantity.go, dcdtNFTBurn.go, updateNFTAttributes.go, dcdtFreezeWipe.go, dcdtLocalMint.go,
// dcdtLocalBurn.go), each proved equal to its function of `Ledger`.
module Processes {
  import opened Bytes
  import opened Wrappers
  import opened TokenId
  import opened Ledger
  import opened Storage

  /** Saving a token and changing the liquidity. */
  method SaveAndAdjust(
    h: Handler, input: Input, sender: Addr, a: Addr, token: bytes, nonce: nat, t: TokenObject, mustUpdate: bool,
    delta: int)
    returns (r: Result<()>)
    modifies h
    ensures SaveWithLiquidity(h.cfg, old(h.State()), input, sender, a, token, nonce, t.AsToken(), mustUpdate, delta)
         == h.After(r)
  {
    var _ :- h.SaveToken(input, sender, a, token, nonce, t, mustUpdate);
    r := h.AddToLiquidity(token, nonce, delta);
  }

  lemma {:induction false} TotalLengthSnoc(args: seq<bytes>, i: nat)
    requires i < |args|
    ensures TotalLength(args[..i + 1]) == TotalLength(args[..i]) + |args[i]|
  {
    if i == 0 {
      assert args[..1][1..] == [];
    } else {
      TotalLengthSnoc(args[1..], i - 1);
      assert args[..i + 1][1..] == args[1..][..i];
      assert args[..i][1..] == args[1..][..i - 1];
    }
  }

  method SumLengths(args: seq<bytes>) returns (total: nat)
    ensures total == TotalLength(args)
  {
    total := 0;
    for i := 0 to |args|
      invariant total == TotalLength(args[..i])
    {
      TotalLengthSnoc(args, i);
      total := total + |args[i]|;
    }
    assert args[..|args|] == args;
  }

  /** The gas a call of one of these functions takes; sums and products wrap. */
  function CreateFee(cfg: Config, args: seq<bytes>): uint64 {
    U64(U64(TotalLength(args) * cfg.storeGas) + cfg.createGas)
  }

  function UpdateFee(cfg: Config, args: seq<bytes>): uint64
    requires |args| == 3
  {
    U64(cfg.updateGas + U64(|args[2]| * cfg.storeGas))
  }

  /** `dcdtNFTCreate.ProcessBuiltinFunction`, with the latest nonce read from the owner's account. */
  method ProcessCreate(h: Handler, input: Input, latest: uint64) returns (r: Result<nat>)
    modifies h
    ensures Create(h.cfg, old(h.State()), input, latest) == h.After(r)
    ensures r.Ok? ==> r.value + CreateFee(h.cfg, input.args) == input.gasProvided
  {
    hide SaveWithLiquidity, TotalLength;
    var _ :- CheckOwnCall(input, h.cfg.createGas);
    if |input.args| < 7 {
      return Err(InvalidArguments);
    }
    var owner := input.caller;
    if input.callType == ExecOnDestByCaller {
      owner :- RoleHolder(input);
    }
    if !input.allowed {
      return Err(ActionNotAllowed);
    }
    var total := SumLengths(input.args);
    var fee := U64(U64(total * h.cfg.storeGas) + h.cfg.createGas);
    if input.gasProvided < fee {
      return Err(NotEnoughGas);
    }
    var nonce := U64(latest + 1);
    var t := new TokenObject(CreatedToken(input, nonce));
    if t.meta.value.royalties > MAX_ROYALTY {
      return Err(InvalidArguments);
    }
    if t.value <= 0 {
      return Err(InvalidArguments);
    }
    if t.value > 1 && !input.allowedQuantity {
      return Err(ActionNotAllowed);
    }
    if h.cfg.valueLengthCheck && |input.args[1]| > MAX_QUANTITY_LENGTH {
      return Err(InvalidArguments);
    }
    var _ :- SaveAndAdjust(h, input, owner, owner, input.args[0], nonce, t, true, t.value);
    return Ok(input.gasProvided - fee);
  }

  /** Changes the caller's token object by `delta`, saves it and changes the liquidity alike. */
  method AddValue(h: Handler, input: Input, token: bytes, nonce: uint64, t: TokenObject, delta: int)
    returns (r: Result<()>)
    modifies h, t
    ensures var t1 := old(t.AsToken()).(value := old(t.value) + delta);
            SaveWithLiquidity(h.cfg, old(h.State()), input, input.caller, input.caller, token, nonce, t1, false, delta)
            == h.After(r)
  {
    t.SetValue(t.value + delta);
    r := SaveAndAdjust(h, input, input.caller, input.caller, token, nonce, t, false, delta);
  }

  /** `dcdtNFTAddQuantity.ProcessBuiltinFunction` */
  method ProcessAddQuantity(h: Handler, input: Input) returns (r: Result<nat>)
    modifies h
    ensures AddQuantity(h.cfg, old(h.State()), input) == h.After(r)
    ensures r.Ok? ==> r.value + h.cfg.quantityGas == input.gasProvided
  {
    hide SaveWithLiquidity;
    var _ :- CheckOwnCall(input, h.cfg.quantityGas);
    if |input.args| < 3 {
      return Err(InvalidArguments);
    }
    if !input.allowed {
      return Err(ActionNotAllowed);
    }
    var nonce := U64(SetBytes(input.args[1]));
    var t :- h.TokenOnSender(input.caller, input.args[0], nonce);
    if nonce == 0 {
      return Err(NFTDoesNotHaveMetadata);
    }
    if h.cfg.valueLengthCheck && |input.args[2]| > MAX_QUANTITY_LENGTH {
      return Err(InvalidArguments);
    }
    var value: int := SetBytes(input.args[2]);
    var _ :- AddValue(h, input, input.args[0], nonce, t, value);
    return Ok(input.gasProvided - h.cfg.quantityGas);
  }

  /** `dcdtNFTBurn.ProcessBuiltinFunction` */
  method ProcessBurn(h: Handler, input: Input) returns (r: Result<nat>)
    modifies h
    ensures Burn(h.cfg, old(h.State()), input) == h.After(r)
    ensures r.Ok? ==> r.value + h.cfg.burnGas == input.gasProvided
  {
    hide SaveWithLiquidity;
    var _ :- CheckOwnCall(input, h.cfg.burnGas);
    if |input.args| < 3 {
      return Err(InvalidArguments);
    }
    if !input.allowed {
      return Err(ActionNotAllowed);
    }
    var nonce := U64(SetBytes(input.args[1]));
    var t :- h.TokenOnSender(input.caller, input.args[0], nonce);
    if nonce == 0 {
      return Err(NFTDoesNotHaveMetadata);
    }
    var value: int := SetBytes(input.args[2]);
    if t.value < value {
      return Err(InvalidNFTQuantity);
    }
    var _ :- AddValue(h, input, input.args[0], nonce, t, -value);
    return Ok(input.gasProvided - h.cfg.burnGas);
  }

  /** Subtracting both costs in turn, each modulo 2^64, leaves what subtracting their wrapped sum leaves. */
  lemma SubtractInTurn(provided: uint64, a: uint64, b: uint64)
    requires U64(a + b) <= provided
    ensures U64(U64(provided - a) - b) == provided - U64(a + b)
  {
  }

  /** `dcdtNFTupdate.ProcessBuiltinFunction` */
  method ProcessUpdateAttributes(h: Handler, input: Input) returns (r: Result<nat>)
    modifies h
    ensures UpdateAttributes(h.cfg, old(h.State()), input) == h.After(r)
    ensures r.Ok? ==> |input.args| == 3 && r.value + UpdateFee(h.cfg, input.args) == input.gasProvided
  {
    var _ :- CheckOwnCall(input, h.cfg.updateGas);
    if |input.args| != 3 {
      return Err(InvalidArguments);
    }
    if !input.allowed {
      return Err(ActionNotAllowed);
    }
    var storing := U64(|input.args[2]| * h.cfg.storeGas);
    if input.gasProvided < U64(h.cfg.updateGas + storing) {
      return Err(NotEnoughGas);
    }
    var nonce := U64(SetBytes(input.args[1]));
    if nonce == 0 {
      return Err(NFTDoesNotHaveMetadata);
    }
    var t :- h.TokenOnSender(input.caller, input.args[0], nonce);
    if t.meta.None? {
      return Err(Panic);
    }
    t.meta := Some(t.meta.value.(attributes := input.args[2]));
    var _ :- h.SaveToken(input, input.caller, input.caller, input.args[0], nonce, t, true);
    SubtractInTurn(input.gasProvided, h.cfg.updateGas, storing);
    return Ok(U64(U64(input.gasProvided - h.cfg.updateGas) - storing));
  }

  /** `dcdtFreezeWipe.toggleFreeze` */
  method ProcessSetFrozen(h: Handler, input: Input, frozen: bool) returns (r: Result<()>)
    modifies h
    ensures SetFrozen(h.cfg, old(h.State()), input, frozen) == h.After(r)
  {
    if |input.args| != 1 {
      return Err(InvalidArguments);
    }
    if input.caller != h.cfg.dcdtSC {
      return Err(NotSystemContract);
    }
    var slot := Slot(input.recipient, input.args[0]);
    var t := h.RetrieveRecord(slot);
    t.properties := FreezeBytes(frozen);
    h.SaveRecord(slot, t);
    return Ok(());
  }

  /** `dcdtFreezeWipe.removeLiquidity`, for what is extracted from the argument. */
  method RemoveLiquidity(h: Handler, arg: bytes, value: int) returns (r: Result<()>)
    modifies h
    ensures var (token, nonce) := ExtractWipe(arg);
            (if h.cfg.wipeDecreasesLiquidity then AddLiquidity(h.cfg, old(h.State()), token, nonce, -value)
             else Ok(old(h.State()))) == h.After(r)
  {
    if !h.cfg.wipeDecreasesLiquidity {
      return Ok(());
    }
    var (token, nonce) := ExtractWipe(arg);
    r := h.AddToLiquidity(token, nonce, -value);
  }

  /** `dcdtFreezeWipe.wipeIfApplicable` */
  method ProcessWipe(h: Handler, input: Input) returns (r: Result<()>)
    modifies h
    ensures Wipe(h.cfg, old(h.State()), input) == h.After(r)
  {
    if |input.args| != 1 {
      return Err(InvalidArguments);
    }
    if input.caller != h.cfg.dcdtSC {
      return Err(NotSystemContract);
    }
    var slot := Slot(input.recipient, input.args[0]);
    var t := h.RetrieveRecord(slot);
    if !IsFrozen(t.properties) {
      return Err(CannotWipeNotFrozen);
    }
    h.accounts := h.accounts - {slot};
    assert h.State() == Drop(old(h.State()), slot);
    r := RemoveLiquidity(h, input.args[0], t.value);
  }

  /** `dcdtLocalMint` and `dcdtLocalBurn` */
  method ProcessMintOrBurn(h: Handler, input: Input, sign: int) returns (r: Result<nat>)
    modifies h
    ensures MintOrBurn(h.cfg, old(h.State()), input, sign) == h.After(r)
    ensures r.Ok? ==> r.value + (if sign > 0 then h.cfg.mintGas else h.cfg.localBurnGas) == input.gasProvided
  {
    if |input.args| < 2 {
      return Err(InvalidArguments);
    }
    if input.caller != input.recipient {
      return Err(InvalidRcvAddr);
    }
    var value: int := SetBytes(input.args[1]);
    if value <= 0 {
      return Err(NegativeValue);
    }
    if input.gasProvided < if sign > 0 then h.cfg.mintGas else h.cfg.localBurnGas {
      return Err(NotEnoughGas);
    }
    if !input.allowed {
      return Err(ActionNotAllowed);
    }
    if (sign > 0 || h.cfg.consistentLengths) && |input.args[1]| > h.cfg.maxIssueLength {
      return Err(InvalidArguments);
    }
    var _ :- h.AddToBalance(input, input.caller, input.args[0], sign * value);
    return Ok(input.gasProvided - if sign > 0 then h.cfg.mintGas else h.cfg.localBurnGas);
  }
}
