// What a call that succeeds has passed: who may act, what it costs, and which tokens may move.
module Guards {
  import opened Bytes
  import opened Wrappers
  import opened TokenId
  import opened Ledger
  import opened Transfers
  import opened Shapes
  import opened Network
  import opened Metadata
  import opened Entries
  import opened Balances

  // ----- paused tokens -----

  /** Neither pause nor freezing applies to returns after an error and to the system contract. */
  predicate Exempt(cfg: Config, input: Input, a: Addr) {
    input.returnAfterError || a == cfg.dcdtSC
  }

  /** The token, or the one nonce of it, is paused. */
  predicate IsPaused(input: Input, token: bytes, nonce: nat) {
    token in input.paused || KeyOf(token, nonce) in input.paused
  }

  /** A save is refused as frozen or paused exactly if the saved token is frozen, or the token or its nonce paused,
      exemptions aside, or the account's record of the whole collection is frozen. */
  ghost predicate Blocked(cfg: Config, s: Shard, input: Input, a: Addr, token: bytes, nonce: nat, properties: bytes) {
    || (!Exempt(cfg, input, a) && (IsFrozen(properties) || IsPaused(input, token, nonce)))
    || (cfg.checkFrozenCollection && nonce > 0 && !input.returnAfterError
        && IsFrozen(RecordAt(s, Slot(a, token)).properties))
  }

  /** Writing the entry, where one is to be written, finds the shards to mark. */
  ghost predicate Markable(
    cfg: Config, s: Shard, sender: Addr, key: bytes, nonce: nat, hasMeta: bool, mustUpdate: bool)
  {
    cfg.saveToSystem && !cfg.sendAlways && nonce > 0 && hasMeta && (mustUpdate || key !in s.system) ==>
      && (s.id == META || s.id < cfg.numShards)
      && (cfg.shardOf(sender) == META || cfg.shardOf(sender) < cfg.numShards)
  }

  lemma SavesExactly(
    cfg: Config, s: Shard, input: Input, sender: Addr, a: Addr, token: bytes, nonce: nat, t: Token, mustUpdate: bool)
    ensures SaveToken(cfg, s, input, sender, a, token, nonce, t, mustUpdate).Ok? <==>
              && !Blocked(cfg, s, input, a, token, nonce, t.properties)
              && Markable(cfg, s, sender, KeyOf(token, nonce), nonce, t.meta.Some?, mustUpdate)
  {
    hide KeyOf;
  }

  lemma PausedSave(
    cfg: Config, s: Shard, input: Input, sender: Addr, a: Addr, token: bytes, nonce: nat, t: Token, mustUpdate: bool)
    requires IsPaused(input, token, nonce) && !Exempt(cfg, input, a)
    ensures SaveToken(cfg, s, input, sender, a, token, nonce, t, mustUpdate).Err?
  {
    hide SaveToken, KeyOf;
    SavesExactly(cfg, s, input, sender, a, token, nonce, t, mustUpdate);
  }

  /** The place and nonce that an action of one account is about. */
  predicate ActsOnPaused(cfg: Config, s: Shard, action: Action, input: Input) {
    match action
    case Creating(latest) =>
      RoleHolder(input).Ok? && input.args != [] && IsPaused(input, input.args[0], U64(latest + 1))
      && !Exempt(cfg, input, RoleHolder(input).value)
    case Freezing(_) => false
    case Wiping => false
    case Minting(_) => input.args != [] && input.args[0] in input.paused && !Exempt(cfg, input, input.caller)
    case MovingFungible =>
      input.args != [] && input.args[0] in input.paused
      && ((cfg.shardOf(input.caller) == s.id && !Exempt(cfg, input, input.caller))
          || (cfg.shardOf(input.recipient) == s.id && !Exempt(cfg, input, input.recipient)))
    case _ =>
      |input.args| >= 2 && IsPaused(input, input.args[0], U64(SetBytes(input.args[1])))
      && !Exempt(cfg, input, input.caller)
  }

  /** While a token is paused, no creation, addition, burn, update, mint or fungible transfer of it succeeds. */
  lemma PausedAct(cfg: Config, s: Shard, action: Action, input: Input)
    requires ActsOnPaused(cfg, s, action, input)
    ensures ActOn(cfg, s, action, input).Err?
  {
    hide SaveToken, SaveRecord, KeyOf, AddLiquidity;
    if ActOn(cfg, s, action, input).Ok? {
      match action
      case Creating(latest) =>
        var owner, t := RoleHolder(input).value, CreatedToken(input, U64(latest + 1));
        PausedSave(cfg, s, input, owner, owner, input.args[0], U64(latest + 1), t, true);
      case Minting(_) =>
      case MovingFungible =>
      case _ => PausedOwn(cfg, s, action, input);
    }
  }

  lemma PausedOwn(cfg: Config, s: Shard, action: Action, input: Input)
    requires action.AddingQuantity? || action.Burning? || action.Updating?
    requires ActsOnPaused(cfg, s, action, input)
    ensures ActOn(cfg, s, action, input).Err?
  {
    hide SaveToken, KeyOf, AddLiquidity;
    var a, token, nonce := input.caller, input.args[0], U64(SetBytes(input.args[1]));
    forall t: Token, mustUpdate: bool
      ensures SaveToken(cfg, s, input, a, a, token, nonce, t, mustUpdate).Err?
    {
      PausedSave(cfg, s, input, a, a, token, nonce, t, mustUpdate);
    }
  }

  lemma PausedDebit(cfg: Config, s: Shard, input: Input, item: Item)
    requires IsPaused(input, item.token, item.nonce) && !Exempt(cfg, input, input.caller)
    ensures Debit(cfg, s, input, item).Err?
  {
    hide SaveToken, KeyOf, IsPaused;
    DebitShape(cfg, s, input, item);
    var before := TokenAt(cfg, s, input.caller, item.token, item.nonce);
    PausedSave(cfg, s, input, input.caller, input.caller, item.token, item.nonce,
               before.(value := before.value - item.value), false);
  }

  lemma PausedCredit(cfg: Config, s: Shard, input: Input, snd: Addr, dst: Addr, t: Token, token: bytes, nonce: nat)
    requires IsPaused(input, token, nonce) && !Exempt(cfg, input, dst)
    ensures Credit(cfg, s, input, snd, dst, t, token, nonce).Err?
  {
    hide SaveToken, KeyOf, AddLiquidity, IsPaused;
    var sum := t.(value := t.value + TokenAt(cfg, s, dst, token, nonce).value);
    PausedSave(cfg, s, input, snd, dst, token, nonce, sum, false);
  }

  /** No single transfer of a paused token succeeds, on either side. */
  lemma PausedNft(cfg: Config, s: Shard, input: Input)
    requires |input.args| >= NFT_MIN_ARGS && IsPaused(input, input.args[0], U64(SetBytes(input.args[1])))
    requires !Exempt(cfg, input, if input.caller == input.recipient then input.caller else input.recipient)
    ensures NftTransfer(cfg, s, input).Err?
  {
    hide SendNft, Debit, Settle, Credit, NftOutput, IsPaused;
    if input.caller == input.recipient {
      SendNftShape(cfg, s, input);
      PausedDebit(cfg, s, input, NftItem(input.args));
    } else if NftPayload(cfg, input.args).Ok? {
      PausedCredit(cfg, s, input, input.caller, input.recipient, NftPayload(cfg, input.args).value, input.args[0],
                   U64(SetBytes(input.args[1])));
    }
  }

  // ----- the sender's loop -----

  /** What every sent item has passed: a positive amount of a length that fits, not restricted, and not paused. */
  ghost predicate Sendable(cfg: Config, input: Input, item: Item, amount: bytes) {
    && item.value > 0
    && (cfg.consistentLengths ==> |amount| <= cfg.maxIssueLength)
    && (input.returnAfterError || item.token !in input.restricted)
    && (Exempt(cfg, input, input.caller) || !IsPaused(input, item.token, item.nonce))
  }

  lemma SentOne(cfg: Config, s: Shard, input: Input, dst: Addr, item: Item)
    requires SendOne(cfg, s, input, dst, item).Ok?
    ensures item.value > 0 && (input.returnAfterError || item.token !in input.restricted)
    ensures Exempt(cfg, input, input.caller) || !IsPaused(input, item.token, item.nonce)
  {
    hide Debit, Settle, IsPaused, Exempt;
    if IsPaused(input, item.token, item.nonce) && !Exempt(cfg, input, input.caller) {
      PausedDebit(cfg, s, input, item);
    }
  }

  lemma {:induction false} SentSendable(cfg: Config, s: Shard, input: Input, dst: Addr, n: nat, i: nat, k: nat)
    requires i <= k < n && 3 * n + 2 <= |input.args| && SendItems(cfg, s, input, dst, n, i).Ok?
    ensures Sendable(cfg, input, ItemAt(input.args, 2, k), input.args[3 * k + 4])
    decreases n - i
  {
    hide SendOne, IsPaused, Exempt;
    SentOne(cfg, s, input, dst, ItemAt(input.args, 2, i));
    if i < k {
      SentSendable(cfg, SendOne(cfg, s, input, dst, ItemAt(input.args, 2, i)).value.0, input, dst, n, i + 1, k);
    }
  }

  /** Where a transfer may go: an address of the caller's length, not the caller, not on the metachain; a receiver
      on the sender's shard must be payable. */
  ghost predicate GoodDestination(cfg: Config, s: Shard, input: Input, dst: Addr) {
    && |dst| == |input.caller| && dst != input.caller && cfg.shardOf(dst) != META
    && (cfg.shardOf(dst) == s.id ==> input.payable)
  }

  /** A successful multi transfer on the sender's shard. */
  lemma MultiPassed(cfg: Config, s: Shard, input: Input)
    requires input.caller == input.recipient && MultiTransfer(cfg, s, input).Ok?
    ensures |input.args| >= 4
    ensures var n := U64(SetBytes(input.args[1]));
            && n > 0 && 3 * n + 2 <= |input.args| && input.gasProvided >= U64(n * cfg.multiGas)
            && GoodDestination(cfg, s, input, input.args[0])
            && forall k: nat :: k < n ==>
                 Sendable(cfg, input, Item(input.args[3 * k + 2], U64(SetBytes(input.args[3 * k + 3])),
                                           SetBytes(input.args[3 * k + 4])), input.args[3 * k + 4])
  {
    hide SendItems, MultiOutput, Sendable;
    var n, dst := U64(SetBytes(input.args[1])), input.args[0];
    forall k: nat | k < n
      ensures Sendable(cfg, input, Item(input.args[3 * k + 2], U64(SetBytes(input.args[3 * k + 3])),
                                        SetBytes(input.args[3 * k + 4])), input.args[3 * k + 4])
    {
      SentSendable(cfg, s, input, dst, n, 0, k);
    }
  }

  // ----- the receiver's side -----

  lemma {:induction false} ReceivedUnpaused(cfg: Config, s: Shard, input: Input, n: nat, i: nat, k: nat)
    requires i <= k < n && 3 * n + 1 <= |input.args| && ReceiveItems(cfg, s, input, n, i).Ok?
    ensures Exempt(cfg, input, input.recipient) ||
            !IsPaused(input, input.args[3 * k + 1], U64(SetBytes(input.args[3 * k + 2])))
    decreases n - i
  {
    hide Credit, AddToBalance, IsPaused, Exempt;
    var x := DecodeItem(cfg, input.args, i).value;
    if i < k {
      ReceivedUnpaused(cfg, ReceiveOne(cfg, s, input, x).value, input, n, i + 1, k);
    } else if IsPaused(input, x.item.token, x.item.nonce) && !Exempt(cfg, input, input.recipient) {
      PausedReceived(cfg, s, input, x);
    }
  }

  lemma PausedReceived(cfg: Config, s: Shard, input: Input, x: Sent)
    requires IsPaused(input, x.item.token, x.item.nonce) && !Exempt(cfg, input, input.recipient)
    ensures ReceiveOne(cfg, s, input, x).Err?
  {
    if x.item.nonce > 0 {
      PausedCredit(cfg, s, input, input.caller, input.recipient, x.tok, x.item.token, x.item.nonce);
    }
    hide Credit;
  }

  /** A successful delivery of a multi or a single transfer. */
  lemma DeliveryPassed(cfg: Config, s: Shard, input: Input)
    requires input.caller != input.recipient
    ensures MultiTransfer(cfg, s, input).Ok? ==>
              && |input.args| >= 4 && input.payable
              && cfg.shardOf(input.caller) != s.id && cfg.shardOf(input.recipient) == s.id
              && var n := U64(SetBytes(input.args[0]));
              && n > 0 && 3 * n + 1 <= |input.args|
              && forall k: nat :: k < n ==>
                   Exempt(cfg, input, input.recipient) ||
                   !IsPaused(input, input.args[3 * k + 1], U64(SetBytes(input.args[3 * k + 2])))
    ensures NftTransfer(cfg, s, input).Ok? ==>
              && |input.args| >= NFT_MIN_ARGS && input.payable
              && cfg.shardOf(input.caller) != s.id && cfg.shardOf(input.recipient) == s.id
              && (Exempt(cfg, input, input.recipient) ||
                  !IsPaused(input, input.args[0], U64(SetBytes(input.args[1]))))
  {
    hide ReceiveItems, Credit, IsPaused, Exempt;
    if MultiTransfer(cfg, s, input).Ok? {
      var n := U64(SetBytes(input.args[0]));
      forall k: nat | k < n
        ensures Exempt(cfg, input, input.recipient) ||
                !IsPaused(input, input.args[3 * k + 1], U64(SetBytes(input.args[3 * k + 2])))
      {
        ReceivedUnpaused(cfg, s, input, n, 0, k);
      }
    }
    if NftTransfer(cfg, s, input).Ok? && !Exempt(cfg, input, input.recipient) {
      if IsPaused(input, input.args[0], U64(SetBytes(input.args[1]))) {
        PausedNft(cfg, s, input);
      }
    }
  }

  // ----- the built-in functions of one account -----

  /** Only an account with the role acts on its own tokens, for the gas of the function. */
  ghost predicate Permitted(input: Input, count: nat, gas: nat) {
    input.allowed && input.caller == input.recipient && |input.args| >= count && input.gasProvided >= gas
  }

  /** Where liquidity is counted, there is an entry after the save, and if it counts it covers the change; a counter
      at zero that is to fall is given up instead where old tokens are fixed. */
  ghost predicate Covered(
    cfg: Config, s: Shard, a: Addr, key: bytes, nonce: nat, t: Token, mustUpdate: bool, delta: int)
  {
    cfg.saveToSystem && cfg.sendAlways && nonce > 0 ==>
      && (key in s.system || t.meta.Some?)
      && (Counting(cfg, s, a, key, t, mustUpdate) ==>
            || CountBefore(s, key) + delta >= 0
            || (cfg.fixOldTokenLiquidity && CountBefore(s, key) == 0))
  }

  ghost predicate CanSave(
    cfg: Config, s: Shard, input: Input, sender: Addr, a: Addr, token: bytes, nonce: nat, t: Token, mustUpdate: bool,
    delta: int)
  {
    && !Blocked(cfg, s, input, a, token, nonce, t.properties)
    && Markable(cfg, s, sender, KeyOf(token, nonce), nonce, t.meta.Some?, mustUpdate)
    && Covered(cfg, s, a, KeyOf(token, nonce), nonce, t, mustUpdate, delta)
  }

  lemma AdjustsExactly(
    cfg: Config, s: Shard, input: Input, sender: Addr, a: Addr, token: bytes, nonce: nat, t: Token, mustUpdate: bool,
    delta: int)
    ensures SaveWithLiquidity(cfg, s, input, sender, a, token, nonce, t, mustUpdate, delta).Ok? <==>
              CanSave(cfg, s, input, sender, a, token, nonce, t, mustUpdate, delta)
  {
    SavesExactly(cfg, s, input, sender, a, token, nonce, t, mustUpdate);
    var saved := SaveToken(cfg, s, input, sender, a, token, nonce, t, mustUpdate);
    if saved.Ok? && cfg.saveToSystem && cfg.sendAlways && nonce > 0 {
      SaveStarts(cfg, s, input, sender, a, token, nonce, t, mustUpdate);
      SavedEntry(cfg, s, input, sender, a, token, nonce, t, mustUpdate);
      hide SaveToken, KeyOf, Blocked, Markable, Counting;
      assert KeyOf(token, nonce) in saved.value.system <==> KeyOf(token, nonce) in s.system || t.meta.Some?;
    }
  }

  /** A creation succeeds exactly for an account with the role, on its own behalf or on that of the account named
      last, with the gas for all bytes given, a positive quantity, royalties up to 10000, the right to quantities
      above one, and an owner not blocked. */
  lemma CreatesExactly(cfg: Config, s: Shard, input: Input, latest: uint64)
    ensures Create(cfg, s, input, latest).Ok? <==>
              && Permitted(input, 7, cfg.createGas)
              && (input.callType == ExecOnDestByCaller ==>
                    && |input.args| >= 8 && Owner(input) != input.caller && |Owner(input)| == |input.caller|)
              && input.gasProvided >= U64(U64(TotalLength(input.args) * cfg.storeGas) + cfg.createGas)
              && SetBytes(input.args[3]) % 0x1_0000_0000 <= 10000
              && SetBytes(input.args[1]) > 0 && (SetBytes(input.args[1]) > 1 ==> input.allowedQuantity)
              && (cfg.valueLengthCheck ==> |input.args[1]| <= 32)
              && CanSave(cfg, s, input, Owner(input), Owner(input), input.args[0], U64(latest + 1),
                         CreatedToken(input, U64(latest + 1)), true, SetBytes(input.args[1]))
  {
    hide SaveWithLiquidity, CanSave, KeyOf, TotalLength;
    if |input.args| >= 7 {
      LowBits(SetBytes(input.args[3]));
      AdjustsExactly(cfg, s, input, Owner(input), Owner(input), input.args[0], U64(latest + 1),
                     CreatedToken(input, U64(latest + 1)), true, SetBytes(input.args[1]));
    }
  }

  /** Adding quantity succeeds exactly for an account with the role that holds the token. */
  lemma AddsExactly(cfg: Config, s: Shard, input: Input)
    ensures AddQuantity(cfg, s, input).Ok? <==>
              && Permitted(input, 3, cfg.quantityGas) && (cfg.valueLengthCheck ==> |input.args[2]| <= 32)
              && var token, nonce := input.args[0], U64(SetBytes(input.args[1]));
                 && nonce > 0 && Slot(input.caller, KeyOf(token, nonce)) in s.accounts
                 && CanSave(cfg, s, input, input.caller, input.caller, token, nonce,
                            TokenAt(cfg, s, input.caller, token, nonce), false, SetBytes(input.args[2]))
  {
    hide SaveWithLiquidity, CanSave, KeyOf, TokenAt;
    if |input.args| >= 3 {
      var token, nonce, value: int := input.args[0], U64(SetBytes(input.args[1])), SetBytes(input.args[2]);
      var t := TokenAt(cfg, s, input.caller, token, nonce);
      AdjustsExactly(cfg, s, input, input.caller, input.caller, token, nonce, t.(value := t.value + value), false,
                     value);
      ValueIgnored(cfg, s, input, input.caller, input.caller, token, nonce, t, t.value + value, false, value);
    }
  }

  lemma ValueIgnored(
    cfg: Config, s: Shard, input: Input, sender: Addr, a: Addr, token: bytes, nonce: nat, t: Token, value: int,
    mustUpdate: bool, delta: int)
    ensures CanSave(cfg, s, input, sender, a, token, nonce, t.(value := value), mustUpdate, delta) <==>
            CanSave(cfg, s, input, sender, a, token, nonce, t, mustUpdate, delta)
  {
  }

  /** A burn succeeds exactly for an account with the role that holds the quantity. */
  lemma BurnsNftExactly(cfg: Config, s: Shard, input: Input)
    ensures Burn(cfg, s, input).Ok? <==>
              && Permitted(input, 3, cfg.burnGas)
              && var token, nonce := input.args[0], U64(SetBytes(input.args[1]));
                 && nonce > 0 && Slot(input.caller, KeyOf(token, nonce)) in s.accounts
                 && Holding(s, Slot(input.caller, KeyOf(token, nonce))) >= SetBytes(input.args[2])
                 && CanSave(cfg, s, input, input.caller, input.caller, token, nonce,
                            TokenAt(cfg, s, input.caller, token, nonce), false, -(SetBytes(input.args[2]) as int))
  {
    hide SaveWithLiquidity, CanSave, KeyOf;
    if |input.args| >= 3 {
      var token, nonce, value: int := input.args[0], U64(SetBytes(input.args[1])), SetBytes(input.args[2]);
      var t := TokenAt(cfg, s, input.caller, token, nonce);
      AdjustsExactly(cfg, s, input, input.caller, input.caller, token, nonce, t.(value := t.value - value), false,
                     -value);
      ValueIgnored(cfg, s, input, input.caller, input.caller, token, nonce, t, t.value - value, false, -value);
    }
  }

  /** An update succeeds exactly for an account with the role that holds the token with its metadata. */
  lemma UpdatesExactly(cfg: Config, s: Shard, input: Input)
    ensures UpdateAttributes(cfg, s, input).Ok? <==>
              && Permitted(input, 3, cfg.updateGas) && |input.args| == 3
              && input.gasProvided >= U64(cfg.updateGas + U64(|input.args[2]| * cfg.storeGas))
              && var token, nonce := input.args[0], U64(SetBytes(input.args[1]));
                 var t := TokenAt(cfg, s, input.caller, token, nonce);
                 && nonce > 0 && Slot(input.caller, KeyOf(token, nonce)) in s.accounts && t.meta.Some?
                 && !Blocked(cfg, s, input, input.caller, token, nonce, t.properties)
                 && Markable(cfg, s, input.caller, KeyOf(token, nonce), nonce, true, true)
  {
    hide SaveToken, Blocked, Markable, KeyOf, TokenAt;
    if |input.args| == 3 {
      var token, nonce := input.args[0], U64(SetBytes(input.args[1]));
      var t := TokenAt(cfg, s, input.caller, token, nonce);
      if t.meta.Some? {
        SavesExactly(cfg, s, input, input.caller, input.caller, token, nonce,
                     t.(meta := Some(t.meta.value.(attributes := input.args[2]))), true);
      }
    }
  }

  /** A fungible transfer succeeds exactly if the sender, where it lives, pays and may give the amount, and the
      receiver, where it lives, is payable and may take it. */
  lemma FungibleExactly(cfg: Config, s: Shard, input: Input)
    ensures FungibleTransfer(cfg, s, input).Ok? <==>
              && |input.args| >= 2 && SetBytes(input.args[1]) > 0 && cfg.shardOf(input.recipient) != META
              && (cfg.consistentLengths ==> |input.args[1]| <= cfg.maxIssueLength)
              && (cfg.shardOf(input.caller) == s.id ==>
                    && input.gasProvided >= cfg.fungibleGas
                    && (input.returnAfterError || input.args[0] !in input.restricted)
                    && MayMove(cfg, s, input, input.caller, input.args[0], -(SetBytes(input.args[1]) as int)))
              && (cfg.shardOf(input.recipient) == s.id ==>
                    && input.payable
                    && MayMove(cfg, s, input, input.recipient, input.args[0], SetBytes(input.args[1])))
  {
    hide SetBytes;
  }

  // ----- single transfers -----

  /** A credit first looks at the receiver's own record. */
  ghost predicate MayReceive(cfg: Config, s: Shard, input: Input, dst: Addr, token: bytes, nonce: nat) {
    Exempt(cfg, input, dst) ||
    (!IsFrozen(RecordAt(s, Slot(dst, KeyOf(token, nonce))).properties) && token !in input.paused)
  }

  /** What a delivered single transfer brings. */
  function Brought(cfg: Config, args: seq<bytes>): Option<Token>
    requires |args| >= NFT_MIN_ARGS
  {
    if args[3] == [0] then Some(Token(NonFungible, SetBytes(args[2]), [], None, [])) else cfg.unmarshal(args[3])
  }

  /** A single transfer is delivered exactly if its payload can be read, its receiver is payable, may receive and
      is not blocked for the token that arrives, and its entry can be written and counted. */
  lemma DeliversExactly(cfg: Config, s: Shard, input: Input)
    requires input.caller != input.recipient
    ensures NftTransfer(cfg, s, input).Ok? <==>
              && |input.args| >= NFT_MIN_ARGS && input.payable
              && cfg.shardOf(input.caller) != s.id && cfg.shardOf(input.recipient) == s.id
              && Brought(cfg, input.args).Some?
              && var token, nonce, t :=
                   input.args[0], U64(SetBytes(input.args[1])), Brought(cfg, input.args).value;
                 && MayReceive(cfg, s, input, input.recipient, token, nonce)
                 && CanSave(cfg, s, input, input.caller, input.recipient, token, nonce, t, false, t.value)
  {
    hide Credit, CanSave, MayReceive, ReceiveOutput;
    if |input.args| >= NFT_MIN_ARGS && Brought(cfg, input.args).Some?
       && cfg.shardOf(input.caller) != s.id && cfg.shardOf(input.recipient) == s.id {
      CreditsExactly(cfg, s, input, input.caller, input.recipient, Brought(cfg, input.args).value, input.args[0],
                     U64(SetBytes(input.args[1])));
    }
  }

  lemma CreditsExactly(
    cfg: Config, s: Shard, input: Input, snd: Addr, dst: Addr, t: Token, token: bytes, nonce: nat)
    requires cfg.shardOf(snd) != cfg.shardOf(dst)
    ensures Credit(cfg, s, input, snd, dst, t, token, nonce).Ok? <==>
              && MayReceive(cfg, s, input, dst, token, nonce)
              && CanSave(cfg, s, input, snd, dst, token, nonce, t, false, t.value)
  {
    hide CanSave, SaveWithLiquidity, MayReceive;
    var sum := t.(value := t.value + TokenAt(cfg, s, dst, token, nonce).value);
    ValueIgnored(cfg, s, input, snd, dst, token, nonce, t, sum.value, false, t.value);
    AdjustsExactly(cfg, s, input, snd, dst, token, nonce, sum, false, t.value);
    ReceivesExactly(cfg, s, input, dst, token, nonce);
    hide CheckFrozeAndPause, TokenAt;
  }

  lemma ReceivesExactly(cfg: Config, s: Shard, input: Input, dst: Addr, token: bytes, nonce: nat)
    ensures CheckFrozeAndPause(cfg, input, dst, token, TokenAt(cfg, s, dst, token, nonce)).Ok? <==>
              MayReceive(cfg, s, input, dst, token, nonce)
  {
    hide KeyOf;
  }
}
