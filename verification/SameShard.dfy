// No built-in function turns one shard into another: shard numbers stay in place over every step.
module SameShard {
  import opened Bytes
  import opened Wrappers
  import opened TokenId
  import opened TxData
  import opened Ledger
  import opened Transfers
  import opened Shapes
  import opened Network

  ghost predicate KeepsId(s: Shard, r: Result<Shard>) {
    r.Ok? ==> r.value.id == s.id
  }

  lemma CreateId(cfg: Config, s: Shard, input: Input, latest: uint64)
    ensures KeepsId(s, Create(cfg, s, input, latest))
  {
  }

  lemma AddQuantityId(cfg: Config, s: Shard, input: Input)
    ensures KeepsId(s, AddQuantity(cfg, s, input))
  {
  }

  lemma BurnId(cfg: Config, s: Shard, input: Input)
    ensures KeepsId(s, Burn(cfg, s, input))
  {
  }

  lemma UpdateId(cfg: Config, s: Shard, input: Input)
    ensures KeepsId(s, UpdateAttributes(cfg, s, input))
  {
  }

  lemma OthersId(cfg: Config, s: Shard, action: Action, input: Input)
    requires action.Freezing? || action.Wiping? || action.Minting? || action.MovingFungible?
    ensures KeepsId(s, ActOn(cfg, s, action, input))
  {
  }

  lemma ActId(cfg: Config, s: Shard, action: Action, input: Input)
    ensures KeepsId(s, ActOn(cfg, s, action, input))
  {
    match action
    case Creating(latest) => CreateId(cfg, s, input, latest);
    case AddingQuantity => AddQuantityId(cfg, s, input);
    case Burning => BurnId(cfg, s, input);
    case Updating => UpdateId(cfg, s, input);
    case _ => OthersId(cfg, s, action, input);
  }

  lemma ReceiveOneId(cfg: Config, s: Shard, input: Input, x: Sent)
    ensures KeepsId(s, ReceiveOne(cfg, s, input, x))
  {
    if x.item.nonce > 0 && Credit(cfg, s, input, input.caller, input.recipient, x.tok, x.item.token, x.item.nonce).Ok? {
      CreditSameShard(cfg, s, input, input.caller, input.recipient, x.tok, x.item.token, x.item.nonce);
    }
  }

  lemma {:induction false} ReceiveItemsId(cfg: Config, s: Shard, input: Input, n: nat, i: nat)
    requires i <= n && 3 * n + 1 <= |input.args|
    ensures KeepsId(s, ReceiveItems(cfg, s, input, n, i))
    decreases n - i
  {
    if i < n && DecodeItem(cfg, input.args, i).Ok? {
      var x := DecodeItem(cfg, input.args, i).value;
      ReceiveOneId(cfg, s, input, x);
      var one := ReceiveOne(cfg, s, input, x);
      if one.Ok? {
        ReceiveItemsId(cfg, one.value, input, n, i + 1);
      }
    }
  }

  lemma ReceiveNftId(cfg: Config, s: Shard, input: Input)
    requires input.caller != input.recipient && NftTransfer(cfg, s, input).Ok?
    ensures NftTransfer(cfg, s, input).value.0.id == s.id
  {
    var item, t := NftItem(input.args), NftPayload(cfg, input.args).value;
    CreditSameShard(cfg, s, input, input.caller, input.recipient, t, item.token, item.nonce);
  }

  lemma ReceiveMultiId(cfg: Config, s: Shard, input: Input)
    requires input.caller != input.recipient && MultiTransfer(cfg, s, input).Ok?
    ensures MultiTransfer(cfg, s, input).value.0.id == s.id
  {
    ReceiveItemsId(cfg, s, input, U64(SetBytes(input.args[0])), 0);
  }

  lemma DeliverId(cfg: Config, s: Shard, m: Msg, env: Input)
    requires m.src != m.dst
    ensures KeepsId(s, Deliver(cfg, s, m, env))
  {
    if Deliver(cfg, s, m, env).Ok? {
      var (func, args) := Parse(m.data).value;
      var input := DeliveryInput(m, args, env);
      if func == NFT_TRANSFER {
        ReceiveNftId(cfg, s, input);
      } else {
        ReceiveMultiId(cfg, s, input);
      }
    }
  }

  lemma {:induction false} SaveItemsId(cfg: Config, s: Shard, senderShard: nat, args: seq<bytes>, n: nat, i: nat)
    requires i <= n && 3 * n + 1 <= |args|
    ensures var r := SaveMetaDataOfItems(cfg, s, senderShard, args, n, i);
            r.Ok? ==> r.value.id == s.id && r.value.accounts == s.accounts
    decreases n - i
  {
    if i < n && SaveMetaDataOfItems(cfg, s, senderShard, args, n, i).Ok? {
      var item := ItemAt(args, 1, i);
      if item.nonce > 0 && |args[3 * i + 3]| > MAX_VALUE_LENGTH {
        var t := cfg.unmarshal(args[3 * i + 3]).value;
        var s1 := SaveMetaData(cfg, s, None, senderShard, KeyOf(item.token, item.nonce), item.nonce, t, true).value;
        SaveItemsId(cfg, s1, senderShard, args, n, i + 1);
      } else {
        SaveItemsId(cfg, s, senderShard, args, n, i + 1);
      }
    }
  }

  /** Saving the metadata of a failed delivery leaves the accounts alone. */
  lemma SaveMetaDataOfId(cfg: Config, s: Shard, m: Msg)
    ensures var r := SaveMetaDataOf(cfg, s, m);
            r.Ok? ==> r.value.id == s.id && r.value.accounts == s.accounts
  {
    var parsed := Parse(m.data);
    if parsed.Ok? && |parsed.value.1| >= 4 {
      var args := parsed.value.1;
      var n := U64(SetBytes(args[0]));
      if 3 * n + 1 <= |args| {
        SaveItemsId(cfg, s, cfg.shardOf(m.src), args, n, 0);
      }
    }
  }
}
