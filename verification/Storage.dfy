// The storage handler of one shard as it works in memory (dcdtDataStorage.go): token objects are read
// from records, changed in place and written back. Every method is proved equal to its function of
// `Ledger`; an error leaves the state to be reverted by the node.
module Storage {
  import opened Bytes
  import opened Wrappers
  import opened TokenId
  import opened Ledger
  import opened Transfers
  import opened Network
  import opened TxData

  /** `dcdt.DCDigitalToken` in memory. */
  class TokenObject {
    var typ: TokenType
    var value: int
    var properties: bytes
    var meta: Option<MetaData>
    var reserved: bytes

    /** Unmarshalling fills a new object. */
    constructor (t: Token)
      ensures AsToken() == t
    {
      typ, value, properties, meta, reserved := t.typ, t.value, t.properties, t.meta, t.reserved;
    }

    function AsToken(): Token
      reads this
    {
      Token(typ, value, properties, meta, reserved)
    }

    method SetValue(v: int)
      modifies this`value
      ensures AsToken() == old(AsToken()).(value := v)
    {
      value := v;
    }
  }

  class Handler {
    const cfg: Config
    const id: nat
    var accounts: map<Slot, Token>
    var system: map<bytes, Token>

    constructor (cfg: Config, s: Shard)
      ensures this.cfg == cfg && State() == s
    {
      this.cfg, id, accounts, system := cfg, s.id, s.accounts, s.system;
    }

    ghost function State(): Shard
      reads this
    {
      Shard(id, accounts, system)
    }

    /** The new state if the call succeeded, its error otherwise. */
    ghost function After<T>(r: Result<T>): Result<Shard>
      reads this
    {
      match r
      case Ok(_) => Ok(State())
      case Err(e) => Err(e)
    }

    // ----- records -----

    method RetrieveRecord(slot: Slot) returns (t: TokenObject)
      ensures fresh(t) && t.AsToken() == RecordAt(State(), slot)
    {
      t := new TokenObject(EMPTY_TOKEN);
      if slot in accounts {
        t := new TokenObject(accounts[slot]);
      }
    }

    method SaveRecord(slot: Slot, t: TokenObject)
      modifies this`accounts
      ensures State() == Ledger.SaveRecord(old(State()), slot, t.AsToken())
    {
      if t.value == 0 && AllZero(t.properties) {
        accounts := accounts - {slot};
      } else {
        accounts := accounts[slot := t.AsToken()];
      }
    }

    /** `addToDCDTBalance` */
    method AddToBalance(input: Input, a: Addr, token: bytes, delta: int) returns (r: Result<()>)
      modifies this`accounts
      ensures Ledger.AddToBalance(cfg, old(State()), input, a, token, delta) == After(r)
    {
      var t := RetrieveRecord(Slot(a, token));
      if t.typ != Fungible {
        return Err(OnlyFungible);
      }
      var _ :- CheckFrozeAndPause(cfg, input, a, token, t.AsToken());
      t.SetValue(t.value + delta);
      if t.value < 0 {
        return Err(InsufficientFunds);
      }
      SaveRecord(Slot(a, token), t);
      return Ok(());
    }

    // ----- tokens with metadata -----

    /** `GetDCDTNFTTokenOnDestination` */
    method TokenOnDestination(a: Addr, token: bytes, nonce: nat) returns (t: TokenObject)
      ensures fresh(t) && t.AsToken() == TokenAt(cfg, State(), a, token, nonce)
    {
      var key := KeyOf(token, nonce);
      t := RetrieveRecord(Slot(a, key));
      if Slot(a, key) !in accounts || !cfg.saveToSystem || nonce == 0 {
        return;
      }
      if key in system && system[key].meta.Some? {
        t.meta := system[key].meta;
      }
    }

    /** `GetDCDTNFTTokenOnSender` */
    method TokenOnSender(a: Addr, token: bytes, nonce: nat) returns (r: Result<TokenObject>)
      ensures match Ledger.TokenOnSender(cfg, State(), a, token, nonce)
              case Ok(t) => r.Ok? && fresh(r.value) && r.value.AsToken() == t
              case Err(e) => r == Err(e)
    {
      var t := TokenOnDestination(a, token, nonce);
      if Slot(a, KeyOf(token, nonce)) !in accounts {
        return Err(NewNFTDataOnSender);
      }
      return Ok(t);
    }

    /** `saveMetadataIfRequired` */
    method RefreshMetaData(key: bytes, t: TokenObject)
      modifies this`system
      ensures State() == Ledger.RefreshMetaData(cfg, old(State()), key, t.AsToken())
    {
      if !cfg.alwaysSaveMetaData || !cfg.sendAlways || key !in system {
        return;
      }
      var entry := new TokenObject(system[key]);
      if |entry.reserved| > 0 {
        return;
      }
      entry.meta := t.meta;
      system := system[key := entry.AsToken()];
    }

    /** `setReservedToNilForOldToken` */
    method ForgetReservedOfOldToken(entry: TokenObject, userAcc: Option<Addr>, key: bytes) returns (r: Result<()>)
      modifies entry`reserved
      ensures !cfg.fixOldTokenLiquidity ==> r.Ok? && entry.AsToken() == old(entry.AsToken())
      ensures cfg.fixOldTokenLiquidity && userAcc.None? ==> r == Err(NilUserAccount)
      ensures cfg.fixOldTokenLiquidity && userAcc.Some? ==>
                && r.Ok?
                && entry.AsToken() == if RecordAt(State(), Slot(userAcc.value, key)).meta.Some?
                                      then old(entry.AsToken()).(reserved := [])
                                      else old(entry.AsToken())
    {
      if !cfg.fixOldTokenLiquidity {
        return Ok(());
      }
      if userAcc.None? {
        return Err(NilUserAccount);
      }
      var slot := Slot(userAcc.value, key);
      if slot in accounts && accounts[slot].meta.Some? {
        entry.reserved := [];
      }
      return Ok(());
    }

    /** Sets the byte of a shard in the properties of an entry. */
    method MarkShard(entry: TokenObject, shard: nat) returns (r: Result<()>)
      modifies entry`properties
      ensures match Mark(old(entry.properties), shard)
              case Ok(p) => r.Ok? && entry.AsToken() == old(entry.AsToken()).(properties := p)
              case Err(e) => r == Err(e)
    {
      if shard != META {
        if shard >= |entry.properties| {
          return Err(Panic);
        }
        entry.properties := entry.properties[shard := EXISTS_ON_SHARD];
      }
      return Ok(());
    }

    /** The entry of a new key, or of one that is rewritten. */
    method BuildEntry(
      userAcc: Option<Addr>, senderShard: nat, key: bytes, t: TokenObject) returns (r: Result<TokenObject>)
      ensures match NewEntry(cfg, State(), userAcc, senderShard, key, t.AsToken())
              case Ok(e) => r.Ok? && fresh(r.value) && r.value.AsToken() == e
              case Err(e) => r == Err(e)
    {
      var entry := new TokenObject(Token(t.typ, 0, seq(cfg.numShards, _ => 0), t.meta, []));
      if key !in system && cfg.sendAlways {
        entry.properties := [];
        entry.reserved := [1];
        var _ :- ForgetReservedOfOldToken(entry, userAcc, key);
      }
      if !cfg.sendAlways {
        var _ :- MarkShard(entry, id);
        var _ :- MarkShard(entry, senderShard);
      }
      return Ok(entry);
    }

    /** `saveDCDTMetaDataToSystemAccount` */
    method SaveMetaData(
      userAcc: Option<Addr>, senderShard: nat, key: bytes, nonce: nat, t: TokenObject, mustUpdate: bool)
      returns (r: Result<()>)
      modifies this`system
      ensures Ledger.SaveMetaData(cfg, old(State()), userAcc, senderShard, key, nonce, t.AsToken(), mustUpdate)
              == After(r)
    {
      if nonce == 0 || t.meta.None? {
        return Ok(());
      }
      ghost var before := State();
      RefreshMetaData(key, t);
      if !mustUpdate && key in system {
        return Ok(());
      }
      RewriteIgnoresRefresh(cfg, before, userAcc, senderShard, key, t.AsToken());
      var entry :- BuildEntry(userAcc, senderShard, key, t);
      system := system[key := entry.AsToken()];
      return Ok(());
    }

    /** `SaveDCDTNFTToken` */
    method SaveToken(
      input: Input, sender: Addr, a: Addr, token: bytes, nonce: nat, t: TokenObject, mustUpdate: bool)
      returns (r: Result<()>)
      modifies this
      ensures Ledger.SaveToken(cfg, old(State()), input, sender, a, token, nonce, t.AsToken(), mustUpdate) == After(r)
    {
      var _ :- CheckFrozeAndPause(cfg, input, a, token, t.AsToken());
      var _ :- CheckFrozeAndPause(cfg, input, a, KeyOf(token, nonce), t.AsToken());
      var collection := RetrieveRecord(Slot(a, token));
      if cfg.checkFrozenCollection && nonce != 0 && !input.returnAfterError && IsFrozen(collection.properties) {
        return Err(Frozen);
      }
      var key := KeyOf(token, nonce);
      if cfg.saveToSystem {
        var _ :- SaveMetaData(Some(a), cfg.shardOf(sender), key, nonce, t, mustUpdate);
      }
      if t.value <= 0 {
        accounts := accounts - {Slot(a, key)};
        return Ok(());
      }
      if !cfg.saveToSystem {
        accounts := accounts[Slot(a, key) := t.AsToken()];
        return Ok(());
      }
      var onAccount := new TokenObject(Token(t.typ, t.value, t.properties, None, []));
      accounts := accounts[Slot(a, key) := onAccount.AsToken()];
      return Ok(());
    }

    /** `AddToLiquiditySystemAcc` */
    method AddToLiquidity(token: bytes, nonce: nat, delta: int) returns (r: Result<()>)
      modifies this`system
      ensures AddLiquidity(cfg, old(State()), token, nonce, delta) == After(r)
    {
      if !cfg.saveToSystem || !cfg.sendAlways || nonce == 0 {
        return Ok(());
      }
      var key := KeyOf(token, nonce);
      if key !in system {
        return Err(NilDCDTData);
      }
      var entry := new TokenObject(system[key]);
      if |entry.reserved| == 0 {
        return Ok(());
      }
      if cfg.fixOldTokenLiquidity {
        if entry.value == 0 && delta < 0 {
          entry.reserved := [];
          system := system[key := entry.AsToken()];
          return Ok(());
        }
      }
      entry.SetValue(entry.value + delta);
      if entry.value < 0 {
        return Err(InvalidLiquidity);
      }
      if entry.value == 0 {
        system := system - {key};
        return Ok(());
      }
      system := system[key := entry.AsToken()];
      return Ok(());
    }

    /** `WasAlreadySentToDestinationShardAndUpdateState` */
    method WasAlreadySent(token: bytes, nonce: nat, dst: Addr) returns (r: Result<bool>)
      modifies this`system
      ensures match AlreadySent(cfg, old(State()), token, nonce, dst)
              case Ok((sent, s)) => r == Ok(sent) && State() == s
              case Err(e) => r == Err(e)
    {
      if !cfg.saveToSystem {
        return Ok(false);
      }
      if nonce == 0 {
        return Ok(true);
      }
      var shard := cfg.shardOf(dst);
      if shard == id {
        return Ok(true);
      }
      if cfg.sendAlways {
        return Ok(false);
      }
      if shard == META {
        return Ok(true);
      }
      var key := KeyOf(token, nonce);
      if key !in system {
        return Ok(false);
      }
      var entry := new TokenObject(system[key]);
      if |entry.properties| < cfg.numShards {
        entry.properties := entry.properties + seq(cfg.numShards - |entry.properties|, _ => 0);
      }
      if shard >= |entry.properties| {
        return Err(Panic);
      }
      if entry.properties[shard] > 0 {
        return Ok(true);
      }
      entry.properties := entry.properties[shard := EXISTS_ON_SHARD];
      system := system[key := entry.AsToken()];
      return Ok(false);
    }

    // ----- SaveNFTMetaDataToSystemAccount -----

    /** `addMetaDataToSystemAccountFromMultiTransfer` */
    method SaveMetaDataFromMulti(senderShard: nat, args: seq<bytes>, n: nat) returns (r: Result<()>)
      requires 3 * n + 1 <= |args|
      modifies this`system
      ensures SaveMetaDataOfItems(cfg, old(State()), senderShard, args, n, 0) == After(r)
    {
      var i := 0;
      while i < n
        invariant i <= n
        invariant SaveMetaDataOfItems(cfg, old(State()), senderShard, args, n, 0)
               == SaveMetaDataOfItems(cfg, State(), senderShard, args, n, i)
        invariant accounts == old(accounts)
      {
        var nonce := U64(SetBytes(args[3 * i + 2]));
        if nonce > 0 && |args[3 * i + 3]| > MAX_VALUE_LENGTH {
          var data := cfg.unmarshal(args[3 * i + 3]);
          if data.None? {
            return Err(Unmarshal);
          }
          var t := new TokenObject(data.value);
          var _ :- SaveMetaData(None, senderShard, KeyOf(args[3 * i + 1], nonce), nonce, t, true);
        }
        i := i + 1;
      }
      return Ok(());
    }

    /** `SaveNFTMetaDataToSystemAccount` */
    method SaveMetaDataOfMessage(m: Msg) returns (r: Result<()>)
      modifies this`system
      ensures SaveMetaDataOf(cfg, old(State()), m) == After(r)
    {
      if !cfg.saveToSystem || cfg.sendAlways {
        return Ok(());
      }
      if cfg.shardOf(m.src) == cfg.shardOf(m.dst) || cfg.shardOf(m.dst) != id {
        return Ok(());
      }
      var parsed := ParseData(m.data);
      if parsed.Err? {
        return Ok(());
      }
      var (func, args) := parsed.value;
      if |args| < 4 {
        return Ok(());
      }
      if func == NFT_TRANSFER {
        if args[3] != ZERO_PAYLOAD {
          var data := cfg.unmarshal(args[3]);
          if data.None? {
            return Err(Unmarshal);
          }
          var t := new TokenObject(data.value);
          var nonce := U64(SetBytes(args[1]));
          r := SaveMetaData(None, cfg.shardOf(m.src), KeyOf(args[0], nonce), nonce, t, true);
          return;
        }
      } else if func == MULTI_TRANSFER {
        var count :- TransferCount(args, args[0], 1);
        var n: nat := count;
        var _ :- Need(|args| >= 3 * n + 1, Panic);
        r := SaveMetaDataFromMulti(cfg.shardOf(m.src), args, n);
        return;
      }
      return Ok(());
    }
  }

  /** An entry that is rewritten does not depend on a refresh just before. */
  lemma RewriteIgnoresRefresh(cfg: Config, s: Shard, userAcc: Option<Addr>, senderShard: nat, key: bytes, t: Token)
    ensures var s1, r := RefreshMetaData(cfg, s, key, t), NewEntry(cfg, s, userAcc, senderShard, key, t);
            && NewEntry(cfg, s1, userAcc, senderShard, key, t) == r
            && (r.Ok? ==> s1.(system := s1.system[key := r.value]) == s.(system := s.system[key := r.value]))
  {
    var s1, r := RefreshMetaData(cfg, s, key, t), NewEntry(cfg, s, userAcc, senderShard, key, t);
    if r.Ok? {
      assert s1.system[key := r.value] == s.system[key := r.value];
    }
  }
}
