// The token ledger of one shard as values: account records, the system account, and what
// every built-in function does to them. `Storage.dfy` and `Processes.dfy` hold the
// imperative form and prove it equal to the functions given here.
module Ledger {
  import opened Bytes
  import opened Wrappers
  import opened TokenId

  type Addr = bytes

  datatype TokenType = Fungible | NonFungible | OtherType(code: nat)

  datatype MetaData = MetaData(
    nonce: uint64, name: bytes, creator: Addr, royalties: nat, hash: bytes, uris: seq<bytes>, attributes: bytes)

  /** `dcdt.DCDigitalToken`, as stored on an account and as an entry of the system account. */
  datatype Token = Token(typ: TokenType, value: int, properties: bytes, meta: Option<MetaData>, reserved: bytes)

  const EMPTY_TOKEN := Token(Fungible, 0, [], None, [])

  /** The place of a record: an account and a storage key. */
  datatype Slot = Slot(addr: Addr, key: bytes)

  datatype Shard = Shard(id: nat, accounts: map<Slot, Token>, system: map<bytes, Token>)

  /** `core.MetachainShardId` */
  const META := 0xFFFF_FFFF

  const EXISTS_ON_SHARD: byte := 1

  /** `MaxLengthForValueToOptTransfer` */
  const MAX_VALUE_LENGTH := 32

  /** `maxLenForAddNFTQuantity` */
  const MAX_QUANTITY_LENGTH := 32

  const MAX_ROYALTY := 10000

  /** Shard coordinator, marshaller, epoch flags, gas schedule and the constants of other packages. */
  datatype Config = Config(
    shardOf: Addr -> nat,
    numShards: nat,
    dcdtSC: Addr,
    marshal: Token -> bytes,
    unmarshal: bytes -> Option<Token>,
    saveToSystem: bool,
    sendAlways: bool,
    alwaysSaveMetaData: bool,
    fixOldTokenLiquidity: bool,
    wipeDecreasesLiquidity: bool,
    checkFrozenCollection: bool,
    checkTransfer: bool,
    consistentLengths: bool,
    valueLengthCheck: bool,
    checkFunctionArgument: bool,
    maxIssueLength: nat,
    fungibleGas: uint64,
    mintGas: uint64,
    localBurnGas: uint64,
    multiGas: uint64,
    nftGas: uint64,
    createGas: uint64,
    quantityGas: uint64,
    burnGas: uint64,
    updateGas: uint64,
    copyGas: uint64,
    storeGas: uint64)

  /** What the code relies on from outside: marshalling is undone by unmarshalling, a marshalled
      token is longer than a raw value, and the coordinator answers with an existing shard. */
  ghost predicate Lawful(cfg: Config) {
    && (forall t: Token :: cfg.unmarshal(cfg.marshal(t)) == Some(t))
    && (forall t: Token :: |cfg.marshal(t)| > MAX_VALUE_LENGTH)
    && (forall a: Addr :: cfg.shardOf(a) < cfg.numShards || cfg.shardOf(a) == META)
    && cfg.numShards <= META
  }

  datatype CallType = DirectCall | AsyncCall | AsyncCallBack | TransferAndExecute | ExecOnDestByCaller

  /** `ContractCallInput`, with the answers of the components asked during the call: which keys
      are paused, which tokens the limited-transfer check refuses, whether the roles permit the
      action (and a quantity above one) and whether the receiver is payable. */
  datatype Input = Input(
    caller: Addr,
    recipient: Addr,
    args: seq<bytes>,
    gasProvided: uint64,
    gasLocked: uint64,
    callType: CallType,
    returnAfterError: bool,
    paused: set<bytes>,
    restricted: set<bytes>,
    allowed: bool,
    allowedQuantity: bool,
    payable: bool)

  // ----- records -----

  function Put(s: Shard, slot: Slot, t: Token): Shard {
    s.(accounts := s.accounts[slot := t])
  }

  function Drop(s: Shard, slot: Slot): Shard {
    s.(accounts := s.accounts - {slot})
  }

  /** `getDCDTDataFromKey` */
  function RecordAt(s: Shard, slot: Slot): Token {
    if slot in s.accounts then s.accounts[slot] else EMPTY_TOKEN
  }

  function Holding(s: Shard, slot: Slot): int {
    RecordAt(s, slot).value
  }

  /** `DCDTUserMetadataFromBytes(properties).Frozen` */
  predicate IsFrozen(properties: bytes) {
    |properties| == 2 && properties[0] % 2 == 1
  }

  function FreezeBytes(frozen: bool): bytes {
    [if frozen then 1 else 0, 0]
  }

  predicate AllZero(properties: bytes) {
    forall i :: 0 <= i < |properties| ==> properties[i] == 0
  }

  /** `saveDCDTData` */
  function SaveRecord(s: Shard, slot: Slot, t: Token): Shard {
    if t.value == 0 && AllZero(t.properties) then Drop(s, slot) else Put(s, slot, t)
  }

  /** `checkFrozeAndPause` */
  function CheckFrozeAndPause(cfg: Config, input: Input, a: Addr, key: bytes, t: Token): Result<()> {
    if input.returnAfterError || a == cfg.dcdtSC then Ok(())
    else if IsFrozen(t.properties) then Err(Frozen)
    else if key in input.paused then Err(Paused)
    else Ok(())
  }

  /** `checkCollectionIsFrozenForAccount` */
  function CheckCollection(cfg: Config, s: Shard, input: Input, a: Addr, token: bytes, nonce: nat): Result<()> {
    if cfg.checkFrozenCollection && nonce != 0 && !input.returnAfterError
       && IsFrozen(RecordAt(s, Slot(a, token)).properties)
    then Err(Frozen)
    else Ok(())
  }

  /** `addToDCDTBalance` */
  function AddToBalance(cfg: Config, s: Shard, input: Input, a: Addr, token: bytes, delta: int): Result<Shard> {
    var t := RecordAt(s, Slot(a, token));
    var _ :- Need(t.typ == Fungible, OnlyFungible);
    var _ :- CheckFrozeAndPause(cfg, input, a, token, t);
    var _ :- Need(t.value + delta >= 0, InsufficientFunds);
    Ok(SaveRecord(s, Slot(a, token), t.(value := t.value + delta)))
  }

  // ----- dcdtDataStorage.go -----

  /** `GetDCDTNFTTokenOnDestination`: the record, completed with the metadata of the system account. */
  function TokenAt(cfg: Config, s: Shard, a: Addr, token: bytes, nonce: nat): Token {
    var key := KeyOf(token, nonce);
    var t := RecordAt(s, Slot(a, key));
    if Slot(a, key) in s.accounts && cfg.saveToSystem && nonce != 0 && key in s.system && s.system[key].meta.Some?
    then t.(meta := s.system[key].meta)
    else t
  }

  /** `GetDCDTNFTTokenOnSender` */
  function TokenOnSender(cfg: Config, s: Shard, a: Addr, token: bytes, nonce: nat): Result<Token> {
    if Slot(a, KeyOf(token, nonce)) in s.accounts then Ok(TokenAt(cfg, s, a, token, nonce)) else Err(NewNFTDataOnSender)
  }

  /** `saveMetadataIfRequired` */
  function RefreshMetaData(cfg: Config, s: Shard, key: bytes, t: Token): Shard {
    if cfg.alwaysSaveMetaData && cfg.sendAlways && key in s.system && s.system[key].reserved == []
    then s.(system := s.system[key := s.system[key].(meta := t.meta)])
    else s
  }

  /** `properties[shard] = existsOnShard`, skipped for the metachain. */
  function Mark(properties: bytes, shard: nat): Result<bytes> {
    if shard == META then Ok(properties)
    else if shard < |properties| then Ok(properties[shard := EXISTS_ON_SHARD])
    else Err(Panic)
  }

  /** The entry `saveDCDTMetaDataToSystemAccount` writes. */
  function NewEntry(
    cfg: Config, s: Shard, userAcc: Option<Addr>, senderShard: nat, key: bytes, t: Token): Result<Token> {
    var entry := Token(t.typ, 0, seq(cfg.numShards, _ => 0), t.meta, []);
    if cfg.sendAlways then
      if key in s.system then
        Ok(entry)
      else if !cfg.fixOldTokenLiquidity then
        Ok(entry.(properties := [], reserved := [1]))
      else if userAcc.None? then
        Err(NilUserAccount)
      else if RecordAt(s, Slot(userAcc.value, key)).meta.Some? then
        Ok(entry.(properties := []))
      else
        Ok(entry.(properties := [], reserved := [1]))
    else
      var own :- Mark(entry.properties, s.id);
      var both :- Mark(own, senderShard);
      Ok(entry.(properties := both))
  }

  /** `saveDCDTMetaDataToSystemAccount` */
  function SaveMetaData(
    cfg: Config, s: Shard, userAcc: Option<Addr>, senderShard: nat, key: bytes, nonce: nat, t: Token, mustUpdate: bool)
    : Result<Shard>
  {
    if nonce == 0 || t.meta.None? then
      Ok(s)
    else if !mustUpdate && key in s.system then
      Ok(RefreshMetaData(cfg, s, key, t))
    else
      var entry :- NewEntry(cfg, s, userAcc, senderShard, key, t);
      Ok(s.(system := s.system[key := entry]))
  }

  /** `checkFrozenPauseProperties` */
  function CheckSave(cfg: Config, s: Shard, input: Input, a: Addr, token: bytes, nonce: nat, t: Token): Result<()> {
    var _ :- CheckFrozeAndPause(cfg, input, a, token, t);
    var _ :- CheckFrozeAndPause(cfg, input, a, KeyOf(token, nonce), t);
    CheckCollection(cfg, s, input, a, token, nonce)
  }

  /** The form of a token kept on an account. */
  function OnAccount(cfg: Config, t: Token): Token {
    if cfg.saveToSystem then Token(t.typ, t.value, t.properties, None, []) else t
  }

  /** `SaveDCDTNFTToken` */
  function SaveToken(
    cfg: Config, s: Shard, input: Input, sender: Addr, a: Addr, token: bytes, nonce: nat, t: Token, mustUpdate: bool)
    : Result<Shard>
  {
    var _ :- CheckSave(cfg, s, input, a, token, nonce, t);
    var key := KeyOf(token, nonce);
    var s1 :- if cfg.saveToSystem
              then SaveMetaData(cfg, s, Some(a), cfg.shardOf(sender), key, nonce, t, mustUpdate)
              else Ok(s);
    Ok(if t.value <= 0 then Drop(s1, Slot(a, key)) else Put(s1, Slot(a, key), OnAccount(cfg, t)))
  }

  /** `AddToLiquiditySystemAcc` */
  function AddLiquidity(cfg: Config, s: Shard, token: bytes, nonce: nat, delta: int): Result<Shard> {
    var key := KeyOf(token, nonce);
    if !cfg.saveToSystem || !cfg.sendAlways || nonce == 0 then
      Ok(s)
    else if key !in s.system then
      Err(NilDCDTData)
    else
      var entry := s.system[key];
      if entry.reserved == [] then
        Ok(s)
      else if cfg.fixOldTokenLiquidity && entry.value == 0 && delta < 0 then
        Ok(s.(system := s.system[key := entry.(reserved := [])]))
      else if entry.value + delta < 0 then
        Err(InvalidLiquidity)
      else if entry.value + delta == 0 then
        Ok(s.(system := s.system - {key}))
      else
        Ok(s.(system := s.system[key := entry.(value := entry.value + delta)]))
  }

  /** Saving a token and changing the liquidity, as every function does that changes what a shard holds. */
  function SaveWithLiquidity(
    cfg: Config, s: Shard, input: Input, sender: Addr, a: Addr, token: bytes, nonce: nat, t: Token, mustUpdate: bool,
    delta: int)
    : Result<Shard>
  {
    var s1 :- SaveToken(cfg, s, input, sender, a, token, nonce, t, mustUpdate);
    AddLiquidity(cfg, s1, token, nonce, delta)
  }

  /** `WasAlreadySentToDestinationShardAndUpdateState` */
  function AlreadySent(cfg: Config, s: Shard, token: bytes, nonce: nat, dst: Addr): Result<(bool, Shard)> {
    var shard := cfg.shardOf(dst);
    var key := KeyOf(token, nonce);
    if !cfg.saveToSystem then Ok((false, s))
    else if nonce == 0 || shard == s.id then Ok((true, s))
    else if cfg.sendAlways then Ok((false, s))
    else if shard == META then Ok((true, s))
    else if key !in s.system then Ok((false, s))
    else
      var sent := s.system[key].properties;
      var properties := if |sent| < cfg.numShards then sent + seq(cfg.numShards - |sent|, _ => 0) else sent;
      var _ :- Need(shard < |properties|, Panic);
      if properties[shard] > 0 then
        Ok((true, s))
      else
        var entry := s.system[key].(properties := properties[shard := EXISTS_ON_SHARD]);
        Ok((false, s.(system := s.system[key := entry])))
  }

  // ----- built-in functions of one account -----

  /** `checkDCDTNFTCreateBurnAddInput` */
  function CheckOwnCall(input: Input, gas: uint64): Result<()> {
    var _ :- Need(|input.args| >= 2, InvalidArguments);
    var _ :- Need(input.caller == input.recipient, InvalidRcvAddr);
    Need(input.gasProvided >= gas, NotEnoughGas)
  }

  function TotalLength(args: seq<bytes>): nat {
    if args == [] then 0 else |args[0]| + TotalLength(args[1..])
  }

  /** The account that holds the create role: the caller, or the last argument when the caller
      executes on behalf of it. */
  function RoleHolder(input: Input): Result<Addr> {
    if input.callType != ExecOnDestByCaller then
      Ok(input.caller)
    else
      var _ :- Need(|input.args| >= 8, InvalidArguments);
      var holder := input.args[|input.args| - 1];
      var _ :- Need(|holder| == |input.caller|, InvalidAddressLength);
      var _ :- Need(holder != input.caller, InvalidRcvAddr);
      Ok(holder)
  }

  /** The token `dcdtNFTCreate` stores at `nonce`. */
  function CreatedToken(input: Input, nonce: uint64): Token
    requires |input.args| >= 7
  {
    var uris := if input.callType == ExecOnDestByCaller then input.args[6..|input.args| - 1] else input.args[6..];
    var meta := MetaData(nonce, input.args[2], input.caller, U64(SetBytes(input.args[3])) % 0x1_0000_0000,
                         input.args[4], uris, input.args[5]);
    Token(NonFungible, SetBytes(input.args[1]), [], Some(meta), [])
  }

  /** `dcdtNFTCreate`, with the latest nonce read from the account that holds the role. */
  function Create(cfg: Config, s: Shard, input: Input, latest: uint64): Result<Shard> {
    var _ :- CheckOwnCall(input, cfg.createGas);
    var _ :- Need(|input.args| >= 7, InvalidArguments);
    var owner :- RoleHolder(input);
    var _ :- Need(input.allowed, ActionNotAllowed);
    var gas := U64(U64(TotalLength(input.args) * cfg.storeGas) + cfg.createGas);
    var _ :- Need(input.gasProvided >= gas, NotEnoughGas);
    var nonce := U64(latest + 1);
    var t := CreatedToken(input, nonce);
    var _ :- Need(t.meta.value.royalties <= MAX_ROYALTY, InvalidArguments);
    var _ :- Need(t.value > 0, InvalidArguments);
    var _ :- Need(t.value <= 1 || input.allowedQuantity, ActionNotAllowed);
    var _ :- Need(!(cfg.valueLengthCheck && |input.args[1]| > MAX_QUANTITY_LENGTH), InvalidArguments);
    SaveWithLiquidity(cfg, s, input, owner, owner, input.args[0], nonce, t, true, t.value)
  }

  /** Adds `value` to the caller's token `t`. */
  function Deposit(
    cfg: Config, s: Shard, input: Input, token: bytes, nonce: uint64, t: Token, value: int): Result<Shard> {
    var more := t.(value := t.value + value);
    SaveWithLiquidity(cfg, s, input, input.caller, input.caller, token, nonce, more, false, value)
  }

  /** `dcdtNFTAddQuantity` */
  function AddQuantity(cfg: Config, s: Shard, input: Input): Result<Shard> {
    var _ :- CheckOwnCall(input, cfg.quantityGas);
    var _ :- Need(|input.args| >= 3, InvalidArguments);
    var _ :- Need(input.allowed, ActionNotAllowed);
    var token, nonce := input.args[0], U64(SetBytes(input.args[1]));
    var t :- TokenOnSender(cfg, s, input.caller, token, nonce);
    var _ :- Need(nonce != 0, NFTDoesNotHaveMetadata);
    var _ :- Need(!(cfg.valueLengthCheck && |input.args[2]| > MAX_QUANTITY_LENGTH), InvalidArguments);
    Deposit(cfg, s, input, token, nonce, t, SetBytes(input.args[2]))
  }

  /** Takes `value` off the caller's token `t`. */
  function Withdraw(
    cfg: Config, s: Shard, input: Input, token: bytes, nonce: uint64, t: Token, value: int): Result<Shard> {
    var _ :- Need(t.value >= value, InvalidNFTQuantity);
    var less := t.(value := t.value - value);
    SaveWithLiquidity(cfg, s, input, input.caller, input.caller, token, nonce, less, false, -value)
  }

  /** `dcdtNFTBurn` */
  function Burn(cfg: Config, s: Shard, input: Input): Result<Shard> {
    var _ :- CheckOwnCall(input, cfg.burnGas);
    var _ :- Need(|input.args| >= 3, InvalidArguments);
    var _ :- Need(input.allowed, ActionNotAllowed);
    var token, nonce := input.args[0], U64(SetBytes(input.args[1]));
    var t :- TokenOnSender(cfg, s, input.caller, token, nonce);
    var _ :- Need(nonce != 0, NFTDoesNotHaveMetadata);
    Withdraw(cfg, s, input, token, nonce, t, SetBytes(input.args[2]))
  }

  /** `dcdtNFTupdate`. A record without metadata makes the Go code stop. */
  function UpdateAttributes(cfg: Config, s: Shard, input: Input): Result<Shard> {
    var _ :- CheckOwnCall(input, cfg.updateGas);
    var _ :- Need(|input.args| == 3, InvalidArguments);
    var _ :- Need(input.allowed, ActionNotAllowed);
    var gas := U64(cfg.updateGas + U64(|input.args[2]| * cfg.storeGas));
    var _ :- Need(input.gasProvided >= gas, NotEnoughGas);
    var token, nonce := input.args[0], U64(SetBytes(input.args[1]));
    var _ :- Need(nonce != 0, NFTDoesNotHaveMetadata);
    var t :- TokenOnSender(cfg, s, input.caller, token, nonce);
    var _ :- Need(t.meta.Some?, Panic);
    var updated := t.(meta := Some(t.meta.value.(attributes := input.args[2])));
    SaveToken(cfg, s, input, input.caller, input.caller, token, nonce, updated, true)
  }

  /** `dcdtFreezeWipe.toggleFreeze`; the argument is the whole key. */
  function SetFrozen(cfg: Config, s: Shard, input: Input, frozen: bool): Result<Shard> {
    var _ :- Need(|input.args| == 1, InvalidArguments);
    var _ :- Need(input.caller == cfg.dcdtSC, NotSystemContract);
    var slot := Slot(input.recipient, input.args[0]);
    Ok(SaveRecord(s, slot, RecordAt(s, slot).(properties := FreezeBytes(frozen))))
  }

  /** `dcdtFreezeWipe.wipeIfApplicable`: the record goes at the argument, the liquidity at what
      is extracted from it. */
  function Wipe(cfg: Config, s: Shard, input: Input): Result<Shard> {
    var _ :- Need(|input.args| == 1, InvalidArguments);
    var _ :- Need(input.caller == cfg.dcdtSC, NotSystemContract);
    var slot := Slot(input.recipient, input.args[0]);
    var _ :- Need(IsFrozen(RecordAt(s, slot).properties), CannotWipeNotFrozen);
    var (token, nonce) := ExtractWipe(input.args[0]);
    if cfg.wipeDecreasesLiquidity
    then AddLiquidity(cfg, Drop(s, slot), token, nonce, -Holding(s, slot))
    else Ok(Drop(s, slot))
  }

  /** `dcdtLocalMint` and `dcdtLocalBurn`: `sign` is 1 or -1. */
  function MintOrBurn(cfg: Config, s: Shard, input: Input, sign: int): Result<Shard> {
    var _ :- Need(|input.args| >= 2, InvalidArguments);
    var _ :- Need(input.caller == input.recipient, InvalidRcvAddr);
    var value: int := SetBytes(input.args[1]);
    var _ :- Need(value > 0, NegativeValue);
    var _ :- Need(input.gasProvided >= if sign > 0 then cfg.mintGas else cfg.localBurnGas, NotEnoughGas);
    var _ :- Need(input.allowed, ActionNotAllowed);
    var _ :- Need(!((sign > 0 || cfg.consistentLengths) && |input.args[1]| > cfg.maxIssueLength), InvalidArguments);
    AddToBalance(cfg, s, input, input.caller, input.args[0], sign * value)
  }

  /** `dcdtTransfer`: the debit runs where the sender lives, the credit where the receiver lives. */
  function FungibleTransfer(cfg: Config, s: Shard, input: Input): Result<Shard> {
    var _ :- Need(|input.args| >= 2, InvalidArguments);
    var _ :- Need(cfg.shardOf(input.recipient) != META, InvalidRcvAddr);
    var _ :- Need(!(cfg.consistentLengths && |input.args[1]| > cfg.maxIssueLength), InvalidArguments);
    var value: int := SetBytes(input.args[1]);
    var _ :- Need(value > 0, NegativeValue);
    var atSender := cfg.shardOf(input.caller) == s.id;
    var _ :- Need(!atSender || input.returnAfterError || input.args[0] !in input.restricted, ActionNotAllowed);
    var _ :- Need(!atSender || input.gasProvided >= cfg.fungibleGas, NotEnoughGas);
    var s1 :- if atSender then AddToBalance(cfg, s, input, input.caller, input.args[0], -value) else Ok(s);
    if cfg.shardOf(input.recipient) == s.id then
      var _ :- Need(input.payable, AccountNotPayable);
      AddToBalance(cfg, s1, input, input.recipient, input.args[0], value)
    else
      Ok(s1)
  }
}
