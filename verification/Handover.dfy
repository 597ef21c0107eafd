// The handover of the create role over every run: one carrier, and nonces that only grow.
module Handover {
  import opened Bytes
  import opened Wrappers
  import opened Ledger
  import opened TxData
  import opened Roles
  import opened CreateRole

  const MAX64: uint64 := 0xFFFF_FFFF_FFFF_FFFF

  // ----- messages -----

  function ArgsOf(m: HandMsg): seq<bytes> {
    match Parse(m.data)
    case Ok((_, args)) => args
    case Err(_) => []
  }

  lemma TextParses(src: Addr, dst: Addr, token: bytes, nonce: uint64)
    ensures ArgsOf(HandMsg(src, dst, HandoverText(token, nonce))) == [token, ToBytes(nonce)]
    ensures Parse(HandoverText(token, nonce)).Ok?
    ensures U64(SetBytes(ToBytes(nonce))) == nonce
  {
    assert CREATE_ROLE_TRANSFER != [] && AT !in CREATE_ROLE_TRANSFER by {
      assert forall i :: 0 <= i < |CREATE_ROLE_TRANSFER| ==>
        CREATE_ROLE_TRANSFER[i] == "DCDTNFTCreateRoleTransfer"[i] as int % 256;
    }
    ParsePrint(CREATE_ROLE_TRANSFER, [token, ToBytes(nonce)]);
    SetBytesToBytes(nonce);
    U64Identity(nonce);
  }

  /** The message hands over `token`. */
  predicate About(m: HandMsg, token: bytes) {
    |ArgsOf(m)| == 2 && ArgsOf(m)[0] == token
  }

  function NonceOf(m: HandMsg): uint64
    requires |ArgsOf(m)| == 2
  {
    U64(SetBytes(ArgsOf(m)[1]))
  }

  /** The text of every message is a handover with a nonce of at most eight bytes. */
  ghost predicate Readable(w: World) {
    forall k :: 0 <= k < |w.inflight| ==>
      Parse(w.inflight[k].data).Ok? && |ArgsOf(w.inflight[k])| == 2 && |ArgsOf(w.inflight[k])[1]| <= 8
  }

  // ----- the carrier -----

  function TimesListed(w: World, p: Slot): nat {
    multiset(HolderAt(w, p).roles)[NFT_CREATE]
  }

  /** The nonces issued for the token grow strictly and do not exceed `n`. */
  ghost predicate IssuedUpTo(w: World, token: bytes, n: nat) {
    && (forall k :: 0 <= k < |w.issued| && w.issued[k].creator.key == token ==> w.issued[k].nonce <= n)
    && (forall j, k :: 0 <= j < k < |w.issued| && w.issued[j].creator.key == token == w.issued[k].creator.key ==>
          w.issued[j].nonce < w.issued[k].nonce)
  }

  /** The account `a` alone carries the right to create, and lists it once. */
  ghost predicate HeldBy(w: World, token: bytes, a: Addr) {
    && TimesListed(w, Slot(a, token)) == 1
    && (forall b :: b != a ==> NFT_CREATE !in HolderAt(w, Slot(b, token)).roles)
    && (forall k :: 0 <= k < |w.inflight| ==> !About(w.inflight[k], token))
    && IssuedUpTo(w, token, HolderAt(w, Slot(a, token)).nonce)
  }

  /** The message `k` alone carries the right to create. */
  ghost predicate OnItsWay(w: World, token: bytes, k: nat) {
    && k < |w.inflight| && About(w.inflight[k], token)
    && (forall b :: NFT_CREATE !in HolderAt(w, Slot(b, token)).roles)
    && (forall j :: 0 <= j < |w.inflight| && j != k ==> !About(w.inflight[j], token))
    && IssuedUpTo(w, token, NonceOf(w.inflight[k]))
  }

  ghost predicate OneCarrier(w: World, token: bytes) {
    Readable(w) && ((exists a :: HeldBy(w, token, a)) || (exists k: nat :: OnItsWay(w, token, k)))
  }

  /** The token's right is handed over by its current owner and across shards; roles are otherwise left
      alone; the last nonce is not used up. */
  predicate Proper(cfg: Config, w: World, step: RoleStep, token: bytes) {
    match step
    case Creating(p) => p.key == token ==> HolderAt(w, p).nonce < MAX64
    case HandingOver(a, args) =>
      |args| == 2 && args[0] == token ==>
        NFT_CREATE in HolderAt(w, Slot(a, token)).roles && cfg.shardOf(args[1]) != cfg.shardOf(a)
    case Arriving(_, _) => true
    case ChangingRoles(p, _, roles) => p.key == token ==> NFT_CREATE !in roles && MULTI_SHARD !in roles
  }

  ghost predicate ProperRun(cfg: Config, w: World, steps: seq<RoleStep>, token: bytes)
    decreases |steps|
  {
    steps == [] || (Proper(cfg, w, steps[0], token) && ProperRun(cfg, Next(cfg, w, steps[0]), steps[1..], token))
  }

  // ----- steps -----

  lemma IssuedMore(w: World, w1: World, token: bytes, n: nat, x: Issue)
    requires IssuedUpTo(w, token, n) && w1.issued == w.issued + [x]
    requires x.creator.key == token ==> x.nonce > n
    ensures IssuedUpTo(w1, token, if x.creator.key == token then x.nonce else n)
  {
  }

  lemma OwnerCreates(w: World, a: Addr, token: bytes)
    requires Readable(w) && HeldBy(w, token, a) && HolderAt(w, Slot(a, token)).nonce < MAX64
    requires CreateNext(w, Slot(a, token)).Ok?
    ensures HeldBy(CreateNext(w, Slot(a, token)).value, token, a)
  {
    var p, w1 := Slot(a, token), CreateNext(w, Slot(a, token)).value;
    var nonce: nat := HolderAt(w, p).nonce;
    U64Identity(nonce + 1);
    IssuedMore(w, w1, token, nonce, Issue(p, nonce + 1));
  }

  lemma OtherTokenCreates(w: World, p: Slot, token: bytes)
    requires OneCarrier(w, token) && p.key != token && CreateNext(w, p).Ok?
    ensures OneCarrier(CreateNext(w, p).value, token)
  {
    hide ArgsOf;
    var w1, x := CreateNext(w, p).value, Issue(p, U64(HolderAt(w, p).nonce + 1));
    if a :| HeldBy(w, token, a) {
      IssuedMore(w, w1, token, HolderAt(w, Slot(a, token)).nonce, x);
      assert HeldBy(w1, token, a);
    } else {
      var k: nat :| OnItsWay(w, token, k);
      IssuedMore(w, w1, token, NonceOf(w.inflight[k]), x);
      assert OnItsWay(w1, token, k);
    }
  }

  lemma CreatingKeeps(w: World, p: Slot, token: bytes)
    requires OneCarrier(w, token) && (p.key == token ==> HolderAt(w, p).nonce < MAX64)
    requires CreateNext(w, p).Ok?
    ensures OneCarrier(CreateNext(w, p).value, token)
  {
    if p.key == token {
      CarrierUnique(w, token, p.addr);
      OwnerCreates(w, p.addr, token);
    } else {
      OtherTokenCreates(w, p, token);
    }
  }

  /** The two states agree on the holders of the token and on what was issued. */
  ghost predicate SameHolders(w: World, w1: World, token: bytes) {
    w1.issued == w.issued && forall b :: HolderAt(w1, Slot(b, token)) == HolderAt(w, Slot(b, token))
  }

  lemma MessageAdded(w: World, w1: World, token: bytes, m: HandMsg)
    requires OneCarrier(w, token) && SameHolders(w, w1, token) && Readable(w1)
    requires w1.inflight == w.inflight + [m] && !About(m, token)
    ensures OneCarrier(w1, token)
  {
    if owner :| HeldBy(w, token, owner) {
      assert HeldBy(w1, token, owner);
    } else {
      var j: nat :| OnItsWay(w, token, j);
      assert OnItsWay(w1, token, j);
    }
  }

  lemma WithoutOne(before: seq<HandMsg>, k: nat, j: nat)
    requires k < |before| && j + 1 < |before|
    ensures (before[..k] + before[k + 1..])[j] == before[if j < k then j else j + 1]
  {
  }

  lemma HolderStays(w: World, w1: World, token: bytes, k: nat, owner: Addr)
    requires HeldBy(w, token, owner) && SameHolders(w, w1, token) && k < |w.inflight|
    requires w1.inflight == w.inflight[..k] + w.inflight[k + 1..]
    ensures HeldBy(w1, token, owner)
  {
    hide About, HolderAt;
    forall j | 0 <= j < |w1.inflight|
      ensures !About(w1.inflight[j], token)
    {
      WithoutOne(w.inflight, k, j);
    }
  }

  lemma WayStays(w: World, w1: World, token: bytes, k: nat, way: nat)
    requires OnItsWay(w, token, way) && SameHolders(w, w1, token) && k < |w.inflight| && k != way
    requires w1.inflight == w.inflight[..k] + w.inflight[k + 1..]
    ensures OnItsWay(w1, token, if way < k then way else way - 1)
  {
    hide About, HolderAt, NonceOf;
    var left := if way < k then way else way - 1;
    WithoutOne(w.inflight, k, left);
    forall j | 0 <= j < |w1.inflight| && j != left
      ensures !About(w1.inflight[j], token)
    {
      WithoutOne(w.inflight, k, j);
    }
  }

  lemma MessageRemoved(w: World, w1: World, token: bytes, k: nat)
    requires OneCarrier(w, token) && SameHolders(w, w1, token) && k < |w.inflight|
    requires w1.inflight == w.inflight[..k] + w.inflight[k + 1..] && !About(w.inflight[k], token)
    ensures OneCarrier(w1, token)
  {
    hide ArgsOf;
    assert Readable(w1);
    if owner :| HeldBy(w, token, owner) {
      HolderStays(w, w1, token, k, owner);
    } else {
      var way: nat :| OnItsWay(w, token, way);
      WayStays(w, w1, token, k, way);
    }
  }

  lemma HandoverStarts(w: World, w1: World, a: Addr, src: Addr, dst: Addr, token: bytes)
    requires OneCarrier(w, token) && NFT_CREATE in HolderAt(w, Slot(a, token)).roles
    requires var nonce := HolderAt(w, Slot(a, token)).nonce;
             w1 == WithHolder(w, Slot(a, token), Surrendered(HolderAt(w, Slot(a, token))))
                   .(inflight := w.inflight + [HandMsg(src, dst, HandoverText(token, nonce))])
    ensures OneCarrier(w1, token)
  {
    hide ArgsOf, Parse, HandoverText;
    var nonce := HolderAt(w, Slot(a, token)).nonce;
    CarrierUnique(w, token, a);
    TextParses(src, dst, token, nonce);
    Uint64Length(nonce);
    SurrenderedStillCreates(HolderAt(w, Slot(a, token)));
    assert OnItsWay(w1, token, |w.inflight|);
  }

  lemma HandingOverKeeps(cfg: Config, w: World, a: Addr, args: seq<bytes>, token: bytes)
    requires OneCarrier(w, token) && Proper(cfg, w, HandingOver(a, args), token)
    requires AtCurrentOwner(cfg, w, a, args).Ok?
    ensures OneCarrier(AtCurrentOwner(cfg, w, a, args).value, token)
  {
    hide ArgsOf, Parse, HandoverText;
    var w1 := AtCurrentOwner(cfg, w, a, args).value;
    if args[0] == token {
      HandoverStarts(w, w1, a, cfg.dcdtSC, args[1], token);
    } else {
      var nonce := HolderAt(w, Slot(a, args[0])).nonce;
      TextParses(cfg.dcdtSC, args[1], args[0], nonce);
      Uint64Length(nonce);
      MessageAdded(w, w1, token, HandMsg(cfg.dcdtSC, args[1], HandoverText(args[0], nonce)));
    }
  }

  /** The message `k` is taken away after the account `dst` was endowed for what it hands over. */
  lemma ArrivedKeeps(w: World, k: nat, token: bytes)
    requires OneCarrier(w, token) && k < |w.inflight|
    ensures var args, dst := ArgsOf(w.inflight[k]), w.inflight[k].dst;
            |args| == 2 && AtNextOwner(w, dst, args).Ok? &&
            var w1 := AtNextOwner(w, dst, args).value;
            OneCarrier(w1.(inflight := w1.inflight[..k] + w1.inflight[k + 1..]), token)
  {
    var m, args := w.inflight[k], ArgsOf(w.inflight[k]);
    var w1 := AtNextOwner(w, m.dst, args).value;
    var w2 := w1.(inflight := w1.inflight[..k] + w1.inflight[k + 1..]);
    if args[0] == token {
      EndowedKeeps(w, w2, k, token);
    } else {
      MessageRemoved(w, w2, token, k);
    }
  }

  lemma EndowedKeeps(w: World, w2: World, k: nat, token: bytes)
    requires OneCarrier(w, token) && k < |w.inflight| && About(w.inflight[k], token)
    requires var p := Slot(w.inflight[k].dst, token);
             w2 == WithHolder(w, p, Endowed(HolderAt(w, p), NonceOf(w.inflight[k])))
                   .(inflight := w.inflight[..k] + w.inflight[k + 1..])
    ensures HeldBy(w2, token, w.inflight[k].dst)
  {
    var j: nat :| OnItsWay(w, token, j);
    assert j == k;
    var p := Slot(w.inflight[k].dst, token);
    assert multiset(HolderAt(w, p).roles + [NFT_CREATE])[NFT_CREATE] == 1;
  }

  lemma ArrivingKeeps(cfg: Config, w: World, k: nat, caller: Addr, token: bytes)
    requires OneCarrier(w, token) && |cfg.dcdtSC| > 8
    ensures OneCarrier(Next(cfg, w, Arriving(k, caller)), token)
  {
    if k < |w.inflight| && caller != cfg.dcdtSC {
      ArrivedKeeps(w, k, token);
    }
  }

  /** A handover message executed in the name of the system contract is refused and stays in flight. */
  lemma ArrivingFromSystemRefused(cfg: Config, w: World, k: nat)
    requires Readable(w) && |cfg.dcdtSC| > 8 && k < |w.inflight|
    ensures Outcome(cfg, w, Arriving(k, cfg.dcdtSC)) == Err(InvalidArguments)
  {
  }

  /** Changing other roles neither gives nor takes the create role. */
  lemma CreateRoleUntouched(h: Holder, a: Addr, set_: bool, roles: seq<bytes>)
    requires NFT_CREATE !in roles && MULTI_SHARD !in roles && RolesChanged(h, a, set_, roles).Ok?
    ensures var h1 := RolesChanged(h, a, set_, roles).value;
            && h1.nonce == h.nonce
            && multiset(h1.roles)[NFT_CREATE] == multiset(h.roles)[NFT_CREATE]
            && (NFT_CREATE in h1.roles <==> NFT_CREATE in h.roles)
  {
    OtherRolesStay(h.roles, roles, NFT_CREATE);
    var h1 := RolesChanged(h, a, set_, roles).value;
    assert multiset(h.roles + roles)[NFT_CREATE] == multiset(h.roles)[NFT_CREATE];
    assert NFT_CREATE in h1.roles <==> multiset(h1.roles)[NFT_CREATE] > 0;
    assert NFT_CREATE in h.roles <==> multiset(h.roles)[NFT_CREATE] > 0;
  }

  /** The two states agree on who lists the create role of the token, how often, and with which nonce. */
  ghost predicate SameRights(w: World, w1: World, token: bytes) {
    && w1.inflight == w.inflight && w1.issued == w.issued
    && forall b :: var h, h1 := HolderAt(w, Slot(b, token)), HolderAt(w1, Slot(b, token));
                   && h1.nonce == h.nonce
                   && multiset(h1.roles)[NFT_CREATE] == multiset(h.roles)[NFT_CREATE]
                   && (NFT_CREATE in h1.roles <==> NFT_CREATE in h.roles)
  }

  lemma SameRightsKeep(w: World, w1: World, token: bytes)
    requires OneCarrier(w, token) && SameRights(w, w1, token)
    ensures OneCarrier(w1, token)
  {
    if owner :| HeldBy(w, token, owner) {
      assert HeldBy(w1, token, owner);
    } else {
      var j: nat :| OnItsWay(w, token, j);
      assert OnItsWay(w1, token, j);
    }
  }

  lemma ChangingKeeps(w: World, p: Slot, set_: bool, roles: seq<bytes>, token: bytes)
    requires OneCarrier(w, token) && (p.key == token ==> NFT_CREATE !in roles && MULTI_SHARD !in roles)
    requires RolesChanged(HolderAt(w, p), p.addr, set_, roles).Ok?
    ensures OneCarrier(WithHolder(w, p, RolesChanged(HolderAt(w, p), p.addr, set_, roles).value), token)
  {
    if p.key == token {
      CreateRoleUntouched(HolderAt(w, p), p.addr, set_, roles);
    }
    SameRightsKeep(w, WithHolder(w, p, RolesChanged(HolderAt(w, p), p.addr, set_, roles).value), token);
  }

  lemma StepKeeps(cfg: Config, w: World, step: RoleStep, token: bytes)
    requires OneCarrier(w, token) && Proper(cfg, w, step, token) && |cfg.dcdtSC| > 8
    ensures OneCarrier(Next(cfg, w, step), token)
  {
    if Outcome(cfg, w, step).Ok? {
      match step
      case Creating(p) => CreatingKeeps(w, p, token);
      case HandingOver(a, args) => HandingOverKeeps(cfg, w, a, args, token);
      case Arriving(k, caller) => ArrivingKeeps(cfg, w, k, caller, token);
      case ChangingRoles(p, set_, roles) => ChangingKeeps(w, p, set_, roles, token);
    }
  }

  /** Setting the create role for the first time makes its account the one carrier. */
  lemma FirstGrantCarries(cfg: Config, a: Addr, token: bytes)
    ensures OneCarrier(Next(cfg, World(map[], [], []), ChangingRoles(Slot(a, token), true, [NFT_CREATE])), token)
  {
    var w1 := Next(cfg, World(map[], [], []), ChangingRoles(Slot(a, token), true, [NFT_CREATE]));
    assert MULTI_SHARD !in [NFT_CREATE] by {
      assert |MULTI_SHARD| != |NFT_CREATE|;
    }
    assert [] + [NFT_CREATE] == [NFT_CREATE];
    assert HolderAt(w1, Slot(a, token)) == Holder(0, [NFT_CREATE]);
    assert HeldBy(w1, token, a);
  }

  /** Over every run with any number of handovers: exactly one account or message carries the right to
      create, and the nonces issued, by whomever, grow strictly: none is issued twice. */
  lemma {:induction false} HandoverOverRuns(cfg: Config, w: World, steps: seq<RoleStep>, token: bytes)
    requires OneCarrier(w, token) && ProperRun(cfg, w, steps, token) && |cfg.dcdtSC| > 8
    ensures var w1 := Run(cfg, w, steps);
            && OneCarrier(w1, token)
            && forall j, k | 0 <= j < k < |w1.issued| ::
                 w1.issued[j].creator.key == token == w1.issued[k].creator.key ==>
                   w1.issued[j].nonce < w1.issued[k].nonce
    decreases |steps|
  {
    if steps != [] {
      StepKeeps(cfg, w, steps[0], token);
      HandoverOverRuns(cfg, Next(cfg, w, steps[0]), steps[1..], token);
    }
  }

  /** One carrier means one: never two accounts, never an account and a message. */
  lemma CarrierUnique(w: World, token: bytes, a: Addr)
    requires OneCarrier(w, token) && NFT_CREATE in HolderAt(w, Slot(a, token)).roles
    ensures HeldBy(w, token, a)
    ensures forall b :: NFT_CREATE in HolderAt(w, Slot(b, token)).roles ==> b == a
  {
    if owner :| HeldBy(w, token, owner) {
      assert owner == a;
    }
  }

  // ----- limits -----

  /** A message about the token while somebody lists the role is two carriers. */
  lemma TwoCarriers(w: World, token: bytes, b: Addr, k: nat)
    requires NFT_CREATE in HolderAt(w, Slot(b, token)).roles && k < |w.inflight| && About(w.inflight[k], token)
    ensures !OneCarrier(w, token)
  {
  }

  /** Who still lists the role after a handover at `x`: another owner, or the next one on the same shard. */
  lemma StillListedSomewhere(cfg: Config, w: World, owner: Addr, x: Addr, args: seq<bytes>, token: bytes)
    returns (b: Addr)
    requires HeldBy(w, token, owner) && AtCurrentOwner(cfg, w, x, args).Ok? && args[0] == token
    requires x != owner || cfg.shardOf(args[1]) == cfg.shardOf(x)
    ensures NFT_CREATE in HolderAt(AtCurrentOwner(cfg, w, x, args).value, Slot(b, token)).roles
  {
    b := if cfg.shardOf(args[1]) == cfg.shardOf(x) then args[1] else owner;
    assert NFT_CREATE in HolderAt(w, Slot(owner, token)).roles by {
      assert multiset(HolderAt(w, Slot(owner, token)).roles)[NFT_CREATE] == 1;
    }
  }

  /** A handover keeps the right in one place exactly when it starts at the current owner and crosses shards. */
  lemma HandoverKeepsExactly(cfg: Config, w: World, owner: Addr, x: Addr, args: seq<bytes>, token: bytes)
    requires Readable(w) && HeldBy(w, token, owner) && AtCurrentOwner(cfg, w, x, args).Ok? && args[0] == token
    ensures OneCarrier(AtCurrentOwner(cfg, w, x, args).value, token)
       <==> x == owner && cfg.shardOf(args[1]) != cfg.shardOf(x)
  {
    var w1 := AtCurrentOwner(cfg, w, x, args).value;
    if x == owner && cfg.shardOf(args[1]) != cfg.shardOf(x) {
      assert multiset(HolderAt(w, Slot(owner, token)).roles)[NFT_CREATE] == 1;
      HandoverStarts(w, w1, x, cfg.dcdtSC, args[1], token);
    } else {
      var b := StillListedSomewhere(cfg, w, owner, x, args, token);
      TextParses(cfg.dcdtSC, args[1], token, HolderAt(w, Slot(x, token)).nonce);
      TwoCarriers(w1, token, b, |w.inflight|);
    }
  }

  /** Inside one shard the next owner is served at once and the message goes out as well. */
  lemma ServedAtOnce(cfg: Config, w: World, a: Addr, b: Addr, token: bytes)
    requires cfg.shardOf(a) == cfg.shardOf(b) && a != b && |b| == |cfg.dcdtSC|
    ensures var w1, nonce := Next(cfg, w, HandingOver(a, [token, b])), HolderAt(w, Slot(a, token)).nonce;
            && HolderAt(w1, Slot(b, token)).nonce == nonce && NFT_CREATE in HolderAt(w1, Slot(b, token)).roles
            && w1.inflight == w.inflight + [HandMsg(cfg.dcdtSC, b, HandoverText(token, nonce))]
            && w1.issued == w.issued
  {
  }

  lemma CreatesNext(cfg: Config, w: World, p: Slot, nonce: nat)
    requires NFT_CREATE in HolderAt(w, p).roles && nonce == HolderAt(w, p).nonce
    ensures var w1 := Next(cfg, w, Creating(p));
            && w1.issued == w.issued + [Issue(p, U64(nonce + 1))]
            && w1.inflight == w.inflight
            && NFT_CREATE in HolderAt(w1, p).roles
  {
  }

  lemma MessageResets(cfg: Config, w: World, src: Addr, dst: Addr, token: bytes, nonce: uint64, caller: Addr)
    requires w.inflight == [HandMsg(src, dst, HandoverText(token, nonce))] && caller != cfg.dcdtSC
    ensures var w1 := Next(cfg, w, Arriving(0, caller));
            && w1.issued == w.issued
            && HolderAt(w1, Slot(dst, token)).nonce == nonce && NFT_CREATE in HolderAt(w1, Slot(dst, token)).roles
  {
    TextParses(src, dst, token, nonce);
  }

  /** Why a handover has to cross shards: delivered after a creation, the message of a handover inside one
      shard resets the nonce, and the next creation issues the same nonce again. */
  lemma SameShardHandoverRepeats(cfg: Config, w: World, a: Addr, b: Addr, token: bytes, caller: Addr)
    requires cfg.shardOf(a) == cfg.shardOf(b) && a != b && |b| == |cfg.dcdtSC| && caller != cfg.dcdtSC
    requires w.inflight == []
    ensures var p := Slot(b, token);
            var w4 := Run(cfg, w, [HandingOver(a, [token, b]), Creating(p), Arriving(0, caller), Creating(p)]);
            |w4.issued| == |w.issued| + 2 && w4.issued[|w.issued|] == w4.issued[|w.issued| + 1]
  {
    var nonce, p := HolderAt(w, Slot(a, token)).nonce, Slot(b, token);
    var s0, s1, s2, s3 := HandingOver(a, [token, b]), Creating(p), Arriving(0, caller), Creating(p);
    var w1 := Next(cfg, w, s0);
    ServedAtOnce(cfg, w, a, b, token);
    CreatesNext(cfg, w1, p, nonce);
    var w2 := Next(cfg, w1, s1);
    MessageResets(cfg, w2, cfg.dcdtSC, b, token, nonce, caller);
    var w3 := Next(cfg, w2, s2);
    CreatesNext(cfg, w3, p, nonce);
    RunFour(cfg, w, s0, s1, s2, s3);
  }

  lemma RunFour(cfg: Config, w: World, s0: RoleStep, s1: RoleStep, s2: RoleStep, s3: RoleStep)
    ensures Run(cfg, w, [s0, s1, s2, s3]) == Next(cfg, Next(cfg, Next(cfg, Next(cfg, w, s0), s1), s2), s3)
  {
    var w1 := Next(cfg, w, s0);
    var w2 := Next(cfg, w1, s1);
    var w3 := Next(cfg, w2, s2);
    assert [s0, s1, s2, s3][1..] == [s1, s2, s3];
    assert [s1, s2, s3][1..] == [s2, s3];
    assert [s2, s3][1..] == [s3];
    assert [s3][1..] == [];
    assert Run(cfg, w3, [s3]) == Next(cfg, w3, s3);
    assert Run(cfg, w2, [s2, s3]) == Run(cfg, w3, [s3]);
    assert Run(cfg, w1, [s1, s2, s3]) == Run(cfg, w2, [s2, s3]);
  }

  // ----- what one call does -----

  /** The create role is listed, once if it was not before, and every other role as often as before. */
  ghost predicate GainsCreate(before: seq<bytes>, after: seq<bytes>) {
    && NFT_CREATE in after
    && (NFT_CREATE !in before ==> multiset(after)[NFT_CREATE] == 1)
    && forall r :: r != NFT_CREATE || NFT_CREATE in before ==> multiset(after)[r] == multiset(before)[r]
  }

  lemma EndowedGains(h: Holder, nonce: uint64)
    ensures Endowed(h, nonce).nonce == nonce && GainsCreate(h.roles, Endowed(h, nonce).roles)
  {
    var after := Endowed(h, nonce).roles;
    assert NFT_CREATE !in h.roles ==> multiset(after) == multiset(h.roles) + multiset{NFT_CREATE};
    assert NFT_CREATE !in h.roles ==> NFT_CREATE !in multiset(h.roles);
  }

  lemma SurrenderedLoses(h: Holder)
    ensures Surrendered(h).nonce == 0 && multiset(Surrendered(h).roles) == multiset(h.roles) - multiset{NFT_CREATE}
  {
    RemoveEachCounts(h.roles, [NFT_CREATE]);
  }

  /** The holder at `p` has given up nonce and role; the one at `q`, if it is `here` and another, has got them. */
  ghost predicate HandedOver(w: World, w1: World, p: Slot, q: Slot, here: bool) {
    && (p != q ==>
          && HolderAt(w1, p).nonce == 0
          && multiset(HolderAt(w1, p).roles) == multiset(HolderAt(w, p).roles) - multiset{NFT_CREATE})
    && (here && p != q ==>
          && HolderAt(w1, q).nonce == HolderAt(w, p).nonce
          && GainsCreate(HolderAt(w, q).roles, HolderAt(w1, q).roles))
    && (forall x :: x != p && (x != q || !here) ==> HolderAt(w1, x) == HolderAt(w, x))
  }

  lemma HolderWritten(w: World, p: Slot, h: Holder)
    ensures forall x :: HolderAt(WithHolder(w, p, h), x) == if x == p then h else HolderAt(w, x)
  {
  }

  lemma WritesHandOver(w: World, given: World, w1: World, p: Slot, q: Slot, here: bool)
    requires given == WithHolder(w, p, Surrendered(HolderAt(w, p)))
    requires var last :=
               if here then WithHolder(given, q, Endowed(HolderAt(given, q), HolderAt(w, p).nonce)) else given;
             forall x :: HolderAt(w1, x) == HolderAt(last, x)
    ensures HandedOver(w, w1, p, q, here)
  {
    hide Surrendered, Endowed, GainsCreate, HolderAt, WithHolder;
    SurrenderedLoses(HolderAt(w, p));
    EndowedGains(HolderAt(w, q), HolderAt(w, p).nonce);
    HolderWritten(w, p, Surrendered(HolderAt(w, p)));
    HolderWritten(given, q, Endowed(HolderAt(given, q), HolderAt(w, p).nonce));
  }

  /** A handover asked for by the system contract goes through exactly for a token and an address of the contract's
      length. It takes nonce and create role from the account, gives them to a next owner in the same shard, and
      sends the next owner a message with the token and the nonce. */
  lemma HandsOverExactly(cfg: Config, w: World, a: Addr, args: seq<bytes>)
    ensures CreateRoleTransfer(cfg, w, a, cfg.dcdtSC, args).Ok? <==> |args| == 2 && |args[1]| == |cfg.dcdtSC|
    ensures CreateRoleTransfer(cfg, w, a, cfg.dcdtSC, args).Ok? ==>
              var w1, p, q :=
                CreateRoleTransfer(cfg, w, a, cfg.dcdtSC, args).value, Slot(a, args[0]), Slot(args[1], args[0]);
              && HandedOver(w, w1, p, q, cfg.shardOf(args[1]) == cfg.shardOf(a))
              && w1.issued == w.issued
              && exists m: HandMsg ::
                   && w1.inflight == w.inflight + [m] && m.src == cfg.dcdtSC && m.dst == args[1]
                   && Parse(m.data).Ok? && ArgsOf(m) == [args[0], ToBytes(HolderAt(w, p).nonce)]
  {
    hide Surrendered, Endowed, Parse, ArgsOf, HandoverText, HandedOver;
    if |args| == 2 && |args[1]| == |cfg.dcdtSC| {
      var w1, p, q := CreateRoleTransfer(cfg, w, a, cfg.dcdtSC, args).value, Slot(a, args[0]), Slot(args[1], args[0]);
      WritesHandOver(w, WithHolder(w, p, Surrendered(HolderAt(w, p))), w1, p, q,
                     cfg.shardOf(args[1]) == cfg.shardOf(a));
      var m := HandMsg(cfg.dcdtSC, args[1], HandoverText(args[0], HolderAt(w, p).nonce));
      TextParses(m.src, m.dst, args[0], HolderAt(w, p).nonce);
      assert w1.inflight == w.inflight + [m];
    }
  }

  /** A handover message goes through exactly with two arguments: the account then has the nonce named second and
      the create role of the token named first, and nothing else changes. */
  lemma TakesOverExactly(cfg: Config, w: World, a: Addr, caller: Addr, args: seq<bytes>)
    requires caller != cfg.dcdtSC
    ensures CreateRoleTransfer(cfg, w, a, caller, args).Ok? <==> |args| == 2
    ensures CreateRoleTransfer(cfg, w, a, caller, args).Ok? ==>
              var w1, p := CreateRoleTransfer(cfg, w, a, caller, args).value, Slot(a, args[0]);
              && HolderAt(w1, p).nonce == U64(SetBytes(args[1]))
              && GainsCreate(HolderAt(w, p).roles, HolderAt(w1, p).roles)
              && (forall x :: x != p ==> HolderAt(w1, x) == HolderAt(w, x))
              && w1.issued == w.issued && w1.inflight == w.inflight
  {
    hide Endowed, GainsCreate;
    if |args| == 2 {
      EndowedGains(HolderAt(w, Slot(a, args[0])), U64(SetBytes(args[1])));
    }
  }
}
