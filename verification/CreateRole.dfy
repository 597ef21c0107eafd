// The right to create and the latest nonce that goes with it: dcdtRoles.go, the nonce part of
// dcdtNFTCreate.go, and the two-step handover of dcdtNFTCreateRoleTransfer.go.
module CreateRole {
  import opened Bytes
  import opened Wrappers
  import opened Ledger
  import opened TxData
  import opened Roles

  const NFT_CREATE := Ascii("DCDTRoleNFTCreate")
  const MULTI_SHARD := Ascii("DCDTRoleNFTCreateMultiShard")
  const CREATE_ROLE_TRANSFER := Ascii("DCDTNFTCreateRoleTransfer")

  /** `math.MaxUint64 / 256` */
  const RANGE := 0x00FF_FFFF_FFFF_FFFF

  /** What an account keeps for one token: the latest nonce and the roles. */
  datatype Holder = Holder(nonce: uint64, roles: seq<bytes>)

  /** `computeStartNonce`; an empty address makes the Go code stop. */
  function StartNonce(a: Addr): (n: uint64)
    requires a != []
    ensures n <= 255 * RANGE
  {
    RANGE * a[|a| - 1]
  }

  // ----- one account -----

  /** `deleteCreateRoleFromAccount`, after the nonce was set to zero. */
  function Surrendered(h: Holder): Holder {
    Holder(0, RemoveEach(h.roles, [NFT_CREATE]))
  }

  /** `saveLatestNonce` and `addCreateRoleToAccount` */
  function Endowed(h: Holder, nonce: uint64): Holder {
    Holder(nonce, if NFT_CREATE in h.roles then h.roles else h.roles + [NFT_CREATE])
  }

  /** `dcdtRoles.ProcessBuiltinFunction` on the account `a`: set and unset alike restart the nonce when
      the multi-shard role is named. */
  function RolesChanged(h: Holder, a: Addr, set_: bool, roles: seq<bytes>): Result<Holder> {
    var list := if set_ then h.roles + roles else RemoveEach(h.roles, roles);
    if MULTI_SHARD in roles then
      var _ :- Need(a != [], Panic);
      Ok(Holder(StartNonce(a), list))
    else
      Ok(Holder(h.nonce, list))
  }

  /** An account's storage for one token. */
  class Account {
    var nonceData: bytes
    var roleList: seq<bytes>

    /** `getLatestNonce` */
    function LatestNonce(): uint64
      reads this
    {
      if nonceData == [] then 0 else U64(SetBytes(nonceData))
    }

    function AsHolder(): Holder
      reads this
    {
      Holder(LatestNonce(), roleList)
    }

    /** `saveLatestNonce` */
    method SaveLatestNonce(nonce: uint64)
      modifies this`nonceData
      ensures AsHolder() == old(AsHolder()).(nonce := nonce)
    {
      nonceData := ToBytes(nonce);
      SetBytesToBytes(nonce);
      U64Identity(nonce);
    }

    method DeleteCreateRole()
      modifies this`roleList
      ensures AsHolder() == old(AsHolder()).(roles := RemoveEach(old(roleList), [NFT_CREATE]))
    {
      var roles := new RoleList(roleList);
      roles.DeleteRoles([NFT_CREATE]);
      roleList := roles.Contents();
    }

    method AddCreateRole()
      modifies this`roleList
      ensures AsHolder() == Endowed(old(AsHolder()), old(AsHolder()).nonce)
    {
      var roles := new RoleList(roleList);
      for i := 0 to roles.len
        invariant roles.Valid() && roles.Contents() == roleList && roleList == old(roleList)
        invariant NFT_CREATE !in roleList[..i]
      {
        if roles.data[i] == NFT_CREATE {
          assert roleList[i] == NFT_CREATE;
          return;
        }
      }
      assert roleList[..roles.len] == roleList;
      roles.Append(NFT_CREATE);
      roleList := roles.Contents();
    }

    /** The first half of a handover; returns the nonce that goes on. */
    method Surrender() returns (nonce: uint64)
      modifies this
      ensures nonce == old(LatestNonce()) && AsHolder() == Surrendered(old(AsHolder()))
    {
      nonce := LatestNonce();
      SaveLatestNonce(0);
      DeleteCreateRole();
    }

    /** The second half of a handover. */
    method Endow(nonce: uint64)
      modifies this
      ensures AsHolder() == Endowed(old(AsHolder()), nonce)
    {
      SaveLatestNonce(nonce);
      AddCreateRole();
    }

    /** The list after setting or unsetting. */
    method ChangedList(set_: bool, names: seq<bytes>) returns (list: seq<bytes>)
      ensures list == if set_ then roleList + names else RemoveEach(roleList, names)
    {
      var roles := new RoleList(roleList);
      if set_ {
        for i := 0 to |names|
          invariant roles.Valid() && roles.Contents() == roleList + names[..i]
        {
          roles.Append(names[i]);
        }
        assert names[..|names|] == names;
      } else {
        roles.DeleteRoles(names);
      }
      list := roles.Contents();
    }

    /** `dcdtRoles.ProcessBuiltinFunction` */
    method ChangeRoles(a: Addr, set_: bool, names: seq<bytes>) returns (r: Result<()>)
      modifies this
      ensures match RolesChanged(old(AsHolder()), a, set_, names)
              case Ok(h) => r.Ok? && AsHolder() == h
              case Err(e) => r == Err(e)
    {
      var list := ChangedList(set_, names);
      var named := false;
      for i := 0 to |names|
        invariant !named && MULTI_SHARD !in names[..i]
      {
        if names[i] == MULTI_SHARD {
          named := true;
          break;
        }
      }
      assert named <==> MULTI_SHARD in names by {
        assert names[..|names|] == names;
      }
      if named {
        if a == [] {
          return Err(Panic);
        }
        SaveLatestNonce(StartNonce(a));
      }
      roleList := list;
      return Ok(());
    }
  }

  /** Setting appends the roles named; unsetting takes each away once, as often as it is named and listed, and
      leaves all others. The nonce stays unless the multi-shard role is named, which starts it at the range of
      the account's last byte either way. */
  lemma RolesChangedExactly(h: Holder, a: Addr, set_: bool, roles: seq<bytes>)
    ensures RolesChanged(h, a, set_, roles).Err? <==> MULTI_SHARD in roles && a == []
    ensures RolesChanged(h, a, set_, roles).Ok? ==>
              var h1 := RolesChanged(h, a, set_, roles).value;
              && (set_ ==> h1.roles == h.roles + roles)
              && (!set_ ==> multiset(h1.roles) == multiset(h.roles) - multiset(roles))
              && (forall r :: r !in roles ==> (r in h1.roles <==> r in h.roles))
              && h1.nonce == if MULTI_SHARD in roles then RANGE * a[|a| - 1] else h.nonce
  {
    if RolesChanged(h, a, set_, roles).Ok? {
      var h1 := RolesChanged(h, a, set_, roles).value;
      RemoveEachCounts(h.roles, roles);
      forall r | r !in roles
        ensures r in h1.roles <==> r in h.roles
      {
        OtherRolesStay(h.roles, roles, r);
        assert r in h1.roles <==> r in multiset(h1.roles);
        assert r in h.roles <==> r in multiset(h.roles);
      }
    }
  }

  /** Unsetting what was set gives back the list, up to its order. */
  lemma UnsetUndoesSet(h: Holder, a: Addr, roles: seq<bytes>)
    requires a != []
    ensures RolesChanged(h, a, true, roles).Ok?
    ensures var set1 := RolesChanged(h, a, true, roles).value;
            && RolesChanged(set1, a, false, roles).Ok?
            && multiset(RolesChanged(set1, a, false, roles).value.roles) == multiset(h.roles)
  {
    RolesChangedExactly(h, a, true, roles);
    var set1 := RolesChanged(h, a, true, roles).value;
    RolesChangedExactly(set1, a, false, roles);
    assert multiset(h.roles + roles) == multiset(h.roles) + multiset(roles);
  }

  /** Receiving the same handover twice in a row is receiving it once. */
  lemma EndowIdempotent(h: Holder, nonce: uint64)
    ensures Endowed(Endowed(h, nonce), nonce) == Endowed(h, nonce)
  {
  }

  /** After surrendering, the old owner can still create exactly when it listed the role at least twice. */
  lemma SurrenderedStillCreates(h: Holder)
    ensures NFT_CREATE in Surrendered(h).roles <==> multiset(h.roles)[NFT_CREATE] >= 2
  {
    StillListed(h.roles, NFT_CREATE);
  }

  // ----- the network -----

  /** A handover message: its sender, which is the system contract that asked for it, its receiver and its
      text. */
  datatype HandMsg = HandMsg(src: Addr, dst: Addr, data: bytes)

  /** One nonce issued by one account for one token. */
  datatype Issue = Issue(creator: Slot, nonce: uint64)

  /** Holders by account and token, handover messages in flight, and all nonces issued so far. */
  datatype World = World(holders: map<Slot, Holder>, inflight: seq<HandMsg>, issued: seq<Issue>)

  const NO_HOLDER := Holder(0, [])

  function HolderAt(w: World, p: Slot): Holder {
    if p in w.holders then w.holders[p] else NO_HOLDER
  }

  function WithHolder(w: World, p: Slot, h: Holder): World {
    w.(holders := w.holders[p := h])
  }

  /** The nonce part of `dcdtNFTCreate`: the role is checked, the next nonce is used and saved. */
  function CreateNext(w: World, p: Slot): Result<World> {
    var h := HolderAt(w, p);
    var _ :- Need(NFT_CREATE in h.roles, ActionNotAllowed);
    var next := U64(h.nonce + 1);
    Ok(WithHolder(w, p, h.(nonce := next)).(issued := w.issued + [Issue(p, next)]))
  }

  function HandoverText(token: bytes, nonce: uint64): bytes {
    Print(CREATE_ROLE_TRANSFER, [token, ToBytes(nonce)])
  }

  /** `executeTransferNFTCreateChangeAtCurrentOwner` on the account `a`. The message goes out even when
      the next owner lives on the same shard and was served at once. */
  function AtCurrentOwner(cfg: Config, w: World, a: Addr, args: seq<bytes>): Result<World> {
    var _ :- Need(|args| == 2, InvalidArguments);
    var _ :- Need(|args[1]| == |cfg.dcdtSC|, InvalidArguments);
    var token, dst := args[0], args[1];
    var nonce := HolderAt(w, Slot(a, token)).nonce;
    var w1 := WithHolder(w, Slot(a, token), Surrendered(HolderAt(w, Slot(a, token))));
    var w2 := if cfg.shardOf(dst) == cfg.shardOf(a)
              then WithHolder(w1, Slot(dst, token), Endowed(HolderAt(w1, Slot(dst, token)), nonce))
              else w1;
    Ok(w2.(inflight := w.inflight + [HandMsg(cfg.dcdtSC, dst, HandoverText(token, nonce))]))
  }

  /** `executeTransferNFTCreateChangeAtNextOwner` on the account `a` */
  function AtNextOwner(w: World, a: Addr, args: seq<bytes>): Result<World> {
    var _ :- Need(|args| == 2, InvalidArguments);
    var p := Slot(a, args[0]);
    Ok(WithHolder(w, p, Endowed(HolderAt(w, p), U64(SetBytes(args[1])))))
  }

  /** `dcdtNFTCreateRoleTransfer.ProcessBuiltinFunction` on the account `a` */
  function CreateRoleTransfer(cfg: Config, w: World, a: Addr, caller: Addr, args: seq<bytes>): Result<World> {
    var _ :- Need(|args| >= 2, InvalidArguments);
    if caller == cfg.dcdtSC then AtCurrentOwner(cfg, w, a, args) else AtNextOwner(w, a, args)
  }

  datatype RoleStep =
    | Creating(at: Slot)
    | HandingOver(owner: Addr, args: seq<bytes>)
    | Arriving(index: nat, caller: Addr)
    | ChangingRoles(at: Slot, set_: bool, roles: seq<bytes>)

  function Outcome(cfg: Config, w: World, step: RoleStep): Result<World> {
    match step
    case Creating(p) => CreateNext(w, p)
    case HandingOver(a, args) => CreateRoleTransfer(cfg, w, a, cfg.dcdtSC, args)
    case Arriving(k, caller) =>
      var _ :- Need(k < |w.inflight|, InvalidRcvAddr);
      var (func, args) :- Parse(w.inflight[k].data);
      var w1 :- CreateRoleTransfer(cfg, w, w.inflight[k].dst, caller, args);
      Ok(w1.(inflight := w1.inflight[..k] + w1.inflight[k + 1..]))
    case ChangingRoles(p, set_, roles) =>
      var h :- RolesChanged(HolderAt(w, p), p.addr, set_, roles);
      Ok(WithHolder(w, p, h))
  }

  function Next(cfg: Config, w: World, step: RoleStep): World {
    match Outcome(cfg, w, step)
    case Ok(w1) => w1
    case Err(_) => w
  }

  function Run(cfg: Config, w: World, steps: seq<RoleStep>): World
    decreases |steps|
  {
    if steps == [] then w else Run(cfg, Next(cfg, w, steps[0]), steps[1..])
  }
}
