// Creators on several shards (dcdtRoles.go): each starts at a nonce computed from the last byte of its
// address, so that what they issue never meets.
module NonceRanges {
  import opened Bytes
  import opened Wrappers
  import opened Ledger
  import opened Roles
  import opened CreateRole
  import opened Handover

  /** What was issued by one account for one token. */
  function Times(issued: seq<Issue>, p: Slot): nat {
    if issued == [] then 0
    else Times(issued[..|issued| - 1], p) + if issued[|issued| - 1].creator == p then 1 else 0
  }

  /** The step gives the account its multi-shard role, or takes it: both restart its nonce. */
  predicate Grants(step: RoleStep, token: bytes) {
    step.ChangingRoles? && step.at.key == token && MULTI_SHARD in step.roles
  }

  /** Who was granted the multi-shard role for the token, after the step. */
  function GrantedBy(cfg: Config, w: World, step: RoleStep, granted: set<Addr>, token: bytes): set<Addr> {
    if Grants(step, token) && Outcome(cfg, w, step).Ok? then granted + {step.at.addr} else granted
  }

  /** Only granted accounts create, each is granted before its first creation, and the token's right is not
      handed over; whatever concerns other tokens, and all other roles, are free. */
  predicate Orderly(w: World, step: RoleStep, granted: set<Addr>, token: bytes) {
    match step
    case Creating(p) => p.key == token ==> p.addr in granted
    case HandingOver(_, args) => args != [] ==> args[0] != token
    case Arriving(_, _) => true
    case ChangingRoles(p, _, _) => Grants(step, token) ==> Times(w.issued, p) == 0
  }

  predicate OrderlyRun(cfg: Config, w: World, steps: seq<RoleStep>, granted: set<Addr>, token: bytes)
    decreases |steps|
  {
    steps != [] ==>
      && Orderly(w, steps[0], granted, token)
      && OrderlyRun(cfg, Next(cfg, w, steps[0]), steps[1..], GrantedBy(cfg, w, steps[0], granted, token), token)
  }

  /** Nothing was issued for the token yet, and no handover of it is in flight. */
  ghost predicate Unissued(w: World, token: bytes) {
    && (forall k :: 0 <= k < |w.issued| ==> w.issued[k].creator.key != token)
    && NoneInFlight(w, token)
  }

  ghost predicate NoneInFlight(w: World, token: bytes) {
    forall k :: 0 <= k < |w.inflight| ==> ArgsOf(w.inflight[k]) == [] || ArgsOf(w.inflight[k])[0] != token
  }

  /** The nonce after `times` creations. */
  function NthNonce(a: Addr, times: nat): uint64
    requires a != []
  {
    U64(StartNonce(a) + times)
  }

  lemma NextNonce(a: Addr, times: nat)
    requires a != []
    ensures U64(NthNonce(a, times) + 1) == NthNonce(a, times + 1)
  {
  }

  ghost predicate IssuedInOrder(issued: seq<Issue>, k: nat, granted: set<Addr>)
    requires [] !in granted && k < |issued|
  {
    && issued[k].creator.addr in granted
    && issued[k].nonce == NthNonce(issued[k].creator.addr, Times(issued[..k + 1], issued[k].creator))
  }

  /** Every granted account counts on from its start, and nobody else issued anything. */
  ghost predicate CountsOn(w: World, granted: set<Addr>, token: bytes) {
    && [] !in granted
    && NoneInFlight(w, token)
    && (forall a :: a in granted ==> NthNonce(a, Times(w.issued, Slot(a, token))) == HolderAt(w, Slot(a, token)).nonce)
    && (forall k :: 0 <= k < |w.issued| && w.issued[k].creator.key == token ==> IssuedInOrder(w.issued, k, granted))
  }

  lemma TimesSnoc(issued: seq<Issue>, x: Issue, p: Slot)
    ensures Times(issued + [x], p) == Times(issued, p) + if x.creator == p then 1 else 0
  {
    assert (issued + [x])[..|issued|] == issued;
  }

  lemma IssuedInOrderSnoc(issued: seq<Issue>, x: Issue, k: nat, granted: set<Addr>)
    requires [] !in granted && k < |issued| && IssuedInOrder(issued, k, granted)
    ensures IssuedInOrder(issued + [x], k, granted)
  {
    assert (issued + [x])[..k + 1] == issued[..k + 1];
  }

  lemma NewInOrder(issued: seq<Issue>, x: Issue, granted: set<Addr>)
    requires [] !in granted && x.creator.addr in granted
    requires x.nonce == NthNonce(x.creator.addr, Times(issued, x.creator) + 1)
    ensures IssuedInOrder(issued + [x], |issued|, granted)
  {
    TimesSnoc(issued, x, x.creator);
    assert (issued + [x])[..|issued| + 1] == issued + [x];
  }

  /** The new nonce is its creator's next. */
  lemma NextIssued(w: World, p: Slot, granted: set<Addr>, token: bytes)
    requires CountsOn(w, granted, token) && p.key == token && p.addr in granted
    ensures var x := Issue(p, U64(HolderAt(w, p).nonce + 1));
            IssuedInOrder(w.issued + [x], |w.issued|, granted)
  {
    assert p == Slot(p.addr, token);
    NextNonce(p.addr, Times(w.issued, p));
    NewInOrder(w.issued, Issue(p, U64(HolderAt(w, p).nonce + 1)), granted);
  }

  lemma CreatorsCount(w: World, w1: World, p: Slot, granted: set<Addr>, token: bytes, a: Addr)
    requires CountsOn(w, granted, token) && a in granted && CreateNext(w, p) == Ok(w1)
    ensures NthNonce(a, Times(w1.issued, Slot(a, token))) == HolderAt(w1, Slot(a, token)).nonce
  {
    TimesSnoc(w.issued, Issue(p, U64(HolderAt(w, p).nonce + 1)), Slot(a, token));
    NextNonce(a, Times(w.issued, Slot(a, token)));
  }

  lemma CreatingCounts(w: World, p: Slot, granted: set<Addr>, token: bytes)
    requires CountsOn(w, granted, token) && (p.key == token ==> p.addr in granted)
    requires CreateNext(w, p).Ok?
    ensures CountsOn(CreateNext(w, p).value, granted, token)
  {
    var w1, x := CreateNext(w, p).value, Issue(p, U64(HolderAt(w, p).nonce + 1));
    forall a | a in granted
      ensures NthNonce(a, Times(w1.issued, Slot(a, token))) == HolderAt(w1, Slot(a, token)).nonce
    {
      CreatorsCount(w, w1, p, granted, token, a);
    }
    forall k | 0 <= k < |w1.issued| && w1.issued[k].creator.key == token
      ensures IssuedInOrder(w1.issued, k, granted)
    {
      if k < |w.issued| {
        IssuedInOrderSnoc(w.issued, x, k, granted);
      } else {
        NextIssued(w, p, granted, token);
      }
    }
  }

  lemma SameHoldersCount(w: World, w1: World, granted: set<Addr>, token: bytes)
    requires CountsOn(w, granted, token) && SameHolders(w, w1, token) && NoneInFlight(w1, token)
    ensures CountsOn(w1, granted, token)
  {
  }

  /** A grant, as a step of the network: its account stands at the start of its range, whatever its nonce
      was before, and all others count on. */
  lemma GrantJoins(cfg: Config, w: World, step: RoleStep, granted: set<Addr>, token: bytes)
    requires CountsOn(w, granted, token) && Grants(step, token) && Times(w.issued, step.at) == 0
    requires Outcome(cfg, w, step).Ok?
    ensures CountsOn(Next(cfg, w, step), granted + {step.at.addr}, token)
  {
    var a, w1 := step.at.addr, Next(cfg, w, step);
    var more := granted + {a};
    assert step.at == Slot(a, token);
    U64Identity(StartNonce(a));
    forall k | 0 <= k < |w1.issued| && w1.issued[k].creator.key == token
      ensures IssuedInOrder(w1.issued, k, more)
    {
      assert IssuedInOrder(w.issued, k, granted);
    }
  }

  lemma ChangingCounts(cfg: Config, w: World, step: RoleStep, granted: set<Addr>, token: bytes)
    requires CountsOn(w, granted, token) && step.ChangingRoles? && !Grants(step, token)
    ensures CountsOn(Next(cfg, w, step), granted, token)
  {
  }

  /** A handover of another token leaves the holders of this one alone and sends no message about it. */
  lemma OwnerHandsOther(cfg: Config, w: World, a: Addr, args: seq<bytes>, token: bytes)
    requires NoneInFlight(w, token) && AtCurrentOwner(cfg, w, a, args).Ok? && args[0] != token
    ensures var w1 := AtCurrentOwner(cfg, w, a, args).value;
            SameHolders(w, w1, token) && NoneInFlight(w1, token)
  {
    var nonce := HolderAt(w, Slot(a, args[0])).nonce;
    TextParses(cfg.dcdtSC, args[1], args[0], nonce);
  }

  lemma HandingCounts(cfg: Config, w: World, a: Addr, args: seq<bytes>, granted: set<Addr>, token: bytes)
    requires CountsOn(w, granted, token) && (args != [] ==> args[0] != token)
    ensures CountsOn(Next(cfg, w, HandingOver(a, args)), granted, token)
  {
    if AtCurrentOwner(cfg, w, a, args).Ok? {
      OwnerHandsOther(cfg, w, a, args, token);
      SameHoldersCount(w, AtCurrentOwner(cfg, w, a, args).value, granted, token);
    }
  }

  /** The message is taken away after it was executed, in whoever's name. */
  lemma ArrivingCounts(cfg: Config, w: World, k: nat, caller: Addr, granted: set<Addr>, token: bytes)
    requires CountsOn(w, granted, token)
    ensures CountsOn(Next(cfg, w, Arriving(k, caller)), granted, token)
  {
    var w1 := Next(cfg, w, Arriving(k, caller));
    if Outcome(cfg, w, Arriving(k, caller)).Ok? {
      var args, dst := ArgsOf(w.inflight[k]), w.inflight[k].dst;
      if caller == cfg.dcdtSC {
        OwnerHandsOther(cfg, w, dst, args, token);
      }
      SameHoldersCount(w, w1, granted, token);
    }
  }

  lemma StepCounts(cfg: Config, w: World, step: RoleStep, granted: set<Addr>, token: bytes)
    requires CountsOn(w, granted, token) && Orderly(w, step, granted, token)
    ensures CountsOn(Next(cfg, w, step), GrantedBy(cfg, w, step, granted, token), token)
  {
    match step
    case Creating(p) =>
      if CreateNext(w, p).Ok? {
        CreatingCounts(w, p, granted, token);
      }
    case HandingOver(a, args) => HandingCounts(cfg, w, a, args, granted, token);
    case Arriving(k, caller) => ArrivingCounts(cfg, w, k, caller, granted, token);
    case ChangingRoles(_, _, _) =>
      if !Grants(step, token) {
        ChangingCounts(cfg, w, step, granted, token);
      } else if Outcome(cfg, w, step).Ok? {
        GrantJoins(cfg, w, step, granted, token);
      }
  }

  lemma {:induction false} RunCounts(cfg: Config, w: World, steps: seq<RoleStep>, granted: set<Addr>, token: bytes)
    returns (all: set<Addr>)
    requires CountsOn(w, granted, token) && OrderlyRun(cfg, w, steps, granted, token)
    ensures CountsOn(Run(cfg, w, steps), all, token)
    decreases |steps|
  {
    all := granted;
    if steps != [] {
      StepCounts(cfg, w, steps[0], granted, token);
      all := RunCounts(cfg, Next(cfg, w, steps[0]), steps[1..], GrantedBy(cfg, w, steps[0], granted, token), token);
    }
  }

  lemma {:induction false} TimesGrow(issued: seq<Issue>, j: nat, k: nat, p: Slot)
    requires j <= k <= |issued|
    ensures Times(issued[..j], p) <= Times(issued[..k], p)
    decreases k
  {
    if j < k {
      TimesGrow(issued, j, k - 1, p);
      assert issued[..k][..k - 1] == issued[..k - 1];
    }
  }

  lemma LaterIsMore(issued: seq<Issue>, j: nat, k: nat)
    requires j < k < |issued| && issued[j].creator == issued[k].creator
    ensures 0 < Times(issued[..j + 1], issued[j].creator) < Times(issued[..k + 1], issued[k].creator)
  {
    var p := issued[j].creator;
    TimesGrow(issued, j + 1, k, p);
    assert issued[..k + 1][..k] == issued[..k];
    assert issued[..j + 1][..j] == issued[..j];
  }

  /** Within their ranges the nonces of two starts never meet, and none wraps. */
  lemma RangesApart(b: byte, c: byte, m: nat, n: nat)
    requires 0 < m <= RANGE && 0 < n <= RANGE
    ensures 0 < RANGE * b + m < TWO64
    ensures RANGE * b + m == RANGE * c + n <==> b == c && m == n
  {
    if b < c {
      assert RANGE * b + RANGE <= RANGE * c;
    } else if c < b {
      assert RANGE * c + RANGE <= RANGE * b;
    }
  }

  /** The bound cannot be raised: one more creation meets the first nonce of the next last byte. */
  lemma RangeTight(a: Addr, b: Addr, c: int)
    requires a != [] && b != [] && c == a[|a| - 1] && c + 1 == b[|b| - 1]
    ensures NthNonce(a, RANGE + 1) == NthNonce(b, 1)
  {
    assert StartNonce(a) + (RANGE + 1) == StartNonce(b) + 1;
  }

  lemma NthNonceExact(a: Addr, times: nat)
    requires a != [] && 0 < times <= RANGE
    ensures NthNonce(a, times) == RANGE * a[|a| - 1] + times
  {
    RangesApart(a[|a| - 1], a[|a| - 1], times, times);
    U64Identity(StartNonce(a) + times);
  }

  lemma NthNoncesDiffer(a: Addr, b: Addr, m: nat, n: nat)
    requires a != [] && b != [] && 0 < m <= RANGE && 0 < n <= RANGE
    requires a[|a| - 1] != b[|b| - 1] || m != n
    ensures 0 < NthNonce(a, m) && 0 < NthNonce(b, n) && NthNonce(a, m) != NthNonce(b, n)
  {
    NthNonceExact(a, m);
    NthNonceExact(b, n);
    RangesApart(a[|a| - 1], b[|b| - 1], m, n);
  }

  /** No account creates more often than its range is long. */
  ghost predicate WithinRanges(issued: seq<Issue>, token: bytes) {
    forall p: Slot :: p.key == token ==> Times(issued, p) <= RANGE
  }

  lemma InRange(issued: seq<Issue>, k: nat)
    requires k < |issued| && WithinRanges(issued, issued[k].creator.key)
    ensures 0 < Times(issued[..k + 1], issued[k].creator) <= RANGE
  {
    TimesGrow(issued, k + 1, |issued|, issued[k].creator);
    assert issued[..|issued|] == issued;
    assert issued[..k + 1][..k] == issued[..k];
  }

  /** Different accounts that created have different last address bytes. */
  ghost predicate LastBytesDiffer(issued: seq<Issue>, token: bytes) {
    forall j, k | 0 <= j < k < |issued| && issued[j].creator.key == token == issued[k].creator.key ::
      issued[j].creator != issued[k].creator ==> !SameLastByte(issued[j].creator.addr, issued[k].creator.addr)
  }

  predicate SameLastByte(a: Addr, b: Addr) {
    a != [] && b != [] && a[|a| - 1] == b[|b| - 1]
  }

  lemma IssuedDiffer(issued: seq<Issue>, granted: set<Addr>, token: bytes, j: nat, k: nat)
    requires [] !in granted && LastBytesDiffer(issued, token) && WithinRanges(issued, token) && j < k < |issued|
    requires issued[j].creator.key == token == issued[k].creator.key
    requires IssuedInOrder(issued, j, granted) && IssuedInOrder(issued, k, granted)
    ensures issued[j].nonce != issued[k].nonce
  {
    var p, q := issued[j].creator, issued[k].creator;
    InRange(issued, j);
    InRange(issued, k);
    if p == q {
      LaterIsMore(issued, j, k);
    }
    NthNoncesDiffer(p.addr, q.addr, Times(issued[..j + 1], p), Times(issued[..k + 1], q));
  }

  /** From a state in which nothing was issued for the token, over every run in which accounts are granted
      the multi-shard role at any time before they first create, and other tokens and roles go their way:
      every nonce issued is the integer sum of its creator's start and the number of its creations, so that
      none wraps, and none is issued twice, if creators differ in the last byte of their addresses and no
      one creates more than 2^56 - 1 times. */
  lemma NoncesNeverMeet(cfg: Config, w: World, steps: seq<RoleStep>, token: bytes, j: nat)
    requires Unissued(w, token) && OrderlyRun(cfg, w, steps, {}, token)
    requires WithinRanges(Run(cfg, w, steps).issued, token)
    requires j < |Run(cfg, w, steps).issued| && Run(cfg, w, steps).issued[j].creator.key == token
    ensures var issued := Run(cfg, w, steps).issued;
            var p := issued[j].creator;
            && p.addr != []
            && issued[j].nonce == StartNonce(p.addr) + Times(issued[..j + 1], p) < TWO64
            && 0 < Times(issued[..j + 1], p) <= RANGE
            && (LastBytesDiffer(issued, token) ==>
                  forall k :: 0 <= k < |issued| && k != j && issued[k].creator.key == token ==>
                    issued[k].nonce != issued[j].nonce)
  {
    hide Run, OrderlyRun, Times;
    var granted := RunCounts(cfg, w, steps, {}, token);
    var issued := Run(cfg, w, steps).issued;
    var p := issued[j].creator;
    assert IssuedInOrder(issued, j, granted);
    InRange(issued, j);
    NthNonceExact(p.addr, Times(issued[..j + 1], p));
    if LastBytesDiffer(issued, token) {
      forall k | 0 <= k < |issued| && k != j && issued[k].creator.key == token
        ensures issued[k].nonce != issued[j].nonce
      {
        assert IssuedInOrder(issued, k, granted);
        IssuedDiffer(issued, granted, token, if j < k then j else k, if j < k then k else j);
      }
    }
  }

  /** Naming the multi-shard role leaves the right to create alone and restarts the nonce. */
  lemma Restarts(h: Holder, a: Addr, set_: bool)
    requires a != [] && NFT_CREATE in h.roles
    ensures var r := RolesChanged(h, a, set_, [MULTI_SHARD]);
            r.Ok? && r.value.nonce == StartNonce(a) && NFT_CREATE in r.value.roles
  {
    assert |MULTI_SHARD| != |NFT_CREATE|;
    OtherRolesStay(h.roles, [MULTI_SHARD], NFT_CREATE);
    assert multiset(RemoveEach(h.roles, [MULTI_SHARD]))[NFT_CREATE] > 0;
  }

  /** Why the role has to come before the first creation: whether it is set again or taken away later, the
      nonce restarts and the creator issues its first nonce once more. */
  lemma RegrantRepeats(cfg: Config, w: World, p: Slot, set_: bool)
    requires p.addr != [] && NFT_CREATE in HolderAt(w, p).roles
    ensures var grant := ChangingRoles(p, set_, [MULTI_SHARD]);
            var issued := Run(cfg, w, [grant, Creating(p), grant, Creating(p)]).issued;
            |issued| == |w.issued| + 2 && issued[|w.issued|] == issued[|w.issued| + 1]
  {
    var grant, start := ChangingRoles(p, set_, [MULTI_SHARD]), StartNonce(p.addr);
    var w1 := Next(cfg, w, grant);
    Restarts(HolderAt(w, p), p.addr, set_);
    CreatesNext(cfg, w1, p, start);
    var w2 := Next(cfg, w1, Creating(p));
    Restarts(HolderAt(w2, p), p.addr, set_);
    CreatesNext(cfg, Next(cfg, w2, grant), p, start);
    RunFour(cfg, w, grant, Creating(p), grant, Creating(p));
  }
}
