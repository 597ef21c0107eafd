// output.go: renumbering the transfers of successive outputs. Indices are uint32 and wrap; an output's
// accounts are visited in no particular order.
module Reindex {
  import opened Bytes
  import opened Wrappers

  const TWO32 := 0x1_0000_0000

  type uint32 = n: int | 0 <= n < TWO32

  function U32(n: int): uint32 {
    n % TWO32
  }

  /** `vmcommon.OutputTransfer`: its index and everything else. */
  datatype Transfer = Transfer(index: uint32, rest: bytes)

  /** The transfers of an output by account. */
  type Transfers = map<bytes, seq<Transfer>>

  /** Position `j` in the list of account `k`. */
  predicate At(o: Transfers, k: bytes, j: int) {
    k in o && 0 <= j < |o[k]|
  }

  // ----- largest index -----

  ghost predicate Bounds(o: Transfers, m: nat) {
    forall k, j :: At(o, k, j) ==> o[k][j].index <= m
  }

  /** `m` is the largest index, or zero when there is no transfer. */
  ghost predicate IsMax(o: Transfers, m: nat) {
    Bounds(o, m) && (m == 0 || exists k, j :: At(o, k, j) && o[k][j].index == m)
  }

  ghost predicate AllIndexed(o: Transfers) {
    forall k, j :: At(o, k, j) ==> o[k][j].index > 0
  }

  // ----- the code -----

  class OutputAccount {
    const transfers: array<Transfer>

    constructor (transfers: array<Transfer>)
      ensures this.transfers == transfers
    {
      this.transfers := transfers;
    }
  }

  class IndexProvider {
    var crtIndex: uint32
  }

  function ShiftedOne(t: Transfer, by_: uint32): Transfer {
    t.(index := U32(t.index + by_))
  }

  function ShiftedList(list: seq<Transfer>, by_: uint32): (r: seq<Transfer>)
    ensures |r| == |list|
  {
    seq(|list|, j requires 0 <= j < |list| => ShiftedOne(list[j], by_))
  }

  function Shifted(o: Transfers, by_: uint32): (r: Transfers)
    ensures r.Keys == o.Keys
  {
    map k | k in o :: ShiftedList(o[k], by_)
  }

  /** `o` with the keys outside `todo` shifted. */
  function PartlyShifted(o: Transfers, todo: set<bytes>, by_: uint32): Transfers {
    map k | k in o :: if k in todo then o[k] else ShiftedList(o[k], by_)
  }

  class VMOutput {
    var accounts: map<bytes, OutputAccount>

    function Arrays(): set<array<Transfer>>
      reads this
    {
      set k | k in accounts :: accounts[k].transfers
    }

    /** No two accounts share a list. */
    ghost predicate Valid()
      reads this
    {
      forall k, l :: k in accounts && l in accounts && k != l ==> accounts[k].transfers != accounts[l].transfers
    }

    ghost function Contents(): (o: Transfers)
      reads this, Arrays()
      ensures o.Keys == accounts.Keys
    {
      map k | k in accounts :: accounts[k].transfers[..]
    }

    /** `GetNextAvailableOutputTransferIndex` */
    method NextAvailable() returns (r: uint32)
      ensures exists m: nat :: IsMax(Contents(), m) && r == U32(m + 1)
    {
      ghost var o := Contents();
      var max: uint32 := 0;
      var todo := accounts.Keys;
      while todo != {}
        invariant todo <= accounts.Keys
        invariant forall k, j :: At(o, k, j) && k !in todo ==> o[k][j].index <= max
        invariant max == 0 || exists k, j :: At(o, k, j) && o[k][j].index == max
      {
        var k: bytes :| k in todo;
        var list := accounts[k].transfers;
        for i := 0 to list.Length
          invariant forall j :: 0 <= j < i ==> o[k][j].index <= max
          invariant forall l, j :: At(o, l, j) && l !in todo ==> o[l][j].index <= max
          invariant max == 0 || exists l, j :: At(o, l, j) && o[l][j].index == max
        {
          assert At(o, k, i) && list[i] == o[k][i];
          if list[i].index > max {
            max := list[i].index;
          }
        }
        todo := todo - {k};
      }
      assert IsMax(o, max);
      r := U32(max + 1);
    }

    /** Renumbers one account's list in place. */
    method ReindexAccount(list: array<Transfer>, by_: uint32) returns (r: Result<()>)
      modifies list
      ensures (forall j :: 0 <= j < list.Length ==> old(list[j]).index > 0) ==>
                r.Ok? && list[..] == ShiftedList(old(list[..]), by_)
      ensures (exists j :: 0 <= j < list.Length && old(list[j]).index == 0) ==> r == Err(TransfersNotIndexed)
    {
      for i := 0 to list.Length
        invariant forall j :: 0 <= j < i ==> old(list[j]).index > 0 && list[j] == ShiftedOne(old(list[j]), by_)
        invariant forall j :: i <= j < list.Length ==> list[j] == old(list[j])
      {
        if list[i].index == 0 {
          return Err(TransfersNotIndexed);
        }
        list[i] := list[i].(index := U32(list[i].index + by_));
      }
      return Ok(());
    }

    /** One account, seen from the whole output. */
    method ReindexKey(k: bytes, by_: uint32) returns (r: Result<()>)
      requires Valid() && k in accounts
      modifies accounts[k].transfers
      ensures ListIndexed(old(Contents())[k]) ==>
                r.Ok? && Contents() == old(Contents())[k := ShiftedList(old(Contents())[k], by_)]
      ensures !ListIndexed(old(Contents())[k]) ==> r == Err(TransfersNotIndexed)
    {
      ghost var before := Contents();
      var list := accounts[k].transfers;
      assert list[..] == before[k];
      r := ReindexAccount(list, by_);
      if r.Ok? {
        assert Contents()[k] == list[..];
        forall l | l in accounts && l != k
          ensures Contents()[l] == before[l]
        {
          assert accounts[l].transfers != list;
        }
      }
    }

    /** The loop over the accounts. */
    method ReindexAll(by_: uint32) returns (r: Result<()>, reindexed: bool)
      requires Valid()
      modifies Arrays()
      ensures r == Need(AllIndexed(old(Contents())), TransfersNotIndexed)
      ensures r.Ok? ==> Contents() == Shifted(old(Contents()), by_) && (reindexed <==> HasTransfer(old(Contents()), {}))
    {
      ghost var o := Contents();
      reindexed := false;
      var todo := accounts.Keys;
      PartlyNothing(o, by_);
      while todo != {}
        invariant todo <= o.Keys
        invariant Contents() == PartlyShifted(o, todo, by_)
        invariant forall k :: k in o && k !in todo ==> ListIndexed(o[k])
        invariant reindexed <==> HasTransfer(o, todo)
      {
        var k: bytes :| k in todo;
        assert Contents()[k] == o[k];
        assert accounts[k].transfers.Length == |Contents()[k]|;
        r := ReindexKey(k, by_);
        if r.Err? {
          NotAllIndexed(o, k);
          return;
        }
        HasTransferStep(o, todo, k);
        if accounts[k].transfers.Length > 0 {
          reindexed := true;
        }
        PartlyStep(o, todo, k, by_);
        todo := todo - {k};
      }
      PartlyAll(o, by_);
      r := Ok(());
    }

    /** `ReindexTransfers` */
    method ReindexTransfers(provider: IndexProvider) returns (r: Result<()>)
      requires Valid()
      modifies provider, Arrays()
      ensures r == Need(AllIndexed(old(Contents())), TransfersNotIndexed)
      ensures r.Ok? ==> Reindexed(old(Contents()), old(provider.crtIndex), Contents(), provider.crtIndex)
    {
      hide Shifted, IsMax, AllIndexed;
      ghost var o := Contents();
      var reindexed;
      r, reindexed := ReindexAll(U32(provider.crtIndex - 1));
      if r.Ok? && reindexed {
        provider.crtIndex := NextAvailable();
      }
    }
  }

  /** What a successful renumbering makes of an output and of the provider's next index. */
  ghost predicate Reindexed(o: Transfers, crt: uint32, o1: Transfers, crt1: uint32) {
    && o1 == Shifted(o, U32(crt - 1))
    && if HasTransfer(o, {}) then exists m: nat :: IsMax(o1, m) && crt1 == U32(m + 1) else crt1 == crt
  }

  // ----- helpers of the loop -----

  ghost predicate ListIndexed(list: seq<Transfer>) {
    forall j :: 0 <= j < |list| ==> list[j].index > 0
  }

  /** Some account outside `todo` has a transfer. */
  ghost predicate HasTransfer(o: Transfers, todo: set<bytes>) {
    exists k :: k in o && k !in todo && o[k] != []
  }

  lemma HasTransferStep(o: Transfers, todo: set<bytes>, k: bytes)
    requires k in todo && k in o
    ensures HasTransfer(o, todo - {k}) <==> HasTransfer(o, todo) || o[k] != []
  {
    if HasTransfer(o, todo) {
      var l :| l in o && l !in todo && o[l] != [];
      assert l !in todo - {k};
    }
    if o[k] != [] {
      assert k !in todo - {k};
    }
  }

  lemma NotAllIndexed(o: Transfers, k: bytes)
    requires k in o && !ListIndexed(o[k])
    ensures !AllIndexed(o)
  {
    var j :| 0 <= j < |o[k]| && o[k][j].index == 0;
    assert At(o, k, j);
  }

  lemma PartlyNothing(o: Transfers, by_: uint32)
    ensures PartlyShifted(o, o.Keys, by_) == o
    ensures !HasTransfer(o, o.Keys)
  {
  }

  lemma PartlyAll(o: Transfers, by_: uint32)
    ensures PartlyShifted(o, {}, by_) == Shifted(o, by_)
    ensures (forall k :: k in o ==> ListIndexed(o[k])) ==> AllIndexed(o)
  {
  }

  lemma PartlyStep(o: Transfers, todo: set<bytes>, k: bytes, by_: uint32)
    requires k in todo && k in o
    ensures PartlyShifted(o, todo, by_)[k := ShiftedList(o[k], by_)] == PartlyShifted(o, todo - {k}, by_)
  {
  }

  // ----- successive outputs -----

  /** Positive indices, different within the output, that fit above the provider's index. */
  ghost predicate Fits(o: Transfers, crt: uint32) {
    && AllIndexed(o)
    && (forall k, j, l, i :: At(o, k, j) && At(o, l, i) && o[k][j].index == o[l][i].index ==> k == l && j == i)
    && (forall k, j :: At(o, k, j) ==> o[k][j].index + crt < TWO32)
  }

  /** Every index handed out lies from `low` up to below `high`. */
  ghost predicate Within(o: Transfers, low: int, high: int) {
    forall k, j :: At(o, k, j) ==> low <= o[k][j].index < high
  }

  lemma ShiftExact(o: Transfers, crt: uint32, k: bytes, j: int)
    requires crt >= 1 && Fits(o, crt) && At(o, k, j)
    ensures var o1 := Shifted(o, U32(crt - 1)); At(o1, k, j) && o1[k][j].index == o[k][j].index + crt - 1
  {
    assert o[k][j].index + crt < TWO32;
  }

  /** The order inside an output stays. */
  lemma OrderStays(o: Transfers, crt: uint32, o1: Transfers, k: bytes, j: int, l: bytes, i: int)
    requires crt >= 1 && Fits(o, crt) && o1 == Shifted(o, U32(crt - 1)) && At(o, k, j) && At(o, l, i)
    ensures At(o1, k, j) && At(o1, l, i) && (o[k][j].index < o[l][i].index <==> o1[k][j].index < o1[l][i].index)
  {
    ShiftExact(o, crt, k, j);
    ShiftExact(o, crt, l, i);
  }

  /** One renumbering: all its indices lie between the provider's old and new index. */
  lemma ReindexedWithin(o: Transfers, crt: uint32, o1: Transfers, crt1: uint32)
    requires crt >= 1 && Fits(o, crt) && Reindexed(o, crt, o1, crt1)
    ensures crt1 >= crt && Within(o1, crt, crt1)
  {
    forall k, j | At(o1, k, j)
      ensures At(o, k, j) && o1[k][j].index == o[k][j].index + crt - 1 >= crt
    {
      assert At(o, k, j);
      ShiftExact(o, crt, k, j);
    }
    if HasTransfer(o, {}) {
      var m: nat :| IsMax(o1, m) && crt1 == U32(m + 1);
      MaxFits(o, crt, o1, m);
      var k :| k in o && o[k] != [];
      assert At(o1, k, 0);
    } else {
      assert forall k, j :: !At(o1, k, j);
    }
  }

  lemma MaxFits(o: Transfers, crt: uint32, o1: Transfers, m: nat)
    requires crt >= 1 && Fits(o, crt) && o1 == Shifted(o, U32(crt - 1)) && IsMax(o1, m)
    ensures m + 1 < TWO32
  {
    if m > 0 {
      var k, j :| At(o1, k, j) && o1[k][j].index == m;
      assert At(o, k, j);
      ShiftExact(o, crt, k, j);
    }
  }

  /** The outputs and the provider's indices before and after each of a sequence of successful calls. */
  ghost predicate Chain(before: seq<Transfers>, after: seq<Transfers>, crts: seq<uint32>) {
    && |after| == |before| && |crts| == |before| + 1
    && crts[0] >= 1
    && forall n | 0 <= n < |before| ::
         Fits(before[n], crts[n]) && Reindexed(before[n], crts[n], after[n], crts[n + 1])
  }

  lemma {:induction false} CrtsGrow(before: seq<Transfers>, after: seq<Transfers>, crts: seq<uint32>, m: nat, n: nat)
    requires Chain(before, after, crts) && m <= n < |crts|
    ensures 1 <= crts[m] <= crts[n]
    decreases n
  {
    if n > 0 {
      CrtsGrow(before, after, crts, if m < n then m else n - 1, n - 1);
      ReindexedWithin(before[n - 1], crts[n - 1], after[n - 1], crts[n]);
    }
  }

  lemma SameOutput(o: Transfers, crt: uint32, o1: Transfers, crt1: uint32, k: bytes, j: int, l: bytes, i: int)
    requires crt >= 1 && Fits(o, crt) && Reindexed(o, crt, o1, crt1) && At(o1, k, j) && At(o1, l, i)
    ensures At(o, k, j) && At(o, l, i)
    ensures o1[k][j].index == o1[l][i].index <==> k == l && j == i
    ensures o[k][j].index < o[l][i].index <==> o1[k][j].index < o1[l][i].index
  {
    assert At(o, k, j) && At(o, l, i);
    OrderStays(o, crt, o1, k, j, l, i);
    OrderStays(o, crt, o1, l, i, k, j);
  }

  lemma IndexWithin(before: seq<Transfers>, after: seq<Transfers>, crts: seq<uint32>, m: nat, k: bytes, j: int)
    requires Chain(before, after, crts) && m < |after| && At(after[m], k, j)
    ensures At(before[m], k, j)
    ensures crts[m] <= after[m][k][j].index < crts[m + 1] <= crts[|crts| - 1]
  {
    CrtsGrow(before, after, crts, 0, m);
    CrtsGrow(before, after, crts, m + 1, |crts| - 1);
    ReindexedWithin(before[m], crts[m], after[m], crts[m + 1]);
  }

  lemma LaterOutput(
    before: seq<Transfers>, after: seq<Transfers>, crts: seq<uint32>, m: nat, k: bytes, j: int, n: nat, l: bytes,
    i: int)
    requires Chain(before, after, crts) && m < n < |after|
    requires At(after[m], k, j) && At(after[n], l, i)
    ensures after[m][k][j].index < after[n][l][i].index
  {
    IndexWithin(before, after, crts, m, k, j);
    IndexWithin(before, after, crts, n, l, i);
    CrtsGrow(before, after, crts, m + 1, n);
  }

  lemma InOneOutput(
    before: seq<Transfers>, after: seq<Transfers>, crts: seq<uint32>, m: nat, k: bytes, j: int, l: bytes, i: int)
    requires Chain(before, after, crts) && m < |after|
    requires At(after[m], k, j) && At(after[m], l, i)
    ensures At(before[m], k, j) && At(before[m], l, i)
    ensures after[m][k][j].index == after[m][l][i].index <==> k == l && j == i
    ensures before[m][k][j].index < before[m][l][i].index <==> after[m][k][j].index < after[m][l][i].index
  {
    CrtsGrow(before, after, crts, 0, m);
    SameOutput(before[m], crts[m], after[m], crts[m + 1], k, j, l, i);
  }

  /** Over any number of successive outputs: no index is handed out twice, the order inside every output is
      kept, and the provider ends above every index handed out. */
  lemma IndicesGloballyDistinct(
    before: seq<Transfers>, after: seq<Transfers>, crts: seq<uint32>, m: nat, k: bytes, j: int, n: nat, l: bytes,
    i: int)
    requires Chain(before, after, crts) && m <= n < |after|
    requires At(after[m], k, j) && At(after[n], l, i)
    ensures after[m][k][j].index == after[n][l][i].index <==> m == n && k == l && j == i
    ensures At(before[m], k, j) && At(before[n], l, i)
    ensures m == n ==> (before[m][k][j].index < before[m][l][i].index <==> after[m][k][j].index < after[m][l][i].index)
    ensures after[m][k][j].index < crts[|crts| - 1] && after[n][l][i].index < crts[|crts| - 1]
  {
    IndexWithin(before, after, crts, m, k, j);
    IndexWithin(before, after, crts, n, l, i);
    if m < n {
      LaterOutput(before, after, crts, m, k, j, n, l, i);
    } else {
      InOneOutput(before, after, crts, m, k, j, l, i);
    }
  }
}
