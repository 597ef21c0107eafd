// A deletion list as a caller writes it: which entries a call with these arguments removes.
module DeleteLists {
  import opened Bytes
  import opened Wrappers
  import opened TokenId
  import opened Ledger
  import opened DeleteMetadata

  /** Both ends belong to the interval. */
  datatype Interval = Interval(first: uint64, last: uint64)

  datatype Group = Group(token: bytes, intervals: seq<Interval>)

  function SpellIntervals(xs: seq<Interval>): (r: seq<bytes>)
    ensures |r| == 2 * |xs|
  {
    if xs == [] then [] else [ToBytes(xs[0].first), ToBytes(xs[0].last)] + SpellIntervals(xs[1..])
  }

  function SpellGroup(g: Group): seq<bytes> {
    [g.token, ToBytes(|g.intervals|)] + SpellIntervals(g.intervals)
  }

  /** The arguments: for each token its identifier, the number of its intervals, and the ends of each. */
  function Spell(groups: seq<Group>): seq<bytes> {
    if groups == [] then [] else SpellGroup(groups[0]) + Spell(groups[1..])
  }

  predicate ProperInterval(x: Interval) {
    0 < x.first <= x.last < MAX64
  }

  predicate Proper(g: Group) {
    ValidToken(g.token) && g.intervals != [] && forall k :: 0 <= k < |g.intervals| ==> ProperInterval(g.intervals[k])
  }

  function ListingsOf(token: bytes, xs: seq<Interval>): (r: seq<Listing>)
    ensures |r| == |xs|
    ensures forall k :: 0 <= k < |xs| ==> r[k] == Listing(token, xs[k].first, xs[k].last)
  {
    if xs == [] then [] else [Listing(token, xs[0].first, xs[0].last)] + ListingsOf(token, xs[1..])
  }

  function AllListings(groups: seq<Group>): seq<Listing> {
    if groups == [] then [] else ListingsOf(groups[0].token, groups[0].intervals) + AllListings(groups[1..])
  }

  lemma NumberRead(n: uint64)
    ensures U64(SetBytes(ToBytes(n))) == n
  {
    SetBytesToBytes(n);
    U64Identity(n);
  }

  lemma EndsRead(args: seq<bytes>, j: nat, x: Interval)
    requires j + 1 < |args| && args[j] == ToBytes(x.first) && args[j + 1] == ToBytes(x.last)
    ensures FirstOf(args, j) == x.first && LastOf(args, j) == x.last
  {
    NumberRead(x.first);
    NumberRead(x.last);
  }

  /** The intervals of one group are read as they were written. */
  lemma {:induction false} IntervalsRead(token: bytes, pre: seq<bytes>, xs: seq<Interval>, post: seq<bytes>)
    requires forall k :: 0 <= k < |xs| ==> ProperInterval(xs[k])
    ensures var args, j, end := pre + SpellIntervals(xs) + post, |pre|, |pre| + 2 * |xs|;
            && Intervals(token, args, j, end) == Ok(ListingsOf(token, xs))
            && IntervalsEnd(args, j, end)
    decreases |xs|
  {
    hide ToBytes, FirstOf, LastOf;
    if xs != [] {
      var two := [ToBytes(xs[0].first), ToBytes(xs[0].last)];
      var args := pre + SpellIntervals(xs) + post;
      assert args == (pre + two) + SpellIntervals(xs[1..]) + post;
      assert args[|pre|] == two[0] && args[|pre| + 1] == two[1];
      EndsRead(args, |pre|, xs[0]);
      IntervalsRead(token, pre + two, xs[1..], post);
    }
  }

  /** One group, wherever it stands. */
  lemma GroupRead(pre: seq<bytes>, g: Group, post: seq<bytes>)
    requires Proper(g) && |pre + SpellGroup(g) + post| < TWO64
    ensures var args, i := pre + SpellGroup(g) + post, |pre|;
            && i + 1 < |args| && WrittenEnd(args, i) == |pre + SpellGroup(g)|
            && GroupUpTo(args, i, WrittenEnd(args, i)) == Ok(ListingsOf(g.token, g.intervals))
            && GroupEnds(args, i)
  {
    hide Intervals, IntervalsEnd;
    var args, head := pre + SpellGroup(g) + post, [g.token, ToBytes(|g.intervals|)];
    assert args == (pre + head) + SpellIntervals(g.intervals) + post;
    assert args[|pre|] == g.token && args[|pre| + 1] == ToBytes(|g.intervals|);
    NumberRead(|g.intervals|);
    U64Identity(WrittenEnd(args, |pre|));
    IntervalsRead(g.token, pre + head, g.intervals, post);
  }

  lemma {:induction false} GroupsRead(pre: seq<bytes>, groups: seq<Group>)
    requires |pre + Spell(groups)| < TWO64 && forall k :: 0 <= k < |groups| ==> Proper(groups[k])
    ensures var args := pre + Spell(groups);
            Written(args, |pre|) == Ok(AllListings(groups)) && NoneWraps(args, |pre|)
    decreases |groups|
  {
    hide GroupUpTo, GroupEnds, SpellGroup, Proper, WrittenEnd;
    if groups == [] {
      assert pre + Spell(groups) == pre;
    } else {
      var one := SpellGroup(groups[0]);
      assert pre + Spell(groups) == pre + one + Spell(groups[1..]);
      GroupRead(pre, groups[0], Spell(groups[1..]));
      GroupsRead(pre + one, groups[1..]);
    }
  }

  /** Some group names this nonce of this token. */
  ghost predicate Deletes(groups: seq<Group>, token: bytes, n: nat) {
    exists i, k :: 0 <= i < |groups| && 0 <= k < |groups[i].intervals| && groups[i].token == token
                   && groups[i].intervals[k].first <= n <= groups[i].intervals[k].last
  }

  lemma {:induction false} NamesDeletes(groups: seq<Group>, token: bytes, n: nat)
    ensures Names(AllListings(groups), token, n) <==> Deletes(groups, token, n)
    decreases |groups|
  {
    if groups != [] {
      var one, rest := ListingsOf(groups[0].token, groups[0].intervals), AllListings(groups[1..]);
      NamesDeletes(groups[1..], token, n);
      NamesConcat(one, rest, token, n);
      DeletesCons(groups, token, n);
      assert Names(one, token, n) <==> Deletes(groups[..1], token, n) by {
        if Names(one, token, n) {
          var k :| 0 <= k < |one| && one[k].token == token && one[k].first <= n <= one[k].last;
          assert groups[..1][0].intervals[k].first <= n;
        }
      }
    }
  }

  lemma NamesConcat(a: seq<Listing>, b: seq<Listing>, token: bytes, n: nat)
    ensures Names(a + b, token, n) <==> Names(a, token, n) || Names(b, token, n)
  {
    assert forall k :: 0 <= k < |a| ==> (a + b)[k] == a[k];
    assert forall k :: 0 <= k < |b| ==> (a + b)[|a| + k] == b[k];
  }

  lemma DeletesCons(groups: seq<Group>, token: bytes, n: nat)
    requires groups != []
    ensures Deletes(groups, token, n) <==> Deletes(groups[..1], token, n) || Deletes(groups[1..], token, n)
  {
    assert forall i :: 0 < i < |groups| ==> groups[i] == groups[1..][i - 1];
    assert groups[..1][0] == groups[0];
    if Deletes(groups[1..], token, n) {
      var i, k :| 0 <= i < |groups[1..]| && 0 <= k < |groups[1..][i].intervals| && groups[1..][i].token == token
                  && groups[1..][i].intervals[k].first <= n <= groups[1..][i].intervals[k].last;
      assert groups[i + 1].intervals[k].first <= n;
    }
  }

  /** A list written out token by token: the call ends, and removes the entry of a nonce of a valid token if and only
      if a group of the list with this token has an interval with this nonce. */
  lemma DeletesAsSpelled(groups: seq<Group>, system: map<bytes, Token>, token: bytes, n: nat)
    requires groups != [] && forall k :: 0 <= k < |groups| ==> Proper(groups[k])
    requires |Spell(groups)| < MAX_SLICE && ValidToken(token)
    ensures var args := Spell(groups);
            && CallEnds(args) && Listed(args).Ok?
            && var left := system - KeysOf(Listed(args).value);
               && (KeyOf(token, n) in left <==> KeyOf(token, n) in system && !Deletes(groups, token, n))
               && (KeyOf(token, n) in left ==> left[KeyOf(token, n)] == system[KeyOf(token, n)])
  {
    var args := Spell(groups);
    assert [] + args == args;
    GroupsRead([], groups);
    assert |SpellGroup(groups[0])| >= 4 by { assert Proper(groups[0]); }
    hide Written, NoneWraps, CallEnds, Names, Deletes, KeyOf, KeysOf, Spell;
    ReadsAsWritten(args);
    RemovesExactlyListed(system, args, token, n);
    NamesDeletes(groups, token, n);
  }
}
