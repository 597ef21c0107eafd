// dcdtDeleteMetadata.go: removal of system entries by lists of tokens and nonce intervals. All counters
// are uint64 and wrap, so the loops end only for some arguments.
module DeleteMetadata {
  import opened Bytes
  import opened Wrappers
  import opened TokenId
  import opened Ledger
  import opened Storage
  import opened TxData

  const MAX64: uint64 := 0xFFFF_FFFF_FFFF_FFFF

  /** One interval of nonces of a token; both ends belong to it. */
  datatype Listing = Listing(token: bytes, first: uint64, last: uint64)

  // ----- what the arguments list -----

  function FirstOf(args: seq<bytes>, j: nat): uint64
    requires j + 1 < |args|
  {
    U64(SetBytes(args[j]))
  }

  function LastOf(args: seq<bytes>, j: nat): uint64
    requires j + 1 < |args|
  {
    U64(SetBytes(args[j + 1]))
  }

  function CheckInterval(first: uint64, last: uint64): Result<()> {
    var _ :- Need(last >= first, InvalidArguments);
    Need(first != 0, InvalidNonce)
  }

  /** The intervals of a token that the arguments from `j` up to `end` list. */
  function Intervals(token: bytes, args: seq<bytes>, j: nat, end: nat): Result<seq<Listing>>
    decreases end - j
  {
    if j >= end then
      Ok([])
    else
      var _ :- Need(j + 1 < |args|, InvalidNumOfArgs);
      var _ :- CheckInterval(FirstOf(args, j), LastOf(args, j));
      Prepend([Listing(token, FirstOf(args, j), LastOf(args, j))], Intervals(token, args, j + 2, end))
  }

  function NumIntervals(args: seq<bytes>, i: nat): uint64
    requires i + 1 < |args|
  {
    U64(SetBytes(args[i + 1]))
  }

  /** Where the group (token, number of intervals, intervals) at argument `i` ends, as it is written. */
  function WrittenEnd(args: seq<bytes>, i: nat): nat
    requires i + 1 < |args|
  {
    i + 2 + 2 * NumIntervals(args, i)
  }

  /** Where the code takes it to end and the next group to begin: the sum wraps. */
  function Behind(args: seq<bytes>, i: nat): uint64
    requires i + 1 < |args|
  {
    U64(WrittenEnd(args, i))
  }

  /** The intervals of the group at argument `i` that ends at `end`. */
  function GroupUpTo(args: seq<bytes>, i: nat, end: nat): Result<seq<Listing>>
    requires i + 1 < |args|
  {
    var _ :- Need(ValidToken(args[i]), InvalidTokenID);
    var _ :- Need(i + 2 < |args|, InvalidNumOfArgs);
    Intervals(args[i], args, i + 2, end)
  }

  function GroupAt(args: seq<bytes>, i: nat): Result<seq<Listing>>
    requires i + 1 < |args|
  {
    GroupUpTo(args, i, Behind(args, i))
  }

  /** The groups from argument `i` on, as they are written. */
  function Written(args: seq<bytes>, i: nat): Result<seq<Listing>>
    decreases |args| - i
  {
    if i + 1 >= |args| then
      Ok([])
    else
      var listed :- GroupUpTo(args, i, WrittenEnd(args, i));
      Prepend(listed, Written(args, WrittenEnd(args, i)))
  }

  // ----- when the loops end -----

  /** Every interval reached has an end below 2^64 - 1. */
  predicate IntervalsEnd(args: seq<bytes>, j: nat, end: nat)
    decreases end - j
  {
    j < end && j + 1 < |args| && CheckInterval(FirstOf(args, j), LastOf(args, j)).Ok? ==>
      LastOf(args, j) < MAX64 && IntervalsEnd(args, j + 2, end)
  }

  predicate GroupEnds(args: seq<bytes>, i: nat)
    requires i + 1 < |args|
  {
    ValidToken(args[i]) && i + 2 < |args| ==> IntervalsEnd(args, i + 2, Behind(args, i))
  }

  /** From the group at `i` on, the intervals of every group reached end, and no group is reached twice;
      `unseen` holds the places where no group was reached yet. */
  ghost predicate EndsFrom(args: seq<bytes>, i: nat, unseen: set<nat>)
    decreases unseen
  {
    i + 1 < |args| ==>
      && i in unseen
      && GroupEnds(args, i)
      && (GroupAt(args, i).Ok? ==> EndsFrom(args, Behind(args, i), unseen - {i}))
  }

  predicate IsPlace(args: seq<bytes>, i: nat) {
    i < |args|
  }

  ghost function Places(args: seq<bytes>): set<nat> {
    set i: nat | i < |args| && IsPlace(args, i)
  }

  /** What a caller can check before the call. */
  ghost predicate CallEnds(args: seq<bytes>) {
    |args| >= 4 ==> EndsFrom(args, 0, Places(args))
  }

  /** The groups the code reaches from argument `i` on. */
  ghost function Groups(args: seq<bytes>, i: nat, unseen: set<nat>): Result<seq<Listing>>
    requires EndsFrom(args, i, unseen)
    decreases unseen
  {
    if i + 1 >= |args| then
      Ok([])
    else
      var listed :- GroupAt(args, i);
      Prepend(listed, Groups(args, Behind(args, i), unseen - {i}))
  }

  /** What the arguments list, as the code reads them. */
  ghost function Listed(args: seq<bytes>): Result<seq<Listing>>
    requires CallEnds(args)
  {
    var _ :- Need(|args| >= 4, InvalidNumOfArgs);
    Groups(args, 0, Places(args))
  }

  // ----- keys -----

  /** The keys of the nonces in [first, end). */
  ghost function KeysBetween(token: bytes, first: nat, end: nat): set<bytes> {
    set n: nat | first <= n < end :: KeyOf(token, n)
  }

  ghost function KeysOf(listed: seq<Listing>): set<bytes> {
    if listed == [] then {}
    else KeysBetween(listed[0].token, listed[0].first, listed[0].last + 1) + KeysOf(listed[1..])
  }

  lemma {:induction false} KeysOfConcat(a: seq<Listing>, b: seq<Listing>)
    ensures KeysOf(a + b) == KeysOf(a) + KeysOf(b)
  {
    if a == [] {
      assert a + b == b;
    } else {
      KeysOfConcat(a[1..], b);
      assert (a + b)[1..] == a[1..] + b;
    }
  }

  // ----- the code -----

  /** `deleteMetadataForInterval` */
  method DeleteInterval(h: Handler, token: bytes, first: uint64, last: uint64) returns (r: Result<()>)
    requires CheckInterval(first, last).Ok? ==> last < MAX64
    modifies h`system
    ensures r == CheckInterval(first, last)
    ensures r.Ok? ==> h.system == old(h.system) - KeysBetween(token, first, last + 1)
  {
    if last < first {
      return Err(InvalidArguments);
    }
    if first == 0 {
      return Err(InvalidNonce);
    }
    var nonce := first;
    while nonce <= last
      invariant first <= nonce <= last + 1
      invariant h.system == old(h.system) - KeysBetween(token, first, nonce)
      decreases last + 1 - nonce
    {
      h.system := h.system - {KeyOf(token, nonce)};
      assert KeysBetween(token, first, nonce + 1) == KeysBetween(token, first, nonce) + {KeyOf(token, nonce)};
      nonce := U64(nonce + 1);
    }
    return Ok(());
  }

  lemma IntervalsStep(token: bytes, args: seq<bytes>, j: nat, end: nat, done: seq<Listing>)
    requires j < end
    ensures Prepend(done, Intervals(token, args, j, end)) ==
            if j + 1 >= |args| then Err(InvalidNumOfArgs)
            else if CheckInterval(FirstOf(args, j), LastOf(args, j)).Err?
            then Err(CheckInterval(FirstOf(args, j), LastOf(args, j)).error)
            else Prepend(done + [Listing(token, FirstOf(args, j), LastOf(args, j))], Intervals(token, args, j + 2, end))
  {
    if j + 1 < |args| {
      var one, rest := Listing(token, FirstOf(args, j), LastOf(args, j)), Intervals(token, args, j + 2, end);
      assert rest.Ok? ==> done + ([one] + rest.value) == done + [one] + rest.value;
    }
  }

  /** A Go slice has fewer than 2^63 entries. */
  const MAX_SLICE := 0x8000_0000_0000_0000

  /** Counters within the arguments do not wrap. */
  lemma NoWrap(args: seq<bytes>, j: nat)
    requires 4 <= |args| < MAX_SLICE && j <= |args|
    ensures U64(|args| - 2) == |args| - 2 && U64(j + 2) == j + 2
  {
    U64Identity(|args| - 2);
    U64Identity(j + 2);
  }

  /** Wrapping the product first changes nothing. */
  lemma BehindIs(i: nat, n: uint64)
    ensures U64(i + 2 + U64(n * 2)) == U64(i + 2 + 2 * n)
  {
    assert U64(n * 2) == if n < MAX_SLICE then 2 * n else 2 * n - TWO64;
  }

  /** `deleteMetadataForListIntervals`; `end` is where the counter stops. */
  method DeleteIntervals(h: Handler, token: bytes, args: seq<bytes>, index: uint64, n: uint64, ghost end: uint64)
    returns (r: Result<()>)
    requires 4 <= |args| < MAX_SLICE && index < |args| && end == U64(index + U64(n * 2))
    requires IntervalsEnd(args, index, end)
    modifies h`system
    ensures match Intervals(token, args, index, end)
            case Ok(listed) => r.Ok? && h.system == old(h.system) - KeysOf(listed)
            case Err(e) => r == Err(e)
  {
    hide CheckInterval;
    ghost var done: seq<Listing> := [];
    ghost var all := Intervals(token, args, index, end);
    var j := index;
    while j < U64(index + U64(n * 2))
      invariant j <= |args|
      invariant all == Prepend(done, Intervals(token, args, j, end))
      invariant IntervalsEnd(args, j, end)
      invariant h.system == old(h.system) - KeysOf(done)
    {
      NoWrap(args, j);
      IntervalsStep(token, args, j, end, done);
      if j > U64(|args| - 2) {
        return Err(InvalidNumOfArgs);
      }
      var one := Listing(token, FirstOf(args, j), LastOf(args, j));
      var _ :- DeleteInterval(h, token, one.first, one.last);
      KeysOfSnoc(done, one);
      done := done + [one];
      j := U64(j + 2);
    }
    assert done + [] == done;
    return Ok(());
  }

  lemma KeysOfSnoc(done: seq<Listing>, one: Listing)
    ensures KeysOf(done + [one]) == KeysOf(done) + KeysBetween(one.token, one.first, one.last + 1)
  {
    KeysOfConcat(done, [one]);
    assert [one][1..] == [];
  }

  lemma GroupsStep(args: seq<bytes>, i: nat, unseen: set<nat>, done: seq<Listing>)
    requires i + 1 < |args| && EndsFrom(args, i, unseen)
    ensures Prepend(done, Groups(args, i, unseen)) ==
            if GroupAt(args, i).Err? then Err(GroupAt(args, i).error)
            else Prepend(done + GroupAt(args, i).value, Groups(args, Behind(args, i), unseen - {i}))
  {
    var listed := GroupAt(args, i);
    if listed.Ok? {
      var rest := Groups(args, Behind(args, i), unseen - {i});
      assert rest.Ok? ==> done + (listed.value + rest.value) == done + listed.value + rest.value;
    }
  }

  /** One turn of the loop of `deleteMetadata`; `next` is where the next group begins. */
  method DeleteGroup(h: Handler, args: seq<bytes>, i: uint64) returns (r: Result<()>, next: uint64)
    requires 4 <= |args| < MAX_SLICE && i + 1 < |args| && GroupEnds(args, i)
    modifies h`system
    ensures match GroupAt(args, i)
            case Ok(listed) => r.Ok? && h.system == old(h.system) - KeysOf(listed)
            case Err(e) => r == Err(e)
    ensures r.Ok? ==> next == Behind(args, i)
  {
    var token, n: nat := args[i], U64(SetBytes(args[i + 1]));
    NoWrap(args, i);
    BehindIs(i, n);
    next := U64(i + 2);
    if !ValidToken(token) {
      return Err(InvalidTokenID), next;
    }
    if next >= |args| {
      return Err(InvalidNumOfArgs), next;
    }
    r := DeleteIntervals(h, token, args, next, n, Behind(args, i));
    next := U64(next + U64(n * 2));
  }

  lemma BehindEven(args: seq<bytes>, i: nat)
    requires i + 1 < |args| && i % 2 == 0
    ensures Behind(args, i) % 2 == 0
  {
    var n := WrittenEnd(args, i);
    assert n == n / TWO64 * TWO64 + U64(n);
  }

  /** The loop's test: an even counter is not the largest one. */
  lemma EvenCounter(i: uint64)
    requires i % 2 == 0
    ensures U64(i + 1) == i + 1
  {
    U64Identity(i + 1);
  }

  /** `deleteMetadata`, for all arguments for which it ends (see `EndsExactly`). */
  method DeleteAll(h: Handler, args: seq<bytes>) returns (r: Result<()>)
    requires |args| < MAX_SLICE && CallEnds(args)
    modifies h`system
    ensures match Listed(args)
            case Ok(listed) => r.Ok? && h.system == old(h.system) - KeysOf(listed)
            case Err(e) => r == Err(e)
  {
    if |args| < 4 {
      return Err(InvalidNumOfArgs);
    }
    ghost var done: seq<Listing>, unseen := [], Places(args);
    var i: uint64 := 0;
    while U64(i + 1) < |args|
      invariant i % 2 == 0 && EndsFrom(args, i, unseen)
      invariant Listed(args) == Prepend(done, Groups(args, i, unseen))
      invariant h.system == old(h.system) - KeysOf(done)
      decreases unseen
    {
      EvenCounter(i);
      GroupsStep(args, i, unseen, done);
      BehindEven(args, i);
      ghost var listed := GroupAt(args, i);
      var next;
      r, next := DeleteGroup(h, args, i);
      if r.Err? {
        return;
      }
      KeysOfConcat(done, listed.value);
      done, unseen := done + listed.value, unseen - {i};
      i := next;
    }
    EvenCounter(i);
    assert done + [] == done;
    return Ok(());
  }

  // ----- what was removed -----

  /** The list names this nonce of this token. */
  predicate Names(listed: seq<Listing>, token: bytes, n: nat) {
    exists k :: 0 <= k < |listed| && listed[k].token == token && listed[k].first <= n <= listed[k].last
  }

  lemma {:induction false} KeyListed(listed: seq<Listing>, token: bytes, n: nat)
    requires ValidToken(token) && forall k :: 0 <= k < |listed| ==> ValidToken(listed[k].token)
    ensures KeyOf(token, n) in KeysOf(listed) <==> Names(listed, token, n)
  {
    if listed != [] {
      var one := listed[0];
      KeyListed(listed[1..], token, n);
      if KeyOf(token, n) in KeysBetween(one.token, one.first, one.last + 1) {
        var m: nat :| one.first <= m <= one.last && KeyOf(token, n) == KeyOf(one.token, m);
        KeyInjective(token, n, one.token, m);
      }
      assert Names(listed, token, n) <==>
             (one.token == token && one.first <= n <= one.last) || Names(listed[1..], token, n) by {
        assert forall k :: 0 < k < |listed| ==> listed[k] == listed[1..][k - 1];
      }
    }
  }

  lemma {:induction false} ListedByIntervals(token: bytes, args: seq<bytes>, j: nat, end: nat)
    requires Intervals(token, args, j, end).Ok?
    ensures forall x :: x in Intervals(token, args, j, end).value ==> x.token == token && 0 < x.first <= x.last
    decreases end - j
  {
    if j < end {
      ListedByIntervals(token, args, j + 2, end);
    }
  }

  lemma {:induction false} ListedValid(args: seq<bytes>, i: nat, unseen: set<nat>)
    requires EndsFrom(args, i, unseen) && Groups(args, i, unseen).Ok?
    ensures forall x :: x in Groups(args, i, unseen).value ==> ValidToken(x.token) && 0 < x.first <= x.last
    decreases unseen
  {
    if i + 1 < |args| {
      ListedByIntervals(args[i], args, i + 2, Behind(args, i));
      ListedValid(args, Behind(args, i), unseen - {i});
    }
  }

  /** A successful deletion removes exactly the union of the listed intervals: the entry of a nonce of a
      valid token goes if and only if the list names it, and the collection's own key always stays. */
  lemma RemovesExactlyListed(system: map<bytes, Token>, args: seq<bytes>, token: bytes, n: nat)
    requires CallEnds(args) && Listed(args).Ok? && ValidToken(token)
    ensures var listed := Listed(args).value;
            var left := system - KeysOf(listed);
            && (KeyOf(token, n) in left <==> KeyOf(token, n) in system && !Names(listed, token, n))
            && (KeyOf(token, n) in left ==> left[KeyOf(token, n)] == system[KeyOf(token, n)])
            && !Names(listed, token, 0)
  {
    ListedValid(args, 0, Places(args));
    KeyListed(Listed(args).value, token, n);
  }

  // ----- arguments whose counters do not wrap -----

  /** For every group as written the end stays below 2^64 and the intervals end. */
  predicate NoneWraps(args: seq<bytes>, i: nat)
    decreases |args| - i
  {
    i + 1 < |args| ==>
      && WrittenEnd(args, i) < TWO64
      && GroupEnds(args, i)
      && (GroupUpTo(args, i, WrittenEnd(args, i)).Ok? ==> NoneWraps(args, WrittenEnd(args, i)))
  }

  lemma {:induction false} WrittenFrom(args: seq<bytes>, i: nat, unseen: set<nat>)
    requires NoneWraps(args, i) && forall k: nat :: i <= k < |args| ==> k in unseen
    ensures EndsFrom(args, i, unseen) && Groups(args, i, unseen) == Written(args, i)
    decreases |args| - i
  {
    if i + 1 < |args| {
      U64Identity(WrittenEnd(args, i));
      if GroupAt(args, i).Ok? {
        WrittenFrom(args, WrittenEnd(args, i), unseen - {i});
      }
    }
  }

  lemma {:induction false} IntervalsFit(token: bytes, args: seq<bytes>, j: nat, end: nat)
    requires j < end && Intervals(token, args, j, end).Ok?
    ensures end <= |args|
    decreases end - j
  {
    if j + 2 < end {
      IntervalsFit(token, args, j + 2, end);
    }
  }

  /** Where the code succeeds, the groups as written can be read only if no end wraps: a written end that
      wraps lies behind all arguments. */
  lemma {:induction false} WrittenOnlyUnwrapped(args: seq<bytes>, i: nat, unseen: set<nat>)
    requires |args| < MAX_SLICE && EndsFrom(args, i, unseen) && Groups(args, i, unseen).Ok?
    ensures Written(args, i).Ok? ==> NoneWraps(args, i)
    decreases unseen
  {
    if i + 1 < |args| {
      var end := WrittenEnd(args, i);
      U64Identity(end);
      if end < TWO64 {
        WrittenOnlyUnwrapped(args, end, unseen - {i});
      } else if Intervals(args[i], args, i + 2, end).Ok? {
        IntervalsFit(args[i], args, i + 2, end);
      }
    }
  }

  /** A call that ends with success removes what is written exactly when no group's end wraps; and arguments
      whose counters do not wrap are read as written in any case, errors included. */
  lemma ReadsAsWritten(args: seq<bytes>)
    requires 4 <= |args| < MAX_SLICE
    ensures NoneWraps(args, 0) ==> CallEnds(args) && Listed(args) == Written(args, 0)
    ensures CallEnds(args) && Listed(args).Ok? ==> (Listed(args) == Written(args, 0) <==> NoneWraps(args, 0))
  {
    if NoneWraps(args, 0) {
      WrittenFrom(args, 0, Places(args));
    } else if CallEnds(args) && Listed(args).Ok? {
      WrittenOnlyUnwrapped(args, 0, Places(args));
    }
  }

  // ----- the loops, turn by turn -----

  /** Where the three nested loops stand; nothing but the arguments decides how they go on. */
  datatype Loop =
    | Outer(i: nat)
    | Inner(j: nat, end: uint64)
    | Innermost(j: nat, end: uint64, nonce: uint64, last: uint64)
    | Ended

  /** One test of a loop with what follows it, up to the next test. An error ends the call. */
  function Turn(args: seq<bytes>, s: Loop): Loop {
    match s
    case Outer(i) =>
      if i + 1 >= |args| || !ValidToken(args[i]) || i + 2 >= |args| then Ended else Inner(i + 2, Behind(args, i))
    case Inner(j, end) =>
      if j >= end then Outer(end)
      else if j + 1 >= |args| || CheckInterval(FirstOf(args, j), LastOf(args, j)).Err? then Ended
      else Innermost(j, end, FirstOf(args, j), LastOf(args, j))
    case Innermost(j, end, nonce, last) =>
      if nonce <= last then Innermost(j, end, U64(nonce + 1), last) else Inner(j + 2, end)
    case Ended => Ended
  }

  function After(args: seq<bytes>, s: Loop, k: nat): Loop
    decreases k
  {
    if k == 0 then s else After(args, Turn(args, s), k - 1)
  }

  lemma {:induction false} EndedStays(args: seq<bytes>, k: nat)
    ensures After(args, Ended, k) == Ended
  {
    if k > 0 {
      EndedStays(args, k - 1);
    }
  }

  lemma {:induction false} LaterToo(args: seq<bytes>, s: Loop, k: nat, m: nat)
    requires After(args, s, k) == Ended && k <= m
    ensures After(args, s, m) == Ended
    decreases k
  {
    if k == 0 {
      EndedStays(args, m);
    } else {
      LaterToo(args, Turn(args, s), k - 1, m - 1);
    }
  }

  /** The loop over the nonces goes on forever when its end is 2^64 - 1. */
  lemma {:induction false} InnermostLast(args: seq<bytes>, j: nat, end: uint64, nonce: uint64, last: uint64, k: nat)
    requires nonce <= last && After(args, Innermost(j, end, nonce, last), k) == Ended
    ensures last < MAX64 && After(args, Inner(j + 2, end), k) == Ended
    decreases k
  {
    var next := U64(nonce + 1);
    if next <= last {
      InnermostLast(args, j, end, next, last, k - 1);
      LaterToo(args, Inner(j + 2, end), k - 1, k);
    } else {
      assert Turn(args, Innermost(j, end, next, last)) == Inner(j + 2, end);
      LaterToo(args, Inner(j + 2, end), k - 2, k);
    }
  }

  lemma {:induction false} InnermostEnds(
    args: seq<bytes>, j: nat, end: uint64, nonce: uint64, last: uint64, k: nat) returns (m: nat)
    requires nonce <= last + 1 && last < MAX64 && After(args, Inner(j + 2, end), k) == Ended
    ensures After(args, Innermost(j, end, nonce, last), m) == Ended
    decreases last + 1 - nonce
  {
    if nonce <= last {
      U64Identity(nonce + 1);
      m := InnermostEnds(args, j, end, nonce + 1, last, k);
    } else {
      m := k;
    }
    m := m + 1;
  }

  lemma {:induction false} InnerNeeds(token: bytes, args: seq<bytes>, j: nat, end: uint64, k: nat)
    requires After(args, Inner(j, end), k) == Ended
    ensures IntervalsEnd(args, j, end)
    ensures Intervals(token, args, j, end).Ok? ==> k > 0 && After(args, Outer(end), k - 1) == Ended
    decreases end - j
  {
    if j < end && j + 1 < |args| && CheckInterval(FirstOf(args, j), LastOf(args, j)).Ok? {
      InnermostLast(args, j, end, FirstOf(args, j), LastOf(args, j), k - 1);
      InnerNeeds(token, args, j + 2, end, k - 1);
      if Intervals(token, args, j + 2, end).Ok? {
        LaterToo(args, Outer(end), k - 2, k - 1);
      }
    }
  }

  lemma {:induction false} InnerEnds(token: bytes, args: seq<bytes>, j: nat, end: uint64, k: nat) returns (m: nat)
    requires IntervalsEnd(args, j, end)
    requires Intervals(token, args, j, end).Ok? ==> After(args, Outer(end), k) == Ended
    ensures After(args, Inner(j, end), m) == Ended
    decreases end - j
  {
    if j < end && j + 1 < |args| && CheckInterval(FirstOf(args, j), LastOf(args, j)).Ok? {
      m := InnerEnds(token, args, j + 2, end, k);
      m := InnermostEnds(args, j, end, FirstOf(args, j), LastOf(args, j), m);
    } else {
      m := if j >= end then k else 0;
    }
    m := m + 1;
  }

  /** A call that ends reaches no group twice: from the second visit on, fewer turns would have to suffice
      than from the first. */
  lemma {:induction false} EndingEnds(args: seq<bytes>, i: nat, unseen: set<nat>, k: nat)
    requires After(args, Outer(i), k) == Ended
    requires forall x: nat :: x < |args| && x !in unseen ==> After(args, Outer(x), k) != Ended
    ensures EndsFrom(args, i, unseen)
    decreases k
  {
    hide ValidToken, Intervals;
    if k > 0 && After(args, Outer(i), k - 1) == Ended {
      forall x: nat | x < |args| && x !in unseen
        ensures After(args, Outer(x), k - 1) != Ended
      {
        NotEarlier(args, Outer(x), k);
      }
      EndingEnds(args, i, unseen, k - 1);
    } else if i + 2 < |args| && ValidToken(args[i]) {
      InnerNeeds(args[i], args, i + 2, Behind(args, i), k - 1);
      if GroupAt(args, i).Ok? {
        forall x: nat | x < |args| && x !in unseen - {i}
          ensures After(args, Outer(x), k - 2) != Ended
        {
          NotEarlier(args, Outer(x), k - 1);
          if x != i {
            NotEarlier(args, Outer(x), k);
          }
        }
        EndingEnds(args, Behind(args, i), unseen - {i}, k - 2);
      }
    }
  }

  lemma NotEarlier(args: seq<bytes>, s: Loop, k: nat)
    requires k > 0
    ensures After(args, s, k) != Ended ==> After(args, s, k - 1) != Ended
  {
    if After(args, s, k - 1) == Ended {
      LaterToo(args, s, k - 1, k);
    }
  }

  lemma {:induction false} EndsAtLast(args: seq<bytes>, i: nat, unseen: set<nat>) returns (k: nat)
    requires EndsFrom(args, i, unseen)
    ensures After(args, Outer(i), k) == Ended
    decreases unseen
  {
    k := 0;
    if i + 2 < |args| && ValidToken(args[i]) {
      if GroupAt(args, i).Ok? {
        k := EndsAtLast(args, Behind(args, i), unseen - {i});
      }
      k := InnerEnds(args[i], args, i + 2, Behind(args, i), k);
    }
    k := k + 1;
  }

  /** The call ends exactly when no group is reached twice and no interval reached ends at 2^64 - 1. */
  lemma EndsExactly(args: seq<bytes>)
    requires |args| >= 4
    ensures (exists k :: After(args, Outer(0), k) == Ended) <==> CallEnds(args)
  {
    if k :| After(args, Outer(0), k) == Ended {
      EndingEnds(args, 0, Places(args), k);
    }
    if CallEnds(args) {
      var k := EndsAtLast(args, 0, Places(args));
    }
  }

  // ----- calls that do not end -----

  /** The loop over the nonces of an interval goes on forever exactly when the interval ends at 2^64 - 1. */
  lemma EndlessInterval(args: seq<bytes>, j: nat, end: uint64, first: uint64, last: uint64)
    requires CheckInterval(first, last).Ok?
    ensures (forall k :: After(args, Innermost(j, end, first, last), k).Innermost?) <==> last == MAX64
  {
    if last == MAX64 {
      forall k
        ensures After(args, Innermost(j, end, first, last), k).Innermost?
      {
        StaysInnermost(args, j, end, first, k);
      }
    } else {
      var k := LeavesInnermost(args, j, end, first, last);
    }
  }

  lemma {:induction false} StaysInnermost(args: seq<bytes>, j: nat, end: uint64, nonce: uint64, k: nat)
    ensures After(args, Innermost(j, end, nonce, MAX64), k).Innermost?
    decreases k
  {
    if k > 0 {
      StaysInnermost(args, j, end, U64(nonce + 1), k - 1);
    }
  }

  lemma {:induction false} LeavesInnermost(
    args: seq<bytes>, j: nat, end: uint64, nonce: uint64, last: uint64) returns (k: nat)
    requires nonce <= last + 1 && last < MAX64
    ensures !After(args, Innermost(j, end, nonce, last), k).Innermost?
    decreases last + 1 - nonce
  {
    if nonce <= last {
      U64Identity(nonce + 1);
      k := LeavesInnermost(args, j, end, nonce + 1, last);
      k := k + 1;
    } else {
      k := 1;
      assert After(args, Innermost(j, end, nonce, last), 1) == Turn(args, Innermost(j, end, nonce, last));
    }
  }

  /** Two numbers of intervals make the first group its own successor, so that the call never ends. */
  lemma EndlessGroup(args: seq<bytes>)
    requires |args| >= 4 && ValidToken(args[0])
    ensures Behind(args, 0) == 0 <==> NumIntervals(args, 0) == 0x7FFF_FFFF_FFFF_FFFF || NumIntervals(args, 0) == MAX64
    ensures Behind(args, 0) == 0 ==> !CallEnds(args)
  {
    BehindIs(0, NumIntervals(args, 0));
    if Behind(args, 0) == 0 {
      assert GroupAt(args, 0).Ok?;
      assert !EndsFrom(args, 0, Places(args) - {0});
    }
  }

  /** Two groups that lead to each other. */
  lemma PairRepeats(args: seq<bytes>)
    requires |args| == 7 && ValidToken(args[0]) && ValidToken(args[4])
    requires Behind(args, 0) == 4 && Behind(args, 4) == 0
    requires CheckInterval(FirstOf(args, 2), LastOf(args, 2)).Ok?
    ensures !CallEnds(args)
  {
    var places := Places(args);
    assert Intervals(args[0], args, 4, 4) == Ok([]);
    assert GroupAt(args, 0).Ok? && GroupAt(args, 4).Ok?;
    assert !EndsFrom(args, 0, places - {0} - {4});
    assert !EndsFrom(args, 4, places - {0});
  }

  /** The numbers of intervals with which a group at argument 4 ends at argument 0. */
  lemma LeadsBack(n: uint64)
    ensures U64(6 + 2 * n) == 0 <==> n == 0x7FFF_FFFF_FFFF_FFFD || n == 0xFFFF_FFFF_FFFF_FFFD
  {
  }

  /** A later group can lead back to an earlier one: with such a number of intervals the second group here
      ends at the place of the first. */
  lemma EndlessPair(token: bytes, one: bytes, number: bytes, x: bytes)
    requires ValidToken(token) && SetBytes(one) == 1 && U64(6 + 2 * U64(SetBytes(number))) == 0
    ensures var args := [token, one, one, one, token, number, x];
            !CallEnds(args) && forall k :: After(args, Outer(0), k) != Ended
  {
    var args := [token, one, one, one, token, number, x];
    assert NumIntervals(args, 0) == 1 && NumIntervals(args, 4) == U64(SetBytes(number));
    PairRepeats(args);
    EndsExactly(args);
  }

  /** The two smallest such inputs. */
  lemma EndlessArguments(token: bytes, n: uint64, x: bytes)
    requires ValidToken(token) && (n == 0x7FFF_FFFF_FFFF_FFFD || n == 0xFFFF_FFFF_FFFF_FFFD)
    ensures var args := [token, [1], [1], [1], token, ToBytes(n), x];
            !CallEnds(args) && forall k :: After(args, Outer(0), k) != Ended
  {
    hide CallEnds, After;
    SetBytesToBytes(n);
    LeadsBack(n);
    U64Identity(n);
    assert SetBytes([1]) == 1 by {
      assert [1][..0] == [];
    }
    EndlessPair(token, [1], ToBytes(n), x);
  }
}
