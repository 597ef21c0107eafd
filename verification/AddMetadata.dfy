// dcdtDeleteMetadata.go: putting metadata back into system entries that lack it.
module AddMetadata {
  import opened Bytes
  import opened Wrappers
  import opened TokenId
  import opened Ledger
  import opened Storage

  /** One triple (token, nonce, metadata) of the arguments. */
  datatype Addition = Addition(token: bytes, nonce: uint64, data: bytes)

  function AdditionAt(args: seq<bytes>, i: nat): Addition
    requires i + 3 <= |args|
  {
    Addition(args[i], U64(SetBytes(args[i + 1])), args[i + 2])
  }

  function AdditionKey(x: Addition): bytes {
    KeyOf(x.token, x.nonce)
  }

  const NEW_ENTRY := Token(NonFungible, 0, [], None, [])

  predicate HasMetadata(system: map<bytes, Token>, key: bytes) {
    key in system && system[key].meta.Some?
  }

  /** The system account after one addition; `decode` unmarshals the metadata argument. */
  function AddOne(
    decode: bytes -> Option<MetaData>, system: map<bytes, Token>, x: Addition): Result<map<bytes, Token>> {
    var _ :- Need(x.nonce != 0, InvalidNonce);
    var _ :- Need(ValidToken(x.token), InvalidTokenID);
    match decode(x.data)
    case None => Err(Unmarshal)
    case Some(meta) =>
      var _ :- Need(meta.nonce == x.nonce, InvalidMetadata);
      var key := AdditionKey(x);
      var _ :- Need(!HasMetadata(system, key), TokenHasValidMetadata);
      var entry := if key in system then system[key] else NEW_ENTRY;
      Ok(system[key := entry.(meta := Some(meta))])
  }

  function AddFrom(decode: bytes -> Option<MetaData>, system: map<bytes, Token>, args: seq<bytes>, i: nat)
    : Result<map<bytes, Token>>
    requires |args| % 3 == 0 && i % 3 == 0
    decreases |args| - i
  {
    if i >= |args| then
      Ok(system)
    else
      var one :- AddOne(decode, system, AdditionAt(args, i));
      AddFrom(decode, one, args, i + 3)
  }

  function AddAll(
    decode: bytes -> Option<MetaData>, system: map<bytes, Token>, args: seq<bytes>): Result<map<bytes, Token>> {
    var _ :- Need(|args| % 3 == 0 && |args| >= 3, InvalidNumOfArgs);
    AddFrom(decode, system, args, 0)
  }

  /** One turn of the loop of `addMetadata`, on the system account. */
  method AddEntry(h: Handler, decode: bytes -> Option<MetaData>, x: Addition) returns (r: Result<()>)
    modifies h`system
    ensures match AddOne(decode, old(h.system), x)
            case Ok(system) => r.Ok? && h.system == system
            case Err(e) => r == Err(e)
  {
    if x.nonce == 0 {
      return Err(InvalidNonce);
    }
    if !ValidToken(x.token) {
      return Err(InvalidTokenID);
    }
    var key, meta := AdditionKey(x), decode(x.data);
    if meta.None? {
      return Err(Unmarshal);
    }
    if meta.value.nonce != x.nonce {
      return Err(InvalidMetadata);
    }
    var entry := new TokenObject(NEW_ENTRY);
    if key in h.system {
      entry := new TokenObject(h.system[key]);
    }
    if entry.meta.Some? {
      return Err(TokenHasValidMetadata);
    }
    entry.meta := Some(meta.value);
    h.system := h.system[key := entry.AsToken()];
    return Ok(());
  }

  /** `addMetadata` */
  method AddMetadataEntries(h: Handler, decode: bytes -> Option<MetaData>, args: seq<bytes>) returns (r: Result<()>)
    modifies h`system
    ensures match AddAll(decode, old(h.system), args)
            case Ok(system) => r.Ok? && h.system == system
            case Err(e) => r == Err(e)
  {
    hide AddOne;
    if |args| % 3 != 0 || |args| < 3 {
      return Err(InvalidNumOfArgs);
    }
    ghost var all := AddFrom(decode, h.system, args, 0);
    var i := 0;
    while i < |args|
      invariant i <= |args| && i % 3 == 0
      invariant all == AddFrom(decode, h.system, args, i)
    {
      ghost var one := AddOne(decode, h.system, AdditionAt(args, i));
      r := AddEntry(h, decode, AdditionAt(args, i));
      if r.Err? {
        return;
      }
      assert one == Ok(h.system);
      i := i + 3;
    }
    return Ok(());
  }

  /** The argument index `k` begins a triple. */
  predicate TripleAt(args: seq<bytes>, i: nat, k: nat) {
    i <= k < |args| && k % 3 == 0 && k + 3 <= |args|
  }

  /** Some triple from `i` on names the key. */
  ghost predicate Adds(args: seq<bytes>, i: nat, key: bytes) {
    exists k :: TripleAt(args, i, k) && AdditionKey(AdditionAt(args, k)) == key
  }

  /** What one addition changes. */
  lemma AddOneWrites(decode: bytes -> Option<MetaData>, system: map<bytes, Token>, x: Addition, key: bytes)
    requires AddOne(decode, system, x).Ok?
    ensures var system1 := AddOne(decode, system, x).value;
            && !HasMetadata(system, AdditionKey(x)) && HasMetadata(system1, AdditionKey(x))
            && decode(x.data) == Some(system1[AdditionKey(x)].meta.value)
            && system1[AdditionKey(x)].meta.value.nonce == x.nonce
            && (key != AdditionKey(x) ==> (key in system1 <==> key in system))
            && (key != AdditionKey(x) && key in system ==> system1[key] == system[key])
            && (key in system ==> key in system1 && system1[key].(meta := None) == system[key].(meta := None))
  {
  }

  /** What a run does to one key, `adds` saying whether it names it: an entry that has metadata is neither
      named nor touched, a key that is not named stays, and value, properties and Reserved stay in any case. */
  ghost predicate Wrote(system: map<bytes, Token>, system1: map<bytes, Token>, key: bytes, adds: bool) {
    && (HasMetadata(system, key) ==> !adds)
    && (!adds ==> (key in system1 <==> key in system) && (key in system ==> system1[key] == system[key]))
    && (adds ==> HasMetadata(system1, key))
    && (key in system ==> key in system1 && system1[key].(meta := None) == system[key].(meta := None))
  }

  lemma WroteBoth(
    system: map<bytes, Token>, one: map<bytes, Token>, system1: map<bytes, Token>, key: bytes, a: bool, b: bool)
    requires Wrote(system, one, key, a) && Wrote(one, system1, key, b)
    ensures Wrote(system, system1, key, a || b) && !(a && b)
  {
  }

  lemma AddsCons(args: seq<bytes>, i: nat, key: bytes)
    requires |args| % 3 == 0 && i % 3 == 0 && i < |args|
    ensures Adds(args, i, key) <==> AdditionKey(AdditionAt(args, i)) == key || Adds(args, i + 3, key)
  {
    assert TripleAt(args, i, i);
    assert forall k :: TripleAt(args, i + 3, k) ==> TripleAt(args, i, k);
    assert forall k :: TripleAt(args, i, k) ==> k == i || TripleAt(args, i + 3, k);
  }

  /** A successful run never touches an entry that has metadata. */
  lemma {:induction false} AddFromWrites(
    decode: bytes -> Option<MetaData>, system: map<bytes, Token>, args: seq<bytes>, i: nat, key: bytes)
    requires |args| % 3 == 0 && i % 3 == 0 && AddFrom(decode, system, args, i).Ok?
    ensures Wrote(system, AddFrom(decode, system, args, i).value, key, Adds(args, i, key))
    decreases |args| - i
  {
    if i < |args| {
      var x := AdditionAt(args, i);
      var one := AddOne(decode, system, x).value;
      AddOneWrites(decode, system, x, key);
      AddFromWrites(decode, one, args, i + 3, key);
      AddsCons(args, i, key);
      WroteBoth(system, one, AddFrom(decode, one, args, i + 3).value, key, AdditionKey(x) == key,
                Adds(args, i + 3, key));
    }
  }

  /** The entry of the token and nonce has the metadata that `data` spells. */
  ghost predicate AddedAs(
    decode: bytes -> Option<MetaData>, system: map<bytes, Token>, token: bytes, nonce: uint64, data: bytes)
  {
    && ValidToken(token) && nonce > 0
    && HasMetadata(system, KeyOf(token, nonce))
    && decode(data) == Some(system[KeyOf(token, nonce)].meta.value)
    && system[KeyOf(token, nonce)].meta.value.nonce == nonce
  }

  lemma AddedFirst(decode: bytes -> Option<MetaData>, system: map<bytes, Token>, args: seq<bytes>, i: nat)
    requires |args| % 3 == 0 && i % 3 == 0 && AddFrom(decode, system, args, i).Ok? && i < |args|
    ensures AddedAs(decode, AddFrom(decode, system, args, i).value, args[i], U64(SetBytes(args[i + 1])), args[i + 2])
  {
    var x := AdditionAt(args, i);
    var one := AddOne(decode, system, x).value;
    AddOneWrites(decode, system, x, AdditionKey(x));
    AddFromWrites(decode, one, args, i + 3, AdditionKey(x));
  }

  /** Each triple (token, nonce, metadata) of a successful addition ends up as the metadata of its own key: no
      later triple overwrites it. */
  lemma {:induction false} AddedAt(
    decode: bytes -> Option<MetaData>, system: map<bytes, Token>, args: seq<bytes>, i: nat, k: nat)
    requires |args| % 3 == 0 && i % 3 == 0 && AddFrom(decode, system, args, i).Ok? && TripleAt(args, i, k)
    ensures AddedAs(decode, AddFrom(decode, system, args, i).value, args[k], U64(SetBytes(args[k + 1])), args[k + 2])
    decreases |args| - i
  {
    hide AddOne, AddedAs;
    if k == i {
      AddedFirst(decode, system, args, i);
    } else {
      AddedAt(decode, AddOne(decode, system, AdditionAt(args, i)).value, args, i + 3, k);
    }
  }

  lemma NotAddedAgain(
    decode: bytes -> Option<MetaData>, system: map<bytes, Token>, args: seq<bytes>, i: nat, k: nat, key: bytes)
    requires |args| % 3 == 0 && i % 3 == 0 && AddFrom(decode, system, args, i).Ok?
    requires HasMetadata(system, key) && TripleAt(args, i, k)
    ensures AdditionKey(AdditionAt(args, k)) != key
  {
    AddFromWrites(decode, system, args, i, key);
  }

  /** No identifier and nonce is added twice in one call. */
  lemma {:induction false} AddedOnce(
    decode: bytes -> Option<MetaData>, system: map<bytes, Token>, args: seq<bytes>, i: nat, j: nat, k: nat)
    requires |args| % 3 == 0 && i % 3 == 0 && AddFrom(decode, system, args, i).Ok?
    requires TripleAt(args, i, j) && TripleAt(args, j + 3, k)
    ensures var x, y := AdditionAt(args, j), AdditionAt(args, k); x.token != y.token || x.nonce != y.nonce
    decreases |args| - i
  {
    hide AddOne;
    var x := AdditionAt(args, i);
    var one := AddOne(decode, system, x).value;
    if j == i {
      AddOneWrites(decode, system, x, AdditionKey(x));
      NotAddedAgain(decode, one, args, i + 3, k, AdditionKey(x));
    } else {
      AddedOnce(decode, one, args, i + 3, j, k);
    }
  }
}
