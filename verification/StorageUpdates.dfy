// parsers/storageUpdatesParser.go
module StorageUpdates {
  import opened Bytes
  import opened Wrappers
  import opened Split
  import opened TxData
  import Hex

  datatype StorageUpdate = StorageUpdate(offset: bytes, data: bytes, written: bool)

  /** The hex tokens of the updates from index `i` on, offset before data. */
  function Tokens(updates: seq<StorageUpdate>, i: nat): seq<bytes>
    decreases |updates| - i
  {
    if i >= |updates| then []
    else [Hex.Encode(updates[i].offset), Hex.Encode(updates[i].data)] + Tokens(updates, i + 1)
  }

  /** What the parser keeps of an update: the `written` flag is not on the wire. */
  function Unwritten(updates: seq<StorageUpdate>): (r: seq<StorageUpdate>)
    ensures |r| == |updates|
  {
    seq(|updates|, i requires 0 <= i < |updates| => updates[i].(written := false))
  }

  method CreateDataFromStorageUpdate(updates: seq<StorageUpdate>) returns (data: bytes)
    ensures data == Join(Tokens(updates, 0), AT)
  {
    data := [];
    var i := 0;
    while i < |updates|
      invariant 0 <= i <= |updates|
      invariant data + Join(Tokens(updates, i), AT) == Join(Tokens(updates, 0), AT)
    {
      ghost var before := data;
      data := data + Hex.Encode(updates[i].offset);
      data := data + [AT];
      data := data + Hex.Encode(updates[i].data);
      if i < |updates| - 1 {
        data := data + [AT];
      }
      TurnAppends(updates, i, before, data);
      i := i + 1;
    }
  }

  lemma JoinStep(updates: seq<StorageUpdate>, i: nat)
    requires i < |updates|
    ensures Join(Tokens(updates, i), AT) ==
            Piece(updates, i) + Join(Tokens(updates, i + 1), AT)
  {
    var tokens, rest := Tokens(updates, i), Tokens(updates, i + 1);
    assert tokens[1..] == [Hex.Encode(updates[i].data)] + rest;
    assert tokens[1..][1..] == rest;
  }

  lemma TurnAppends(updates: seq<StorageUpdate>, i: nat, before: bytes, after: bytes)
    requires i < |updates|
    requires var data := before + Hex.Encode(updates[i].offset) + [AT] + Hex.Encode(updates[i].data);
             after == if i < |updates| - 1 then data + [AT] else data
    ensures after + Join(Tokens(updates, i + 1), AT) == before + Join(Tokens(updates, i), AT)
  {
    JoinStep(updates, i);
    var piece, rest := Piece(updates, i), Join(Tokens(updates, i + 1), AT);
    assert after == before + piece;
    assert before + piece + rest == before + (piece + rest);
  }

  /** What one turn of the printing loop appends. */
  function Piece(updates: seq<StorageUpdate>, i: nat): bytes
    requires i < |updates|
  {
    Hex.Encode(updates[i].offset) + [AT] + Hex.Encode(updates[i].data) + if i < |updates| - 1 then [AT] else []
  }

  /** `trimLeadingSeparatorChar` */
  function Trim(data: bytes): bytes {
    if data != [] && data[0] == AT then data[1..] else data
  }

  function DecodePairs(tokens: seq<bytes>, i: nat): Result<seq<StorageUpdate>>
    requires |tokens| % 2 == 0 && i % 2 == 0
    decreases |tokens| - i
  {
    if i >= |tokens| then
      Ok([])
    else
      var offset :- Hex.Decode(tokens[i]);
      var data :- Hex.Decode(tokens[i + 1]);
      Prepend([StorageUpdate(offset, data, false)], DecodePairs(tokens, i + 2))
  }

  function ParseUpdates(data: bytes): Result<seq<StorageUpdate>> {
    var tokens :- Tokenize(Trim(data));
    if |tokens| % 2 != 0 then Err(InvalidDataString) else DecodePairs(tokens, 0)
  }

  method GetStorageUpdates(data: bytes) returns (r: Result<seq<StorageUpdate>>)
    ensures r == ParseUpdates(data)
  {
    var tokens :- Tokenize(Trim(data));
    if |tokens| % 2 != 0 {
      return Err(InvalidDataString);
    }
    var updates: seq<StorageUpdate> := [];
    var i := 0;
    while i < |tokens|
      invariant i % 2 == 0
      invariant DecodePairs(tokens, 0) == Prepend(updates, DecodePairs(tokens, i))
    {
      var offset :- Hex.Decode(tokens[i]);
      var value :- Hex.Decode(tokens[i + 1]);
      ghost var rest := DecodePairs(tokens, i + 2);
      var update := StorageUpdate(offset, value, false);
      assert rest.Ok? ==> updates + ([update] + rest.value) == updates + [update] + rest.value;
      updates := updates + [update];
      i := i + 2;
    }
    return Ok(updates);
  }

  lemma {:induction false} TokensShape(updates: seq<StorageUpdate>, i: nat)
    requires i <= |updates|
    ensures |Tokens(updates, i)| == 2 * (|updates| - i)
    ensures forall t :: t in Tokens(updates, i) ==> AT !in t
    decreases |updates| - i
  {
    if i < |updates| {
      TokensShape(updates, i + 1);
      Hex.EncodeIsDigits(updates[i].offset);
      Hex.EncodeIsDigits(updates[i].data);
    }
  }

  lemma {:induction false} TokensAt(updates: seq<StorageUpdate>, i: nat, k: nat)
    requires i <= k < |updates| && |Tokens(updates, i)| == 2 * (|updates| - i)
    ensures Tokens(updates, i)[2 * (k - i)] == Hex.Encode(updates[k].offset)
    ensures Tokens(updates, i)[2 * (k - i) + 1] == Hex.Encode(updates[k].data)
    decreases k - i
  {
    if i < k {
      TokensAt(updates, i + 1, k);
    }
  }

  lemma {:induction false} DecodeTokens(updates: seq<StorageUpdate>, i: nat)
    requires i <= |updates| && |Tokens(updates, 0)| == 2 * |updates|
    ensures DecodePairs(Tokens(updates, 0), 2 * i) == Ok(Unwritten(updates)[i..])
    decreases |updates| - i
  {
    hide Tokens;
    if i < |updates| {
      TokensAt(updates, 0, i);
      DecodeTokens(updates, i + 1);
      Hex.DecodeEncode(updates[i].offset);
      Hex.DecodeEncode(updates[i].data);
      assert Unwritten(updates)[i..] == [updates[i].(written := false)] + Unwritten(updates)[i + 1..];
    } else {
      assert Unwritten(updates)[i..] == [];
    }
  }

  lemma FirstOffsetEmpty(updates: seq<StorageUpdate>)
    requires updates != [] && updates[0].offset == []
    ensures ParseUpdates(Join(Tokens(updates, 0), AT)).Err?
  {
    var tokens := Tokens(updates, 0);
    var data := Join(tokens, AT);
    TokensShape(updates, 0);
    SplitJoin(tokens, AT);
    LeadingSeparator(data, tokens);
  }

  /** A first part that is empty shows as a leading separator; trimming it loses one part. */
  lemma LeadingSeparator(data: bytes, tokens: seq<bytes>)
    requires |tokens| >= 2 && |tokens| % 2 == 0 && tokens[0] == []
    requires data == Join(tokens, AT) && SplitAt(data, AT) == tokens
    ensures ParseUpdates(data).Err?
  {
    assert data == [AT] + Join(tokens[1..], AT);
    assert data == [] + [AT] + data[1..];
    SplitFirst([], data[1..], AT);
    assert |SplitAt(Trim(data), AT)| == |tokens| - 1;
  }

  lemma FirstOffsetPresent(updates: seq<StorageUpdate>)
    requires updates != [] && updates[0].offset != []
    ensures ParseUpdates(Join(Tokens(updates, 0), AT)) == Ok(Unwritten(updates))
  {
    var tokens := Tokens(updates, 0);
    var data := Join(tokens, AT);
    TokensShape(updates, 0);
    SplitJoin(tokens, AT);
    assert tokens[0] == Hex.Encode(updates[0].offset);
    assert data != [] && data[0] == tokens[0][0];
    assert data[0] in tokens[0];
    assert Trim(data) == data;
    DecodeTokens(updates, 0);
    assert Unwritten(updates)[0..] == Unwritten(updates);
  }

  /** Reading undoes printing exactly for the non-empty lists whose first offset is not empty:
      an empty first offset leaves a leading separator, which the reader trims away. */
  lemma ParseUndoesCreate(updates: seq<StorageUpdate>)
    ensures ParseUpdates(Join(Tokens(updates, 0), AT)) == Ok(Unwritten(updates))
       <==> updates != [] && updates[0].offset != []
  {
    if updates == [] {
      assert Join(Tokens(updates, 0), AT) == [];
    } else if updates[0].offset == [] {
      FirstOffsetEmpty(updates);
    } else {
      FirstOffsetPresent(updates);
    }
  }
}
