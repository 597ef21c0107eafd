// Transaction data strings `function@hex@hex...`: the parser (parsers/callArgsParser.go,
// parsers/tokenize.go) and the two printers, txDataBuilder/builder.go and the
// output-transfer code of builtInFunctions.
module TxData {
  import opened Bytes
  import opened Wrappers
  import opened Split
  import Hex

  const AT: byte := '@' as int

  function Prepend<T>(prefix: seq<T>, r: Result<seq<T>>): (all: Result<seq<T>>)
    ensures prefix == [] ==> all == r
    ensures r == Ok([]) ==> all == Ok(prefix)
  {
    match r
    case Ok(rest) =>
      assert prefix == [] ==> prefix + rest == rest;
      assert rest == [] ==> prefix + rest == prefix;
      Ok(prefix + rest)
    case Err(e) => Err(e)
  }

  // ----- printing -----

  /** `data` extended by `@element` for every element. */
  function Extend(data: bytes, elements: seq<bytes>): bytes
    decreases elements
  {
    if elements == [] then data else Extend(data + [AT] + elements[0], elements[1..])
  }

  function HexAll(args: seq<bytes>): (r: seq<bytes>)
    ensures |r| == |args|
    ensures forall i :: 0 <= i < |args| ==> r[i] == Hex.Encode(args[i])
  {
    seq(|args|, i requires 0 <= i < |args| => Hex.Encode(args[i]))
  }

  /** The data string of a call of `func` with `args`. */
  function Print(func: bytes, args: seq<bytes>): bytes {
    Extend(func, HexAll(args))
  }

  /** The printing loop of `addNFTTransferToVMOutput` and `addOutputTransferToVMOutput`. */
  method PrintCall(func: bytes, args: seq<bytes>) returns (data: bytes)
    ensures data == Print(func, args)
  {
    data := func;
    for i := 0 to |args|
      invariant Extend(data, HexAll(args)[i..]) == Print(func, args)
    {
      assert HexAll(args)[i..][1..] == HexAll(args)[i + 1..];
      data := data + [AT] + Hex.Encode(args[i]);
    }
  }

  class Builder {
    var function_: bytes
    var elements: seq<bytes>

    constructor ()
      ensures function_ == [] && elements == []
    {
      function_, elements := [], [];
    }

    method Clear()
      modifies this
      ensures function_ == [] && elements == []
    {
      function_, elements := [], [];
    }

    method Func(f: bytes)
      modifies this
      ensures function_ == f && elements == old(elements)
    {
      function_ := f;
    }

    method AddBytes(b: bytes)
      modifies this
      ensures function_ == old(function_) && elements == old(elements) + [Hex.Encode(b)]
    {
      elements := elements + [Hex.Encode(b)];
    }

    /** `Int64`: the magnitude alone is printed. */
    method AddInt64(value: int)
      modifies this
      ensures function_ == old(function_)
      ensures elements == old(elements) + [Hex.Encode(ToBytes(if value < 0 then -value else value))]
    {
      AddBytes(ToBytes(if value < 0 then -value else value));
    }

    method SetLast(element: bytes)
      modifies this
      ensures function_ == old(function_)
      ensures elements == if old(elements) == [] then [element] else old(elements)[|old(elements)| - 1 := element]
    {
      if |elements| == 0 {
        elements := [element];
      }
      elements := elements[|elements| - 1 := element];
    }

    method ToString() returns (data: bytes)
      ensures data == Extend(function_, elements)
    {
      data := function_;
      for i := 0 to |elements|
        invariant Extend(data, elements[i..]) == Extend(function_, elements)
      {
        assert elements[i..][1..] == elements[i + 1..];
        data := data + [AT] + elements[i];
      }
    }

    /** Appending byte arguments one by one and rendering gives the printed call. */
    method BuildCall(f: bytes, args: seq<bytes>) returns (data: bytes)
      modifies this
      ensures data == Print(f, args)
    {
      Clear();
      Func(f);
      for i := 0 to |args|
        invariant function_ == f && elements == HexAll(args)[..i]
      {
        AddBytes(args[i]);
      }
      assert HexAll(args)[..|args|] == HexAll(args);
      data := ToString();
    }
  }

  // ----- parsing -----

  /** `tokenize` */
  function Tokenize(data: bytes): Result<seq<bytes>> {
    var tokens := SplitAt(data, AT);
    if tokens[0] == [] then Err(TokenizeFailed) else Ok(tokens)
  }

  function DecodeFrom(tokens: seq<bytes>, i: nat): Result<seq<bytes>>
    decreases |tokens| - i
  {
    if i >= |tokens| then
      Ok([])
    else
      var argument :- Hex.Decode(tokens[i]);
      Prepend([argument], DecodeFrom(tokens, i + 1))
  }

  /** What `ParseData` reads from a data string. */
  function Parse(data: bytes): Result<(bytes, seq<bytes>)> {
    var tokens :- Tokenize(data);
    var arguments :- DecodeFrom(tokens, 1);
    Ok((tokens[0], arguments))
  }

  method ParseArguments(tokens: seq<bytes>) returns (r: Result<seq<bytes>>)
    ensures r == DecodeFrom(tokens, 1)
  {
    var arguments: seq<bytes> := [];
    var i := 1;
    while i < |tokens|
      invariant DecodeFrom(tokens, 1) == Prepend(arguments, DecodeFrom(tokens, i))
      decreases |tokens| - i
    {
      var argument := Hex.Decode(tokens[i]);
      if argument.Err? {
        return Err(argument.error);
      }
      ghost var rest := DecodeFrom(tokens, i + 1);
      assert rest.Ok? ==> arguments + ([argument.value] + rest.value) == arguments + [argument.value] + rest.value;
      arguments := arguments + [argument.value];
      i := i + 1;
    }
    return Ok(arguments);
  }

  method ParseData(data: bytes) returns (r: Result<(bytes, seq<bytes>)>)
    ensures r == Parse(data)
  {
    var tokens :- Tokenize(data);
    var arguments :- ParseArguments(tokens);
    return Ok((tokens[0], arguments));
  }

  // ----- round trip -----

  lemma {:induction false} ExtendIsJoin(data: bytes, elements: seq<bytes>)
    ensures Extend(data, elements) == Join([data] + elements, AT)
    decreases elements
  {
    if elements != [] {
      var rest := elements[1..];
      ExtendIsJoin(data + [AT] + elements[0], rest);
      assert ([data] + elements)[1..] == elements;
      if rest != [] {
        var longer := [data + [AT] + elements[0]] + rest;
        assert longer[1..] == rest;
        assert data + [AT] + (elements[0] + [AT] + Join(rest, AT)) == data + [AT] + elements[0] + [AT] + Join(rest, AT);
      } else {
        assert elements == [elements[0]];
      }
    }
  }

  lemma {:induction false} DecodeHexAll(func: bytes, args: seq<bytes>, i: nat)
    requires i <= |args|
    ensures DecodeFrom([func] + HexAll(args), i + 1) == Ok(args[i..])
    decreases |args| - i
  {
    if i < |args| {
      DecodeHexAll(func, args, i + 1);
      Hex.DecodeEncode(args[i]);
      assert args[i..] == [args[i]] + args[i + 1..];
    } else {
      assert args[i..] == [];
    }
  }

  lemma SplitPrint(func: bytes, args: seq<bytes>)
    requires AT !in func
    ensures SplitAt(Print(func, args), AT) == [func] + HexAll(args)
  {
    ExtendIsJoin(func, HexAll(args));
    forall i | 0 <= i < |args|
      ensures AT !in HexAll(args)[i]
    {
      Hex.EncodeIsDigits(args[i]);
    }
    SplitJoin([func] + HexAll(args), AT);
  }

  /** Parsing undoes printing exactly for the non-empty function names without a separator. */
  lemma ParsePrint(func: bytes, args: seq<bytes>)
    ensures Parse(Print(func, args)) == Ok((func, args)) <==> func != [] && AT !in func
  {
    if AT !in func {
      SplitPrint(func, args);
      DecodeHexAll(func, args, 0);
    } else {
      var data := Print(func, args);
      SplitPartsClean(data, AT);
      assert SplitAt(data, AT)[0] in SplitAt(data, AT);
    }
  }

  /** No part of a split string holds the separator. */
  lemma {:induction false} SplitPartsClean(s: bytes, sep: byte)
    ensures forall p :: p in SplitAt(s, sep) ==> sep !in p
  {
    if s != [] {
      SplitPartsClean(s[1..], sep);
      assert SplitAt(s[1..], sep)[0] in SplitAt(s[1..], sep);
    }
  }
}
