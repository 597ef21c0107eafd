// `bytes.Split` and `strings.Split` for a one-byte separator, and the joining they undo.
module Split {
  import opened Bytes

  function SplitAt(s: bytes, sep: byte): (parts: seq<bytes>)
    ensures |parts| >= 1
  {
    if s == [] then
      [[]]
    else
      var rest := SplitAt(s[1..], sep);
      if s[0] == sep then [[]] + rest else [[s[0]] + rest[0]] + rest[1..]
  }

  function Join(parts: seq<bytes>, sep: byte): bytes {
    if parts == [] then []
    else if |parts| == 1 then parts[0]
    else parts[0] + [sep] + Join(parts[1..], sep)
  }

  lemma {:induction false} SplitNoSeparator(s: bytes, sep: byte)
    requires sep !in s
    ensures SplitAt(s, sep) == [s]
  {
    if s != [] {
      SplitNoSeparator(s[1..], sep);
      assert [s[0]] + s[1..] == s;
    }
  }

  lemma {:induction false} SplitFirst(head: bytes, tail: bytes, sep: byte)
    requires sep !in head
    ensures SplitAt(head + [sep] + tail, sep) == [head] + SplitAt(tail, sep)
  {
    var s := head + [sep] + tail;
    if head == [] {
      assert s[1..] == tail;
    } else {
      SplitFirst(head[1..], tail, sep);
      assert s[1..] == head[1..] + [sep] + tail;
      assert [head[0]] + head[1..] == head;
    }
  }

  /** Splitting undoes joining for every non-empty list of parts free of the separator. */
  lemma {:induction false} SplitJoin(parts: seq<bytes>, sep: byte)
    requires parts != []
    requires forall p :: p in parts ==> sep !in p
    ensures SplitAt(Join(parts, sep), sep) == parts
  {
    if |parts| == 1 {
      SplitNoSeparator(parts[0], sep);
    } else {
      SplitFirst(parts[0], Join(parts[1..], sep), sep);
      SplitJoin(parts[1..], sep);
    }
  }
}
