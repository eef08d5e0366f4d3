/**
 The generated Simple Binary Encoding flyweights: an 8-byte message header and a cursor
 that moves over a byte buffer as variable-length fields are put and got.

 `MessageHeader`, `TopicMessage` and `CommitOffsetLite` are the same generated code with
 other constants, so one class models the cursor of all of them. A C++ exception is a
 `Thrown` outcome; the cursor keeps the value it had when the exception left.
 */
module Flyweights {
  import opened Bytes

  /** The exceptions of the generated code: E100, E107 and E109. */
  datatype Fault = BufferTooShort | FlyweightTooShort | TooLong

  datatype Outcome<+T> = Ok(value: T) | Thrown(fault: Fault)

  const HEADER_LENGTH: nat := 8
  const MAX_FIELD: nat := 65534

  datatype Header = Header(blockLength: nat, templateId: nat, schemaId: nat, version: nat)

  predicate ValidHeader(h: Header) {
    h.blockLength < 65536 && h.templateId < 65536 && h.schemaId < 65536 && h.version < 65536
  }

  /** The four little-endian uint16 fields of the message header. */
  function HeaderBytes(h: Header): (s: seq<byte>)
    ensures |s| == HEADER_LENGTH
  {
    ToLE(h.blockLength, 2) + ToLE(h.templateId, 2) + ToLE(h.schemaId, 2) + ToLE(h.version, 2)
  }

  function ReadHeader(data: seq<byte>): (h: Header)
    requires |data| >= HEADER_LENGTH
  {
    Header(FromLE(data[0..2]), FromLE(data[2..4]), FromLE(data[4..6]), FromLE(data[6..8]))
  }

  /** The header survives the wire whatever follows it. */
  lemma HeaderRoundTrip(h: Header, rest: seq<byte>)
    requires ValidHeader(h)
    ensures ReadHeader(HeaderBytes(h) + rest) == h
  {
    var data := HeaderBytes(h) + rest;
    assert data[0..2] == ToLE(h.blockLength, 2);
    assert data[2..4] == ToLE(h.templateId, 2);
    assert data[4..6] == ToLE(h.schemaId, 2);
    assert data[6..8] == ToLE(h.version, 2);
    RoundTrip16(h.blockLength);
    RoundTrip16(h.templateId);
    RoundTrip16(h.schemaId);
    RoundTrip16(h.version);
  }

  /** A variable-length field: a uint16 length and the bytes. */
  function Var(s: Text): (r: seq<byte>)
    ensures |r| == 2 + |s|
  {
    ToLE(|s|, 2) + s
  }

  /** What a field put with a length cast to uint16 becomes: the cast drops high bits. */
  function Cast16(s: Text): (r: Text)
    ensures |r| == |s| % 65536
    ensures |s| < 65536 ==> r == s
  {
    s[..|s| % 65536]
  }

  /** The field at `pos`, and the position after it; None is E100. */
  function ReadVar(data: seq<byte>, pos: nat): (r: Option<(Text, nat)>)
    ensures r.Some? ==> pos + 2 <= r.value.1 <= |data| && r.value.1 == pos + 2 + |r.value.0|
  {
    if pos + 2 > |data| then None
    else
      var n := FromLE(data[pos..pos + 2]);
      if pos + 2 + n > |data| then None
      else Some((data[pos + 2..pos + 2 + n], pos + 2 + n))
  }

  /** A field that is whole in the data is read back; one that is cut is E100. */
  lemma ReadVarAt(data: seq<byte>, pos: nat, s: Text)
    requires |s| < 65536
    requires pos <= |data|
    requires data[pos..] <= Var(s) || Var(s) <= data[pos..]
    ensures ReadVar(data, pos) == if pos + 2 + |s| <= |data| then Some((s, pos + 2 + |s|)) else None
  {
    if pos + 2 <= |data| {
      assert data[pos..pos + 2] == data[pos..][..2] == Var(s)[..2] == ToLE(|s|, 2);
      RoundTrip16(|s|);
      if pos + 2 + |s| <= |data| {
        assert data[pos + 2..pos + 2 + |s|] == data[pos..][2..2 + |s|] == Var(s)[2..] == s;
      }
    }
  }

  /** The same, for a field inside a frame that may have been cut at `cut`. */
  lemma ReadVarInCut(frame: seq<byte>, cut: nat, pos: nat, s: Text, rest: seq<byte>)
    requires |s| < 65536
    requires pos <= cut <= |frame|
    requires frame[pos..] == Var(s) + rest
    ensures ReadVar(frame[..cut], pos) == if pos + 2 + |s| <= cut then Some((s, pos + 2 + |s|)) else None
  {
    var data := frame[..cut];
    assert data[pos..] == (Var(s) + rest)[..cut - pos];
    if cut - pos <= |Var(s)| {
      assert data[pos..] == Var(s)[..cut - pos];
    } else {
      assert data[pos..][..|Var(s)|] == Var(s);
    }
    ReadVarAt(data, pos, s);
  }

  /** Consecutive fields, as a message puts them in schema order. */
  function Vars(fields: seq<Text>): (r: seq<byte>)
  {
    if fields == [] then [] else Var(fields[0]) + Vars(fields[1..])
  }

  /** `n` consecutive fields from `pos`; None if any of the reads is E100. */
  function ReadVars(data: seq<byte>, pos: nat, n: nat): (r: Option<(seq<Text>, nat)>)
    ensures r.Some? ==> |r.value.0| == n && pos + 2 * n <= r.value.1
    ensures r.Some? && pos <= |data| ==> r.value.1 <= |data|
    decreases n, pos
  {
    if n == 0 then Some(([], pos))
    else
      var first := ReadVar(data, pos);
      if first == None then None
      else
        var rest := ReadVars(data, first.value.1, n - 1);
        if rest == None then None
        else Some(([first.value.0] + rest.value.0, rest.value.1))
  }

  lemma VarsCons(first: Text, rest: seq<Text>)
    ensures Vars([first] + rest) == Var(first) + Vars(rest)
  {
    assert ([first] + rest)[1..] == rest;
  }

  predicate AllFit(fields: seq<Text>) {
    forall i :: 0 <= i < |fields| ==> |fields[i]| < 65536
  }

  /** The bytes stand at `pos`. */
  predicate At(data: seq<byte>, pos: nat, bytes: seq<byte>) {
    pos + |bytes| <= |data| && data[pos..pos + |bytes|] == bytes
  }

  lemma AtSplit(data: seq<byte>, pos: nat, a: seq<byte>, b: seq<byte>)
    requires At(data, pos, a + b)
    ensures At(data, pos, a) && At(data, pos + |a|, b)
  {
    var both := data[pos..pos + |a| + |b|];
    assert data[pos..pos + |a|] == both[..|a|] == a;
    assert data[pos + |a|..pos + |a| + |b|] == both[|a|..] == b;
  }

  lemma ReadVarThere(data: seq<byte>, pos: nat, s: Text)
    requires |s| < 65536 && At(data, pos, Var(s))
    ensures ReadVar(data, pos) == Some((s, pos + 2 + |s|))
  {
    assert data[pos..][..|Var(s)|] == Var(s);
    ReadVarAt(data, pos, s);
  }

  lemma ReadVarsStep(data: seq<byte>, pos: nat, first: Text, next: nat, others: seq<Text>, end: nat)
    requires ReadVar(data, pos) == Some((first, next)) && ReadVars(data, next, |others|) == Some((others, end))
    ensures ReadVars(data, pos, |others| + 1) == Some(([first] + others, end))
  {
  }

  /** A row that is whole in the data is read back. */
  lemma {:induction false} RowRead(data: seq<byte>, pos: nat, fields: seq<Text>)
    requires AllFit(fields) && At(data, pos, Vars(fields))
    ensures ReadVars(data, pos, |fields|) == Some((fields, pos + |Vars(fields)|))
    decreases |fields|
  {
    if fields != [] {
      var first, others := fields[0], fields[1..];
      var next := pos + |Var(first)|;
      AtSplit(data, pos, Var(first), Vars(others));
      ReadVarThere(data, pos, first);
      RowRead(data, next, others);
      ReadVarsStep(data, pos, first, next, others, next + |Vars(others)|);
      assert [first] + others == fields;
    }
  }

  /** A row that the data cuts off is E100. */
  lemma {:induction false} RowCut(data: seq<byte>, pos: nat, fields: seq<Text>)
    requires AllFit(fields) && pos <= |data| && data[pos..] <= Vars(fields) && |data| - pos < |Vars(fields)|
    ensures ReadVars(data, pos, |fields|) == None
    decreases |fields|
  {
    var n := |Var(fields[0])|;
    assert Vars(fields)[..n] == Var(fields[0]) && Vars(fields)[n..] == Vars(fields[1..]);
    if pos + n <= |data| {
      assert data[pos..pos + n] == data[pos..][..n] == Var(fields[0]);
      ReadVarThere(data, pos, fields[0]);
      assert data[pos + n..] == data[pos..][n..];
      RowCut(data, pos + n, fields[1..]);
    } else {
      assert data[pos..] <= Var(fields[0]);
      ReadVarAt(data, pos, fields[0]);
    }
  }

  /**
   Consecutive fields inside a frame cut at `cut`: all of them are read back if they are
   whole, and the reads throw if the last of them is cut.
   */
  lemma ReadVarsInCut(frame: seq<byte>, cut: nat, pos: nat, fields: seq<Text>, rest: seq<byte>)
    requires AllFit(fields)
    requires pos <= cut <= |frame|
    requires frame[pos..] == Vars(fields) + rest
    ensures ReadVars(frame[..cut], pos, |fields|)
            == if pos + |Vars(fields)| <= cut then Some((fields, pos + |Vars(fields)|)) else None
  {
    var data := frame[..cut];
    assert data[pos..] == frame[pos..][..cut - pos];
    if pos + |Vars(fields)| <= cut {
      assert data[pos..pos + |Vars(fields)|] == frame[pos..][..|Vars(fields)|];
      RowRead(data, pos, fields);
    } else {
      RowCut(data, pos, fields);
    }
  }

  /** A field that is read fits its length type, and putting it again gives the bytes it was read from. */
  lemma ReadVarInverse(data: seq<byte>, pos: nat)
    requires ReadVar(data, pos).Some?
    ensures var (s, next) := ReadVar(data, pos).value;
            |s| < 65536 && data[pos..next] == Var(s)
  {
    var prefix := data[pos..pos + 2];
    FromLEBounded(prefix);
    ToFromLE(prefix);
    Widths();
    var (s, next) := ReadVar(data, pos).value;
    assert data[pos..next] == prefix + data[pos + 2..next];
  }

  /** The same for a row of fields: decoding loses nothing. */
  lemma {:induction false} ReadVarsInverse(data: seq<byte>, pos: nat, n: nat)
    requires pos <= |data| && ReadVars(data, pos, n).Some?
    ensures var (fields, next) := ReadVars(data, pos, n).value;
            AllFit(fields) && data[pos..next] == Vars(fields)
    decreases n
  {
    if n > 0 {
      ReadVarInverse(data, pos);
      var (first, middle) := ReadVar(data, pos).value;
      ReadVarsInverse(data, middle, n - 1);
      var (others, next) := ReadVars(data, middle, n - 1).value;
      VarsCons(first, others);
      assert data[pos..next] == data[pos..middle] + data[middle..next];
    }
  }

  class Flyweight {
    const buffer: array<byte>
    var bufferLength: nat
    var offset: nat
    var position: nat

    ghost predicate Valid()
      reads this
    {
      bufferLength <= buffer.Length && offset <= position <= bufferLength
    }

    constructor (buffer: array<byte>)
      ensures this.buffer == buffer && bufferLength == offset == position == 0
      ensures Valid()
    {
      this.buffer := buffer;
      bufferLength, offset, position := 0, 0, 0;
    }

    method WrapForEncode(at: nat, length: nat, blockLength: nat) returns (r: Outcome<()>)
      requires length <= buffer.Length
      modifies this
      ensures r.Ok? <==> at + blockLength <= length
      ensures r.Ok? ==> Valid() && bufferLength == length && offset == at && position == at + blockLength
    {
      bufferLength, offset := length, at;
      if at + blockLength > length {
        return Thrown(BufferTooShort);
      }
      position := at + blockLength;
      return Ok(());
    }

    method ApplyHeader(at: nat, h: Header)
      requires at + HEADER_LENGTH <= buffer.Length
      modifies buffer
      ensures buffer[..] == Splice(old(buffer[..]), at, HeaderBytes(h))
    {
      ghost var was := buffer[..];
      ghost var b, t, s, v := ToLE(h.blockLength, 2), ToLE(h.templateId, 2), ToLE(h.schemaId, 2), ToLE(h.version, 2);
      WriteLE(buffer, at, h.blockLength, 2);
      WriteLE(buffer, at + 2, h.templateId, 2);
      SpliceTwice(was, at, b, t);
      WriteLE(buffer, at + 4, h.schemaId, 2);
      SpliceTwice(was, at, b + t, s);
      WriteLE(buffer, at + 6, h.version, 2);
      SpliceTwice(was, at, b + t + s, v);
    }

    /** The header is written before the block is checked, so E100 leaves it in the buffer. */
    method WrapAndApplyHeader(at: nat, length: nat, h: Header) returns (r: Outcome<()>)
      requires length <= buffer.Length
      modifies this, buffer
      ensures r.Ok? <==> at + HEADER_LENGTH + h.blockLength <= length
      ensures r.Ok? ==> Valid() && bufferLength == length && offset == at + HEADER_LENGTH
      ensures r.Ok? ==> position == offset + h.blockLength
      ensures r.Ok? ==> buffer[..offset] == old(buffer[..at]) + HeaderBytes(h)
      ensures buffer[..] ==
              if at + HEADER_LENGTH > length then old(buffer[..]) else Splice(old(buffer[..]), at, HeaderBytes(h))
    {
      if at + HEADER_LENGTH > length {
        return Thrown(FlyweightTooShort);
      }
      ApplyHeader(at, h);
      r := WrapForEncode(at + HEADER_LENGTH, length, h.blockLength);
    }

    /** A fixed field of the block: no bounds check, as in the generated setters. */
    method PutFixed(at: nat, v: int, n: nat)
      requires Valid() && offset + at + n <= buffer.Length
      modifies buffer
      ensures buffer[..] == Splice(old(buffer[..]), offset + at, ToLE(v, n))
    {
      WriteLE(buffer, offset + at, v, n);
    }

    /** put*(src, length) with a uint16 length: the prefix goes in even when the bytes do not fit. */
    method PutVar(src: Text) returns (r: Outcome<()>)
      requires Valid() && |src| < 65536
      modifies this`position, buffer
      ensures Valid()
      ensures r.Ok? <==> old(position) + 2 + |src| <= bufferLength
      ensures r.Ok? ==> position == old(position) + 2 + |src|
      ensures r.Ok? ==> buffer[..] == Splice(old(buffer[..]), old(position), Var(src))
      ensures r.Ok? ==> buffer[..position] == old(buffer[..position]) + Var(src)
      ensures !r.Ok? ==> r == Thrown(BufferTooShort)
      ensures !r.Ok? ==> position == if old(position) + 2 <= bufferLength then old(position) + 2 else old(position)
      ensures !r.Ok? ==> buffer[..] == if old(position) + 2 <= bufferLength
                                       then Splice(old(buffer[..]), old(position), ToLE(|src|, 2)) else old(buffer[..])
    {
      ghost var was, start := buffer[..], position;
      if position + 2 > bufferLength {
        return Thrown(BufferTooShort);
      }
      position := position + 2;
      WriteLE(buffer, position - 2, |src|, 2);
      if |src| != 0 {
        var at := position;
        if at + |src| > bufferLength {
          return Thrown(BufferTooShort);
        }
        position := at + |src|;
        forall k | 0 <= k < |src| { buffer[at + k] := src[k]; }
      }
      assert buffer[..] == Splice(was, start, Var(src));
      return Ok(());
    }

    /** get*AsString: the length is read before the second bounds check. */
    method GetVar() returns (r: Outcome<Text>)
      requires Valid()
      modifies this`position
      ensures Valid()
      ensures var read := ReadVar(buffer[..bufferLength], old(position));
              r == if read.Some? then Ok(read.value.0) else Thrown(BufferTooShort)
      ensures r.Ok? ==> position == ReadVar(buffer[..bufferLength], old(position)).value.1
    {
      ghost var data := buffer[..bufferLength];
      var lengthPosition := position;
      if position + 2 > bufferLength {
        return Thrown(BufferTooShort);
      }
      position := position + 2;
      assert data[lengthPosition..lengthPosition + 2] == buffer[lengthPosition..position];
      var n := FromLE(buffer[lengthPosition..position]);
      if position + n > bufferLength {
        return Thrown(BufferTooShort);
      }
      assert data[position..position + n] == buffer[position..position + n];
      r := Ok(buffer[position..position + n]);
      position := position + n;
    }

    /** The put calls of one message, in order; the first that throws ends them. */
    method PutVars(fields: seq<Text>) returns (r: Outcome<()>)
      requires Valid() && AllFit(fields)
      modifies this`position, buffer
      ensures Valid()
      ensures r.Ok? <==> old(position) + |Vars(fields)| <= bufferLength
      ensures r.Ok? ==> buffer[..position] == old(buffer[..position]) + Vars(fields)
      ensures !r.Ok? ==> r == Thrown(BufferTooShort)
    {
      ghost var start := buffer[..position];
      var i := 0;
      while i < |fields|
        invariant i <= |fields| && Valid()
        invariant |start| + |Vars(fields)| == position + |Vars(fields[i..])|
        invariant start + Vars(fields) == buffer[..position] + Vars(fields[i..])
      {
        ghost var before := buffer[..position];
        assert fields[i..][0] == fields[i] && fields[i..][1..] == fields[i + 1..];
        r := PutVar(fields[i]);
        if !r.Ok? { return; }
        Reassociate(before, Var(fields[i]), Vars(fields[i + 1..]));
        i := i + 1;
      }
      r := Ok(());
    }

    /** The get calls of one message, in order; the first that throws ends them. */
    method GetVars(n: nat) returns (r: Outcome<seq<Text>>)
      requires Valid()
      modifies this`position
      ensures Valid()
      ensures var read := ReadVars(buffer[..bufferLength], old(position), n);
              r == if read.Some? then Ok(read.value.0) else Thrown(BufferTooShort)
      ensures r.Ok? ==> position == ReadVars(buffer[..bufferLength], old(position), n).value.1
    {
      ghost var data := buffer[..bufferLength];
      ghost var all := ReadVars(data, position, n);
      var got: seq<Text> := [];
      assert all.Some? ==> [] + all.value.0 == all.value.0;
      var left := n;
      while left > 0
        invariant Valid() && 0 <= left <= n
        invariant var tail := ReadVars(data, position, left);
                  all == if tail == None then None else Some((got + tail.value.0, tail.value.1))
      {
        ghost var tail := ReadVars(data, position, left);
        var field := GetVar();
        if !field.Ok? { return Thrown(field.fault); }
        if tail.Some? {
          Reassociate(got, [field.value], tail.value.0[1..]);
        }
        got, left := got + [field.value], left - 1;
      }
      assert got + [] == got;
      r := Ok(got);
    }

    method EncodedLength() returns (n: nat)
      requires Valid()
      ensures n == position - offset
    {
      n := position - offset;
    }
  }
}
