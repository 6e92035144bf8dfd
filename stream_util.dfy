/** `StreamUtil`: draining an input stream into a byte array through an
    8192-byte buffer, with the argument check that precedes the copy.

    The JDK streams it works on are modelled as two small classes: an
    `InputStream` that hands out the chunks it will deliver and then either
    signals the end of the stream (`read` returns -1) or fails with an
    `IOException`, and a `ByteArrayOutputStream` that accumulates what is
    written to it. */
module StreamUtil {
  import opened Base

  /** The size of the copy buffer. */
  const BufferSize := 8192

  /** How a stream ends once its data is exhausted. */
  datatype StreamEnd = EndOfStream | IOFailure

  /** All bytes of a sequence of chunks, in order. */
  function Flatten(chunks: seq<seq<byte>>): seq<byte> {
    if chunks == [] then [] else chunks[0] + Flatten(chunks[1..])
  }

  /** The sum of the chunk sizes: what the successive `read` calls return
      when every chunk fits in the buffer. */
  function SumOfSizes(chunks: seq<seq<byte>>): nat {
    if chunks == [] then 0 else |chunks[0]| + SumOfSizes(chunks[1..])
  }

  /** The bytes of a chunked stream number the sum of its chunk sizes. */
  lemma {:induction false} FlattenLength(chunks: seq<seq<byte>>)
    ensures |Flatten(chunks)| == SumOfSizes(chunks)
  {
    if chunks != [] {
      FlattenLength(chunks[1..]);
    }
  }

  /** Everything a stream yields when drained to its end: its bytes, or the
      `IOException` it ends with. */
  function Drained(chunks: seq<seq<byte>>, end: StreamEnd): Result<seq<byte>> {
    if end == EndOfStream then Ok(Flatten(chunks)) else Err(IOException)
  }

  /** A `java.io.InputStream` whose data arrives in `pending` chunks. */
  class InputStream {
    /** The chunks not yet delivered; one `read` delivers at most one chunk,
        and no more of it than fits in the caller's buffer. */
    var pending: seq<seq<byte>>
    const end: StreamEnd

    constructor (chunks: seq<seq<byte>>, end: StreamEnd)
      ensures pending == chunks && this.end == end
    {
      pending := chunks;
      this.end := end;
    }

    /** The bytes the stream has yet to deliver. */
    function Remaining(): seq<byte>
      reads this
    {
      Flatten(pending)
    }

    /** `read(buf)`: the number of bytes placed at the start of `buf`, -1 at
        the end of the stream, or an `IOException`. */
    method Read(buf: array<byte>) returns (r: Result<int>)
      modifies this, buf
      ensures old(pending) == [] ==> pending == [] && unchanged(buf)
      ensures old(pending) == [] ==> r == if end == EndOfStream then Ok(-1) else Err(IOException)
      ensures old(pending) != [] ==> r.Ok? && 0 <= r.value <= buf.Length && r.value <= |old(Remaining())|
      ensures old(pending) != [] ==>
        && buf[..r.value] == old(Remaining())[..r.value]
        && Remaining() == old(Remaining())[r.value..]
      ensures old(pending) != [] && |old(pending)[0]| <= buf.Length ==>
        r == Ok(|old(pending)[0]|) && pending == old(pending)[1..]
      ensures old(pending) != [] && buf.Length > 0 ==>
        |Remaining()| < |old(Remaining())| || |pending| < |old(pending)|
    {
      if pending == [] {
        r := if end == EndOfStream then Ok(-1) else Err(IOException);
        return;
      }
      var chunk := pending[0];
      var n := if |chunk| <= buf.Length then |chunk| else buf.Length;
      forall i | 0 <= i < n {
        buf[i] := chunk[i];
      }
      assert buf[..n] == chunk[..n];
      ghost var before := Flatten(pending);
      assert before == chunk + Flatten(pending[1..]);
      assert before[..n] == chunk[..n];
      if n == |chunk| {
        pending := pending[1..];
        assert chunk == before[..n];
      } else {
        pending := [chunk[n..]] + pending[1..];
        assert Flatten(pending) == chunk[n..] + Flatten(pending[1..]);
      }
      assert before[n..] == Flatten(pending);
      r := Ok(n);
    }
  }

  /** A `java.io.ByteArrayOutputStream`. */
  class ByteArrayOutputStream {
    var bytes: seq<byte>

    constructor ()
      ensures bytes == []
    {
      bytes := [];
    }

    /** `write(buf, off, len)`: appends `buf[off..off + len]`. */
    method Write(buf: array<byte>, off: nat, len: nat)
      requires off + len <= buf.Length
      modifies this
      ensures bytes == old(bytes) + buf[off..off + len]
    {
      bytes := bytes + buf[off..off + len];
    }
  }

  /** The exact message of the `IllegalArgumentException` raised when an
      argument is null. */
  const FromNullMessage := "\"from\" argument is null"
  const ToNullMessage := "\"to\" argument is null"

  /** `validateArguments`: throws exactly when `from` or `to` is null, naming
      each null argument; two messages are joined by `"and"`, without
      spaces. */
  method ValidateArguments(from: InputStream?, to: ByteArrayOutputStream?) returns (o: Outcome)
    ensures o.Pass? <==> from != null && to != null
    ensures from == null && to != null ==> o == Fail(IllegalArgumentException(FromNullMessage))
    ensures from != null && to == null ==> o == Fail(IllegalArgumentException(ToNullMessage))
    ensures from == null && to == null ==>
      o == Fail(IllegalArgumentException(FromNullMessage + "and" + ToNullMessage))
  {
    var fromNullErrorMessage := "";
    var toNullErrorMessage := "";
    if from == null {
      fromNullErrorMessage := FromNullMessage;
    }
    if to == null {
      toNullErrorMessage := ToNullMessage;
    }
    assert |FromNullMessage| > 0 && |ToNullMessage| > 0;
    var concatenator := if fromNullErrorMessage != "" && toNullErrorMessage != "" then "and" else "";
    if fromNullErrorMessage != "" || toNullErrorMessage != "" {
      assert FromNullMessage + "" + "" == FromNullMessage && "" + "" + ToNullMessage == ToNullMessage;
      return Fail(IllegalArgumentException(fromNullErrorMessage + concatenator + toNullErrorMessage));
    }
    return Pass;
  }

  /** `copy`: after validating its arguments, reads into an 8192-byte buffer
      until `read` returns -1, writing each chunk it read, and returns the
      total number of bytes copied. An `IOException` from `read` escapes,
      leaving what was copied before it in `to`. */
  method Copy(from: InputStream?, to: ByteArrayOutputStream?) returns (r: Result<int>)
    modifies from, to
    ensures from == null && to != null ==> unchanged(to)
    ensures from != null && to == null ==> unchanged(from)
    ensures from == null ==>
      r == Err(IllegalArgumentException(FromNullMessage + (if to == null then "and" + ToNullMessage else "")))
    ensures from != null && to == null ==> r == Err(IllegalArgumentException(ToNullMessage))
    ensures from != null && to != null ==>
      && to.bytes == old(to.bytes) + old(from.Remaining())
      && from.pending == []
      && r == if from.end == EndOfStream then Ok(|old(from.Remaining())|) else Err(IOException)
    ensures from != null && to != null && from.end == EndOfStream ==> r == Ok(SumOfSizes(old(from.pending)))
  {
    var valid := ValidateArguments(from, to);
    if valid.Fail? {
      assert FromNullMessage + "" == FromNullMessage;
      assert FromNullMessage + ("and" + ToNullMessage) == FromNullMessage + "and" + ToNullMessage;
      return Err(valid.error);
    }
    FlattenLength(from.pending);
    var buf := new byte[BufferSize];
    var total := 0;
    ghost var copied: seq<byte> := [];
    while true
      invariant to.bytes == old(to.bytes) + copied
      invariant old(from.Remaining()) == copied + from.Remaining()
      invariant total == |copied|
      decreases |from.Remaining()|, |from.pending|
    {
      ghost var rest := from.Remaining();
      var read := from.Read(buf);
      if read.Err? {
        return Err(read.error);
      }
      var n := read.value;
      if n == -1 {
        break;
      }
      to.Write(buf, 0, n);
      total := total + n;
      copied := copied + buf[..n];
      assert rest == rest[..n] + rest[n..];
    }
    assert from.Remaining() == [] && from.pending == [];
    r := Ok(total);
  }

  /** `toByteArray`: every byte the stream yields, in order, or the
      `IOException` it fails with. A null stream fails on `available()`
      before `copy` can check its arguments. */
  method ToByteArray(stream: InputStream?) returns (r: Result<seq<byte>>)
    modifies stream
    ensures stream == null ==> r == Err(NullPointerException)
    ensures stream != null ==> r == Drained(old(stream.pending), stream.end) && stream.pending == []
  {
    if stream == null {
      return Err(NullPointerException);
    }
    ghost var data := stream.Remaining();
    var out := new ByteArrayOutputStream();
    var copied := Copy(stream, out);
    if copied.Err? {
      return Err(copied.error);
    }
    assert out.bytes == data;
    r := Ok(out.bytes);
  }
}
