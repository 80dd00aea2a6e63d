/**
 * The error-reporting side of the WebGPU server bindings
 * (gfx/wgpu_bindings/src/server.rs): the caller-owned, zero-terminated
 * `ErrorBuffer` that Rust errors are written into for C++, and the
 * index-or-minus-one answer of `wgpu_server_instance_request_adapter`.
 *
 * Text is handled as UTF-8 bytes, which is how Rust measures and copies it.
 */
module WgpuServer {
  import opened Wrappers

  type Byte = bv8

  /**
   * An error as the `std::error::Error` trait presents it: its `Display`
   * text and the error it was caused by, if any.
   */
  datatype Error = Error(text: seq<Byte>, source: Option<Error>)

  /** The bytes of ", caused by: ". */
  const CAUSED_BY: seq<Byte> :=
    [0x2C, 0x20, 0x63, 0x61, 0x75, 0x73, 0x65, 0x64, 0x20, 0x62, 0x79, 0x3A, 0x20]

  /** The message `init` builds: the error's text, then each cause in turn. */
  function ChainText(e: Error): seq<Byte>
  {
    e.text + CausesText(e.source)
  }

  /** ", caused by: <text>" for `cause` and every error below it. */
  function CausesText(cause: Option<Error>): seq<Byte>
    decreases cause
  {
    match cause
    case None => []
    case Some(s) => CAUSED_BY + s.text + CausesText(s.source)
  }

  /** An error's message is its own text, then ", caused by: " and its source's message. */
  lemma ChainTextOfCausedError(e: Error)
    requires e.source.Some?
    ensures ChainText(e) == e.text + CAUSED_BY + ChainText(e.source.value)
  {
    var s := e.source.value;
    calc {
      ChainText(e);
      e.text + (CAUSED_BY + s.text + CausesText(s.source));
      e.text + CAUSED_BY + (s.text + CausesText(s.source));
    }
  }

  /** The loop at the top of `init`: format the error, then append each source. */
  method FormatErrorChain(error: Error) returns (message: seq<Byte>)
    ensures message == ChainText(error)
    ensures |message| >= |error.text| && message[..|error.text|] == error.text
  {
    message := error.text;
    var e := error.source;
    while e.Some?
      invariant message + CausesText(e) == ChainText(error)
      decreases e
    {
      var source := e.value;
      message := message + CAUSED_BY + source.text;
      e := source.source;
    }
    assert message[..|error.text|] == error.text by {
      assert message == error.text + CausesText(error.source);
    }
  }

  /**
   * How many bytes of a `len`-byte message fit in a buffer of `capacity`
   * bytes with room left for the terminating zero.
   */
  function CopiedLength(len: nat, capacity: nat): (n: nat)
    requires capacity != 0
    ensures n < capacity && n <= len
    ensures n == len || n == capacity - 1
  {
    if len >= capacity then capacity - 1 else len
  }

  /** The buffer `buf` after `init_str(message)`: the copied prefix, a zero, the old rest. */
  function Written(buf: seq<Byte>, message: seq<Byte>, capacity: nat): (r: seq<Byte>)
    requires 0 < capacity <= |buf|
    ensures |r| == |buf|
  {
    var n := CopiedLength(|message|, capacity);
    message[..n] + [0] + buf[n + 1..]
  }

  /** What the C++ side reads from a buffer: the bytes before the first zero. */
  function ReadCString(s: seq<Byte>): seq<Byte>
  {
    if s == [] || s[0] == 0 then [] else [s[0]] + ReadCString(s[1..])
  }

  lemma {:induction false} ReadCStringStopsAtTerminator(m: seq<Byte>, rest: seq<Byte>)
    requires 0 !in m
    ensures ReadCString(m + [0] + rest) == m
  {
    if m != [] {
      assert (m + [0] + rest)[1..] == m[1..] + [0] + rest;
      ReadCStringStopsAtTerminator(m[1..], rest);
    }
  }

  /**
   * A message without zero bytes is read back by C++ as its copied prefix,
   * and in full when it is shorter than the capacity.
   */
  lemma ReadBackAfterInitStr(buf: seq<Byte>, message: seq<Byte>, capacity: nat)
    requires 0 < capacity <= |buf|
    requires 0 !in message
    ensures ReadCString(Written(buf, message, capacity)) == message[..CopiedLength(|message|, capacity)]
    ensures |message| < capacity ==> ReadCString(Written(buf, message, capacity)) == message
  {
    var n := CopiedLength(|message|, capacity);
    assert 0 !in message[..n] by {
      forall i | 0 <= i < n ensures message[..n][i] != 0 {
        assert message[..n][i] == message[i];
      }
    }
    ReadCStringStopsAtTerminator(message[..n], buf[n + 1..]);
    if |message| < capacity {
      assert message[..n] == message;
    }
  }

  /**
   * A zero byte inside the message hides everything after it from the C++
   * reader, as the source's documentation warns.
   */
  lemma EmbeddedZeroTruncates(buf: seq<Byte>, head: seq<Byte>, tail: seq<Byte>, capacity: nat)
    requires 0 < capacity <= |buf|
    requires 0 !in head
    requires |head| < capacity
    ensures ReadCString(Written(buf, head + [0] + tail, capacity)) == head
  {
    var message := head + [0] + tail;
    var n := CopiedLength(|message|, capacity);
    var w := Written(buf, message, capacity);
    if n == |head| {
      assert message[..n] == head;
      ReadCStringStopsAtTerminator(head, buf[n + 1..]);
    } else {
      assert message[..n] == head + [0] + message[|head| + 1..n];
      assert w == head + [0] + (message[|head| + 1..n] + [0] + buf[n + 1..]);
      ReadCStringStopsAtTerminator(head, message[|head| + 1..n] + [0] + buf[n + 1..]);
    }
  }

  /**
   * `mozilla::webgpu::ffi::WGPUErrorBuffer`: `chars` points at `capacity` bytes
   * owned by the C++ caller.
   */
  class ErrorBuffer {
    const chars: array<Byte>
    const capacity: nat

    ghost predicate Valid()
    {
      capacity <= chars.Length
    }

    constructor(storage: array<Byte>, capacity: nat)
      requires capacity <= storage.Length
      ensures Valid()
      ensures chars == storage && this.capacity == capacity
    {
      chars := storage;
      this.capacity := capacity;
    }

    /** Copies as much of `message` as fits, then a terminating zero. */
    method InitStr(message: seq<Byte>)
      requires Valid()
      requires capacity != 0
      modifies chars
      ensures chars[..] == Written(old(chars[..]), message, capacity)
    {
      var length := CopiedLength(|message|, capacity);
      for i := 0 to length
        invariant chars[..i] == message[..i]
        invariant chars[i..] == old(chars[i..])
      {
        chars[i] := message[i];
        assert chars[..i + 1] == chars[..i] + [message[i]];
        assert message[..i + 1] == message[..i] + [message[i]];
      }
      chars[length] := 0;
      assert chars[..] == message[..length] + [0] + old(chars[..])[length + 1..] by {
        assert chars[..] == chars[..length] + [chars[length]] + chars[length + 1..];
      }
    }

    /** Writes the error's message and its whole chain of causes. */
    method Init(error: Error)
      requires Valid()
      requires capacity != 0
      modifies chars
      ensures chars[..] == Written(old(chars[..]), ChainText(error), capacity)
    {
      var message := FormatErrorChain(error);
      InitStr(message);
    }
  }

  type AdapterId = nat

  /** The first position of `id` in `ids`, as `Iterator::position` finds it. */
  function Position(ids: seq<AdapterId>, id: AdapterId): (p: nat)
    requires id in ids
    ensures p < |ids| && ids[p] == id
    ensures forall j :: 0 <= j < p ==> ids[j] != id
  {
    if ids[0] == id then 0 else 1 + Position(ids[1..], id)
  }

  /** Rust's `as i8` on a non-negative integer: keep the low eight bits, two's complement. */
  function AsI8(n: nat): (r: int)
    ensures -128 <= r < 128
    ensures (r - n) % 256 == 0
    ensures n < 128 ==> r == n
  {
    var low := n % 256;
    if low < 128 then low else low - 256
  }

  /**
   * The answer of `wgpu_server_instance_request_adapter` as written: the
   * chosen adapter's position narrowed to `i8`, or -1 on error.
   */
  function RequestAdapterAnswerAsWritten(ids: seq<AdapterId>, outcome: Result<AdapterId, Error>): (r: int)
    requires outcome.Ok? ==> outcome.value in ids
    ensures -128 <= r < 128
    ensures outcome.Err? ==> r == -1
    ensures outcome.Ok? && Position(ids, outcome.value) < 128 ==> r == Position(ids, outcome.value)
  {
    match outcome
    case Ok(id) => AsI8(Position(ids, id))
    case Err(_) => -1
  }

  /** With 256 ids, choosing the last one answers -1, the error code. */
  lemma AdapterAnswerCollidesWithError()
    ensures var ids := seq(256, i => i);
            255 in ids && RequestAdapterAnswerAsWritten(ids, Ok(255)) == -1
  {
    var ids: seq<AdapterId> := seq(256, i => i);
    assert ids[255] == 255;
    assert Position(ids, 255) == 255;
  }

  /**
   * The answer as documented: the chosen adapter's position in `ids`, or -1
   * when no adapter could be picked; the two never coincide.
   */
  function RequestAdapterAnswer(ids: seq<AdapterId>, outcome: Result<AdapterId, Error>): (r: int)
    requires outcome.Ok? ==> outcome.value in ids
    ensures r == -1 <==> outcome.Err?
    ensures outcome.Ok? ==> 0 <= r < |ids| && ids[r] == outcome.value
    ensures outcome.Ok? && |ids| <= 128 ==> r == RequestAdapterAnswerAsWritten(ids, outcome)
  {
    match outcome
    case Ok(id) => Position(ids, id)
    case Err(_) => -1
  }

  /**
   * `wgpu_server_instance_request_adapter`: `outcome` is what the global's
   * `request_adapter` decided, always one of `ids` when it succeeds. On
   * failure the error's message goes into `errorBuffer`.
   */
  method RequestAdapter(ids: seq<AdapterId>, outcome: Result<AdapterId, Error>, errorBuffer: ErrorBuffer)
    returns (r: int)
    requires outcome.Ok? ==> outcome.value in ids
    requires outcome.Err? ==> errorBuffer.Valid() && errorBuffer.capacity != 0
    modifies errorBuffer.chars
    ensures r == RequestAdapterAnswer(ids, outcome)
    ensures outcome.Ok? ==> errorBuffer.chars[..] == old(errorBuffer.chars[..])
    ensures outcome.Err? ==>
              errorBuffer.chars[..] == Written(old(errorBuffer.chars[..]), ChainText(outcome.error), errorBuffer.capacity)
  {
    match outcome
    case Ok(id) =>
      r := Position(ids, id);
    case Err(e) =>
      errorBuffer.Init(e);
      r := -1;
  }
}
