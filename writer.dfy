/**
 * The response capture wrapper: a ResponseWriter that tees every write into
 * `text` and makes sure a status line goes out before the first body bytes.
 * The wrapped ResponseWriter is modelled by the sequence of calls it receives.
 */
module Writers {
  import opened Wrappers

  /** http.StatusOK */
  const StatusOK := 200

  /** A call received by the wrapped ResponseWriter. */
  datatype SinkCall = SinkWriteHeader(code: int) | SinkWrite(data: string)

  /**
   * A call the downstream handler makes on the writer it is given. For a
   * write, `sinkN` and `sinkErr` are what the wrapped writer answers.
   */
  datatype WriterOp =
    | OpWriteHeader(code: int)
    | OpWrite(data: string, sinkN: int, sinkErr: Option<string>)

  /** The body bytes a sink has been sent, in order. */
  function ForwardedBytes(trace: seq<SinkCall>): string {
    if trace == [] then ""
    else
      var last := trace[|trace| - 1];
      ForwardedBytes(trace[..|trace| - 1]) + (if last.SinkWrite? then last.data else "")
  }

  class Writer {
    /** The captured body. */
    var text: string
    var wroteHeader: bool
    /** The calls forwarded to the wrapped ResponseWriter so far. */
    var trace: seq<SinkCall>

    /** NewWriter(res) */
    constructor ()
      ensures text == "" && !wroteHeader && trace == []
    {
      text, wroteHeader, trace := "", false, [];
    }

    method WriteHeader(code: int)
      modifies this
      ensures trace == old(trace) + [SinkWriteHeader(code)]
      ensures wroteHeader
      ensures text == old(text)
    {
      trace := trace + [SinkWriteHeader(code)];
      if wroteHeader {
        return;
      }
      wroteHeader := true;
    }

    method Write(b: string, sinkN: int, sinkErr: Option<string>) returns (n: int, err: Option<string>)
      modifies this
      ensures text == old(text) + b
      ensures trace == old(trace) + (if old(wroteHeader) then [] else [SinkWriteHeader(StatusOK)]) + [SinkWrite(b)]
      ensures wroteHeader
      ensures n == sinkN && err == sinkErr
    {
      if !wroteHeader {
        WriteHeader(StatusOK);
      }
      text := text + b;
      trace := trace + [SinkWrite(b)];
      n, err := sinkN, sinkErr;
    }

    /** The captured body. */
    function Body(): string
      reads this
    {
      text
    }
  }

  /** The bytes a handler wrote through a sequence of calls. */
  function Written(ops: seq<WriterOp>): string {
    if ops == [] then ""
    else
      var last := ops[|ops| - 1];
      Written(ops[..|ops| - 1]) + (if last.OpWrite? then last.data else "")
  }

  /** What the wrapper forwards for one call, given whether a status line already went out. */
  function Step(sent: bool, op: WriterOp): seq<SinkCall> {
    match op
    case OpWriteHeader(code) => [SinkWriteHeader(code)]
    case OpWrite(data, _, _) => (if sent then [] else [SinkWriteHeader(StatusOK)]) + [SinkWrite(data)]
  }

  /** What the wrapper forwards for a sequence of calls. */
  function Relay(sent: bool, ops: seq<WriterOp>): seq<SinkCall> {
    if ops == [] then []
    else Relay(sent, ops[..|ops| - 1]) + Step(sent || |ops| > 1, ops[|ops| - 1])
  }

  /** One more call extends what was written and what was forwarded by that call's share. */
  lemma OneMoreOp(sent: bool, ops: seq<WriterOp>, i: nat, text0: string, trace0: seq<SinkCall>)
    requires i < |ops|
    ensures text0 + Written(ops[..i + 1]) == (text0 + Written(ops[..i])) + (if ops[i].OpWrite? then ops[i].data else "")
    ensures trace0 + Relay(sent, ops[..i + 1]) == (trace0 + Relay(sent, ops[..i])) + Step(sent || i > 0, ops[i])
  {
    assert ops[..i + 1][..i] == ops[..i];
  }

  /** One call of the downstream handler on the wrapper. */
  method Apply(w: Writer, op: WriterOp)
    modifies w
    ensures w.text == old(w.text) + (if op.OpWrite? then op.data else "")
    ensures w.trace == old(w.trace) + Step(old(w.wroteHeader), op)
    ensures w.wroteHeader
  {
    if op.OpWriteHeader? {
      w.WriteHeader(op.code);
    } else {
      var _, _ := w.Write(op.data, op.sinkN, op.sinkErr);
    }
  }

  /** The downstream handler's calls, made on the wrapper one after the other. */
  method Drive(w: Writer, ops: seq<WriterOp>)
    modifies w
    ensures w.text == old(w.text) + Written(ops)
    ensures w.trace == old(w.trace) + Relay(old(w.wroteHeader), ops)
    ensures w.wroteHeader == (old(w.wroteHeader) || |ops| > 0)
  {
    ghost var text0, trace0, sent0 := w.text, w.trace, w.wroteHeader;
    var i := 0;
    while i < |ops|
      invariant 0 <= i <= |ops|
      invariant w.text == text0 + Written(ops[..i])
      invariant w.trace == trace0 + Relay(sent0, ops[..i])
      invariant w.wroteHeader == (sent0 || i > 0)
    {
      OneMoreOp(sent0, ops, i, text0, trace0);
      Apply(w, ops[i]);
      i := i + 1;
    }
    assert ops[..i] == ops;
  }

  lemma {:induction false} ForwardedBytesAppend(a: seq<SinkCall>, b: seq<SinkCall>)
    ensures ForwardedBytes(a + b) == ForwardedBytes(a) + ForwardedBytes(b)
    decreases |b|
  {
    if b != [] {
      var b' := b[..|b| - 1];
      assert (a + b)[..|a + b| - 1] == a + b';
      assert (a + b)[|a + b| - 1] == b[|b| - 1];
      ForwardedBytesAppend(a, b');
    } else {
      assert a + b == a;
    }
  }

  /** The body bytes forwarded for one call are the bytes that call wrote. */
  lemma StepBytes(sent: bool, op: WriterOp)
    ensures ForwardedBytes(Step(sent, op)) == (if op.OpWrite? then op.data else "")
  {
    if op.OpWrite? {
      var status: seq<SinkCall> := if sent then [] else [SinkWriteHeader(StatusOK)];
      ForwardedBytesAppend(status, [SinkWrite(op.data)]);
      assert [SinkWrite(op.data)][..0] == [];
    }
  }

  /**
   * The client receives exactly the bytes the handler wrote: the body data
   * the wrapper forwards is the concatenation of the handler's writes.
   */
  lemma {:induction false} RelayDeliversWritten(sent: bool, ops: seq<WriterOp>)
    ensures ForwardedBytes(Relay(sent, ops)) == Written(ops)
    decreases |ops|
  {
    if ops != [] {
      var init, last := ops[..|ops| - 1], ops[|ops| - 1];
      var step := Step(sent || |ops| > 1, last);
      RelayDeliversWritten(sent, init);
      ForwardedBytesAppend(Relay(sent, init), step);
      StepBytes(sent || |ops| > 1, last);
    }
  }

  /**
   * Through a fresh wrapper, the first thing the wrapped writer receives is
   * a status line, so no body byte reaches it first; a handler that writes
   * without setting a status gets status 200 sent before its bytes.
   */
  lemma StatusLineFirst(ops: seq<WriterOp>)
    requires |ops| > 0
    ensures |Relay(false, ops)| > 0 && Relay(false, ops)[0].SinkWriteHeader?
    ensures ops[0].OpWrite? ==>
      |Relay(false, ops)| >= 2 &&
      Relay(false, ops)[0] == SinkWriteHeader(StatusOK) &&
      Relay(false, ops)[1] == SinkWrite(ops[0].data)
  {
  }
}
