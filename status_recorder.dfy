/** The response status recorder of internal/middleware/status_recorder.go: a
    wrapper around an HTTP response writer that remembers the first status
    code, every body byte written and the last write error. */
module StatusRecording {
  import opened Wrappers

  type Byte = bv8

  /** `http.StatusOK`, the code a recorder starts with. */
  const StatusOK: int := 200

  /** What the wrapped writer answered to a `Write`: bytes written and error. */
  datatype Reply = Reply(n: int, err: Option<Error>)

  /** The recorder's own fields. */
  datatype Recorder = Recorder(statusCode: int, err: Option<Error>, body: seq<Byte>, headerWritten: bool)

  /** The recorder the logging middleware creates for each request. */
  function Fresh(): (r: Recorder)
    ensures r.statusCode == 200 && !r.headerWritten && r.err == None && r.body == []
  {
    Recorder(StatusOK, None, [], false)
  }

  /** The recorder after `WriteHeader(code)`: the first call wins, later ones are ignored. */
  function AfterWriteHeader(r: Recorder, code: int): (r': Recorder)
    ensures r.headerWritten ==> r' == r
    ensures !r.headerWritten ==> r'.statusCode == code && r'.headerWritten
    ensures r'.body == r.body && r'.err == r.err
  {
    if r.headerWritten then r else r.(statusCode := code, headerWritten := true)
  }

  /** The recorder after `Write(b)` whose wrapped write failed with `err`, if
      any: all of `b` is captured; a failure is remembered, a success does not
      clear an earlier one. */
  function AfterWrite(r: Recorder, b: seq<Byte>, err: Option<Error>): (r': Recorder)
    ensures r'.body == r.body + b
    ensures err.Some? ==> r'.err == err
    ensures err.None? ==> r'.err == r.err
    ensures r'.statusCode == r.statusCode && r'.headerWritten == r.headerWritten
  {
    r.(err := if err.Some? then err else r.err, body := r.body + b)
  }

  /** One call a handler makes on the recorder. */
  datatype Call = WriteHeaderCall(code: int) | WriteCall(data: seq<Byte>, reply: Reply)

  function Apply(r: Recorder, c: Call): Recorder {
    match c
    case WriteHeaderCall(code) => AfterWriteHeader(r, code)
    case WriteCall(data, reply) => AfterWrite(r, data, reply.err)
  }

  /** The recorder after the handler made `calls`, in order. */
  function Replay(r: Recorder, calls: seq<Call>): Recorder
    decreases |calls|
  {
    if calls == [] then r else Replay(Apply(r, calls[0]), calls[1..])
  }

  /** The code of the first `WriteHeader` call, if there is one. */
  function FirstHeader(calls: seq<Call>): Option<int>
    decreases |calls|
  {
    if calls == [] then None
    else if calls[0].WriteHeaderCall? then Some(calls[0].code)
    else FirstHeader(calls[1..])
  }

  /** Every byte passed to `Write`, in call order. */
  function Payload(calls: seq<Call>): seq<Byte>
    decreases |calls|
  {
    if calls == [] then []
    else (if calls[0].WriteCall? then calls[0].data else []) + Payload(calls[1..])
  }

  /** The error of the last `Write` whose wrapped write failed, if any. */
  function LastError(calls: seq<Call>): Option<Error>
    decreases |calls|
  {
    if calls == [] then None
    else
      match LastError(calls[1..])
      case Some(e) => Some(e)
      case None => if calls[0].WriteCall? then calls[0].reply.err else None
  }

  /** The first `WriteHeader` wins: the recorded status is that call's code, or
      the starting code when no call set one; writes never change it. */
  lemma {:induction false} FirstHeaderWins(r: Recorder, calls: seq<Call>)
    ensures Replay(r, calls).headerWritten <==> r.headerWritten || FirstHeader(calls).Some?
    ensures Replay(r, calls).statusCode ==
      if r.headerWritten then r.statusCode else FirstHeader(calls).GetOr(r.statusCode)
    decreases |calls|
  {
    if calls != [] {
      FirstHeaderWins(Apply(r, calls[0]), calls[1..]);
    }
  }

  /** The body buffer ends up holding every written byte, in order. */
  lemma {:induction false} BodyCapturesAllWrites(r: Recorder, calls: seq<Call>)
    ensures Replay(r, calls).body == r.body + Payload(calls)
    decreases |calls|
  {
    if calls != [] {
      var c := calls[0];
      BodyCapturesAllWrites(Apply(r, c), calls[1..]);
      assert Apply(r, c).body == r.body + (if c.WriteCall? then c.data else []);
    }
  }

  /** The recorded error is the last failed write's error; successful writes never clear it. */
  lemma {:induction false} LastErrorKept(r: Recorder, calls: seq<Call>)
    ensures Replay(r, calls).err == if LastError(calls).Some? then LastError(calls) else r.err
    decreases |calls|
  {
    if calls != [] {
      LastErrorKept(Apply(r, calls[0]), calls[1..]);
    }
  }

  /** For a fresh recorder: the logged status is 200 unless a handler called
      `WriteHeader`, in which case it is the code of its first call. */
  lemma LoggedStatus(calls: seq<Call>)
    ensures Replay(Fresh(), calls).statusCode == FirstHeader(calls).GetOr(200)
    ensures Replay(Fresh(), calls).body == Payload(calls)
    ensures Replay(Fresh(), calls).err == LastError(calls)
  {
    FirstHeaderWins(Fresh(), calls);
    BodyCapturesAllWrites(Fresh(), calls);
    LastErrorKept(Fresh(), calls);
  }

  /** The wrapped `http.ResponseWriter`, seen through what it receives. What it
      answers to a write is decided outside the model and passed in. */
  class ResponseSink {
    var headers: seq<int>
    var written: seq<seq<Byte>>

    constructor ()
      ensures headers == [] && written == []
    {
      headers := [];
      written := [];
    }

    method WriteHeader(code: int)
      modifies this
      ensures headers == old(headers) + [code] && written == old(written)
    {
      headers := headers + [code];
    }

    method Write(b: seq<Byte>, reply: Reply) returns (n: int, err: Option<Error>)
      modifies this
      ensures written == old(written) + [b] && headers == old(headers)
      ensures n == reply.n && err == reply.err
    {
      written := written + [b];
      n, err := reply.n, reply.err;
    }
  }

  class StatusRecorder {
    const writer: ResponseSink
    var statusCode: int
    var err: Option<Error>
    var body: seq<Byte>
    var headerWritten: bool

    ghost function State(): Recorder
      reads this
    {
      Recorder(statusCode, err, body, headerWritten)
    }

    /** The recorder the logging middleware wraps around each response. */
    constructor (w: ResponseSink)
      ensures writer == w
      ensures State() == Fresh()
    {
      writer := w;
      statusCode := StatusOK;
      err := None;
      body := [];
      headerWritten := false;
    }

    /** Records and forwards the first status code; later calls do nothing. */
    method WriteHeader(code: int)
      modifies this, writer
      ensures State() == AfterWriteHeader(old(State()), code)
      ensures writer.headers == if old(headerWritten) then old(writer.headers) else old(writer.headers) + [code]
      ensures writer.written == old(writer.written)
    {
      if headerWritten {
        return;
      }
      statusCode := code;
      headerWritten := true;
      writer.WriteHeader(code);
    }

    /** Forwards `b`, remembers a failure, captures `b` in the body and returns
        the wrapped writer's answer unchanged. */
    method Write(b: seq<Byte>, reply: Reply) returns (n: int, e: Option<Error>)
      modifies this, writer
      ensures n == reply.n && e == reply.err
      ensures State() == AfterWrite(old(State()), b, reply.err)
      ensures writer.written == old(writer.written) + [b] && writer.headers == old(writer.headers)
    {
      n, e := writer.Write(b, reply);
      if e.Some? {
        err := e;
      }
      body := body + b;
    }
  }
}
