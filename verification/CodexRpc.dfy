/** packages/runtime/codex-rpc.js: newline-delimited JSON-RPC over a child process's pipes.

    Lines are bytes. How a line parses, whether it is blank and what the callbacks do are parameters. */
module CodexRpc {
  import opened Wrappers

  type Byte = b: int | 0 <= b < 256

  type Bytes = seq<Byte>

  type Message = nat
  type Code = nat
  type CallId = nat

  const NEWLINE: Byte := 10
  const FRAME_TOO_LARGE: Code := 1
  const PROTOCOL_INVALID: Code := 2
  const DISCONNECTED: Code := 3

  datatype Answer = Failure(code: Code) | Value(value: nat) | Neither

  /** A line as JSON-RPC: not an object, a call with or without an id, or something naming a pending id. */
  datatype Parsed = Malformed | Notification(message: Message) | Request(message: Message) | Reply(id: CallId, answer: Answer)

  /** `callback(history, m)` is the code the connection ends with when m is handled after `history`,
      because the callback threw or closed the connection, or None when it goes on. */
  datatype Env = Env(max: nat, blank: Bytes -> bool, parse: Bytes -> Parsed, callback: (seq<Message>, Message) -> Option<Code>)

  datatype Settlement = Resolved(value: nat) | Rejected(code: Code)

  datatype Rpc = Rpc(buffer: Bytes, delivered: seq<Message>, pending: set<CallId>, settled: map<CallId, Settlement>, nextId: CallId, error: Option<Code>)

  const FRESH: Rpc := Rpc([], [], {}, map[], 1, None)

  // ---- what each operation does ----

  function Fail(s: Rpc, code: Code): Rpc {
    if s.error.Some? then s
    else s.(error := Some(code), buffer := [], pending := {}, settled := s.settled + map i | i in s.pending :: Rejected(code))
  }

  function Settle(s: Rpc, id: CallId, outcome: Settlement): Rpc {
    s.(pending := s.pending - {id}, settled := s.settled[id := outcome])
  }

  function Deliver(env: Env, s: Rpc, m: Message): Rpc {
    var after := s.(delivered := s.delivered + [m]);
    var code := env.callback(s.delivered, m);
    if code.Some? then Fail(after, code.value) else after
  }

  function Handle(env: Env, s: Rpc, line: Bytes): Rpc {
    if |line| > env.max then Fail(s, FRAME_TOO_LARGE)
    else if env.blank(line) then s
    else
      match env.parse(line)
      case Malformed => Fail(s, PROTOCOL_INVALID)
      case Notification(m) => Deliver(env, s, m)
      case Request(m) => Deliver(env, s, m)
      case Reply(id, answer) =>
        if id !in s.pending then s
        else match answer
          case Failure(code) => Settle(s, id, Rejected(code))
          case Value(v) => Settle(s, id, Resolved(v))
          case Neither => Fail(Settle(s, id, Rejected(PROTOCOL_INVALID)), PROTOCOL_INVALID)
  }

  /** The position of the first newline, or the length when there is none. */
  function LineEnd(b: Bytes): (n: nat)
    ensures n <= |b| && (forall k :: 0 <= k < n ==> b[k] != NEWLINE) && (n < |b| ==> b[n] == NEWLINE)
  {
    if b == [] || b[0] == NEWLINE then 0 else 1 + LineEnd(b[1..])
  }

  /** Every complete line in the buffer, until an error. */
  function Drain(env: Env, s: Rpc): Rpc
    decreases |s.buffer|
  {
    var n := LineEnd(s.buffer);
    if s.error.Some? || n == |s.buffer| then s
    else Drain(env, Handle(env, s.(buffer := s.buffer[n + 1..]), s.buffer[..n]))
  }

  function Receive(env: Env, s: Rpc, data: Bytes): Rpc {
    if s.error.Some? then s
    else
      var d := Drain(env, s.(buffer := s.buffer + data));
      if d.error.None? && |d.buffer| > env.max then Fail(d, FRAME_TOO_LARGE) else d
  }

  function ReceiveAll(env: Env, s: Rpc, chunks: seq<Bytes>): Rpc
    decreases |chunks|
  {
    if chunks == [] then s else ReceiveAll(env, Receive(env, s, chunks[0]), chunks[1..])
  }

  function Flatten(chunks: seq<Bytes>): Bytes { if chunks == [] then [] else chunks[0] + Flatten(chunks[1..]) }

  // ---- chunking makes no difference ----

  /** Handling a line does not look at what else is buffered. */
  lemma HandleIgnoresBuffer(env: Env, s: Rpc, line: Bytes, b: Bytes)
    requires s.error.None?
    ensures var h := Handle(env, s, line);
      Handle(env, s.(buffer := b), line) == if h.error.Some? then h else h.(buffer := b)
  {
  }

  lemma {:induction false} LineEndOf(b: Bytes, more: Bytes)
    ensures LineEnd(b + more) == if LineEnd(b) < |b| then LineEnd(b) else |b| + LineEnd(more)
  {
    if b == [] {
      assert b + more == more;
    } else {
      assert (b + more)[1..] == b[1..] + more;
      if b[0] != NEWLINE { LineEndOf(b[1..], more); }
    }
  }

  /** The first line of the buffer is handled with the rest still there. */
  lemma DrainFirst(env: Env, s: Rpc, line: Bytes, rest: Bytes)
    requires s.error.None? && LineEnd(line) == |line|
    ensures Drain(env, s.(buffer := line + [NEWLINE] + rest)) == Drain(env, Handle(env, s.(buffer := rest), line))
  {
    var b := line + [NEWLINE] + rest;
    assert b == line + ([NEWLINE] + rest);
    LineEndOf(line, [NEWLINE] + rest);
    assert LineEnd(b) == |line|;
    assert b[..|line|] == line && b[|line| + 1..] == rest;
    assert s.(buffer := b).(buffer := rest) == s.(buffer := rest);
  }

  lemma {:induction false} LineEndCut(b: Bytes)
    ensures LineEnd(b[..LineEnd(b)]) == LineEnd(b)
  {
    if b != [] && b[0] != NEWLINE {
      assert b[..LineEnd(b)][1..] == b[1..][..LineEnd(b[1..])];
      LineEndCut(b[1..]);
    }
  }

  /** Draining first and appending later is draining it all, unless an error stopped the first part. */
  lemma {:induction false} DrainAppend(env: Env, s: Rpc, more: Bytes)
    requires s.error.None?
    ensures var d := Drain(env, s);
      Drain(env, s.(buffer := s.buffer + more)) == if d.error.Some? then d else Drain(env, d.(buffer := d.buffer + more))
    decreases |s.buffer|
  {
    var n := LineEnd(s.buffer);
    if n < |s.buffer| {
      var rest, line := s.buffer[n + 1..], s.buffer[..n];
      LineEndCut(s.buffer);
      assert s.buffer == line + [NEWLINE] + rest;
      assert s.buffer + more == line + [NEWLINE] + (rest + more);
      assert s == s.(buffer := line + [NEWLINE] + rest);
      DrainFirst(env, s, line, rest);
      DrainFirst(env, s, line, rest + more);
      AppendAfterLine(env, s, line, rest, more);
    }
  }

  lemma {:induction false} AppendAfterLine(env: Env, s: Rpc, line: Bytes, rest: Bytes, more: Bytes)
    requires s.error.None? && |rest| < |s.buffer|
    ensures var d := Drain(env, Handle(env, s.(buffer := rest), line));
      Drain(env, Handle(env, s.(buffer := rest + more), line)) == if d.error.Some? then d else Drain(env, d.(buffer := d.buffer + more))
    decreases |s.buffer|, 0
  {
    var s1 := s.(buffer := rest);
    var h := Handle(env, s1, line);
    HandleIgnoresBuffer(env, s1, line, rest + more);
    assert s1.(buffer := rest + more) == s.(buffer := rest + more);
    if h.error.None? {
      HandleIgnoresBuffer(env, s1, line, rest);
      DrainAppend(env, h, more);
    }
  }

  lemma {:induction false} DrainLeavesNoLine(env: Env, s: Rpc)
    ensures Drain(env, s).error.None? ==> LineEnd(Drain(env, s).buffer) == |Drain(env, s).buffer|
    decreases |s.buffer|
  {
    var n := LineEnd(s.buffer);
    if s.error.None? && n < |s.buffer| {
      DrainLeavesNoLine(env, Handle(env, s.(buffer := s.buffer[n + 1..]), s.buffer[..n]));
    }
  }

  /** A line already longer than the limit fails the same way however it goes on. */
  lemma OverlongFails(env: Env, d: Rpc, more: Bytes)
    requires d.error.None? && LineEnd(d.buffer) == |d.buffer| > env.max
    ensures Receive(env, d, more) == Fail(d, FRAME_TOO_LARGE)
  {
    LineEndOf(d.buffer, more);
    var s := d.(buffer := d.buffer + more);
    var n := LineEnd(s.buffer);
    assert n >= |d.buffer|;
    if n < |s.buffer| {
      var s1 := s.(buffer := s.buffer[n + 1..]);
      assert |s.buffer[..n]| > env.max;
      assert Handle(env, s1, s.buffer[..n]) == Fail(d, FRAME_TOO_LARGE);
      assert Drain(env, Fail(d, FRAME_TOO_LARGE)) == Fail(d, FRAME_TOO_LARGE);
    } else {
      assert Drain(env, s) == s;
    }
  }

  lemma TwoChunks(env: Env, s: Rpc, x: Bytes, y: Bytes)
    ensures Receive(env, Receive(env, s, x), y) == Receive(env, s, x + y)
  {
    if s.error.None? {
      var sx := s.(buffer := s.buffer + x);
      var d := Drain(env, sx);
      assert s.buffer + x + y == s.buffer + (x + y);
      DrainAppend(env, sx, y);
      DrainLeavesNoLine(env, sx);
      if d.error.None? && |d.buffer| > env.max { OverlongFails(env, d, y); }
    }
  }

  /** Nothing left to do: in error, or holding one unfinished line within the limit. */
  predicate Quiet(env: Env, s: Rpc) { s.error.Some? || LineEnd(s.buffer) == |s.buffer| <= env.max }

  /** However a stream is cut into chunks, the messages handed on, the calls settled and the error the
      connection ends with are those of receiving it in one piece. */
  lemma {:induction false} ChunkingIsInvisible(env: Env, s: Rpc, chunks: seq<Bytes>)
    requires Quiet(env, s)
    ensures ReceiveAll(env, s, chunks) == Receive(env, s, Flatten(chunks))
    decreases |chunks|
  {
    if chunks == [] {
      assert s.buffer + [] == s.buffer;
    } else {
      var s1 := Receive(env, s, chunks[0]);
      DrainLeavesNoLine(env, s.(buffer := s.buffer + chunks[0]));
      ChunkingIsInvisible(env, s1, chunks[1..]);
      TwoChunks(env, s, chunks[0], Flatten(chunks[1..]));
    }
  }

  // ---- frames accepted by `send` are recovered ----

  type Encoder = Message -> Bytes

  /** What the peer relies on: serialized JSON has no raw newline and is not blank, and parses back to
      a call. */
  ghost predicate Faithful(env: Env, encode: Encoder) {
    forall m :: LineEnd(encode(m)) == |encode(m)| && !env.blank(encode(m))
                && (env.parse(encode(m)) == Notification(m) || env.parse(encode(m)) == Request(m))
  }

  /** `send` refuses a frame whose length with its newline is over the limit. */
  predicate Sendable(env: Env, encode: Encoder, m: Message) { |encode(m)| + 1 <= env.max }

  function Frames(encode: Encoder, ms: seq<Message>): Bytes { if ms == [] then [] else encode(ms[0]) + [NEWLINE] + Frames(encode, ms[1..]) }

  lemma FrameDrains(env: Env, s: Rpc, encode: Encoder, m: Message, rest: Bytes)
    requires Faithful(env, encode) && (forall h, x :: env.callback(h, x).None?) && Sendable(env, encode, m)
    requires s.error.None?
    ensures Drain(env, s.(buffer := encode(m) + [NEWLINE] + rest)) == Drain(env, s.(buffer := rest, delivered := s.delivered + [m]))
  {
    var line := encode(m);
    DrainFirst(env, s, line, rest);
    assert env.callback(s.delivered, m).None?;
    assert Handle(env, s.(buffer := rest), line) == Deliver(env, s.(buffer := rest), m);
  }

  lemma {:induction false} FramesDrain(env: Env, s: Rpc, encode: Encoder, ms: seq<Message>)
    requires Faithful(env, encode) && (forall h, m :: env.callback(h, m).None?)
    requires s.error.None? && s.buffer == [] && (forall m :: m in ms ==> Sendable(env, encode, m))
    ensures Drain(env, s.(buffer := Frames(encode, ms))) == s.(delivered := s.delivered + ms)
    decreases |ms|
  {
    if ms == [] {
      assert s.(buffer := []) == s && s.delivered + [] == s.delivered;
    } else {
      var m, after := ms[0], ms[1..];
      assert Sendable(env, encode, m) && forall x :: x in after ==> x in ms;
      var s1 := s.(delivered := s.delivered + [m]);
      assert s1.delivered + after == s.delivered + ms;
      FramesDrain(env, s1, encode, after);
      FrameDrains(env, s, encode, m, Frames(encode, after));
    }
  }

  /** Any messages `send` accepts arrive exactly, in order, through any chunking. */
  lemma SentIsReceived(env: Env, encode: Encoder, ms: seq<Message>, chunks: seq<Bytes>)
    requires Faithful(env, encode) && (forall h, m :: env.callback(h, m).None?)
    requires (forall m :: m in ms ==> Sendable(env, encode, m)) && Flatten(chunks) == Frames(encode, ms)
    ensures ReceiveAll(env, FRESH, chunks) == FRESH.(delivered := ms)
  {
    ChunkingIsInvisible(env, FRESH, chunks);
    assert [] + Flatten(chunks) == Flatten(chunks);
    FramesDrain(env, FRESH, encode, ms);
    assert [] + ms == ms;
  }

  // ---- every call is settled once ----

  /** `fits` and `written` say whether the frame is within the limit and the pipe took it. */
  function Call(s: Rpc, fits: bool, written: bool): Rpc {
    if s.error.Some? then s
    else
      var id := s.nextId;
      var asked := s.(nextId := id + 1, pending := s.pending + {id});
      if !fits then Settle(asked, id, Rejected(FRAME_TOO_LARGE))
      else if !written then Fail(asked, DISCONNECTED)
      else asked
  }

  datatype Event = Called(fits: bool, written: bool) | Received(data: Bytes) | Failed(code: Code)

  function Step(env: Env, s: Rpc, e: Event): Rpc {
    match e
    case Called(fits, written) => Call(s, fits, written)
    case Received(data) => Receive(env, s, data)
    case Failed(code) => Fail(s, code)
  }

  function Run(env: Env, s: Rpc, events: seq<Event>): Rpc
    decreases |events|
  {
    if events == [] then s else Run(env, Step(env, s, events[0]), events[1..])
  }

  /** Every id ever used is either waiting or settled, never both, and an error leaves none waiting. */
  ghost predicate CallsInv(s: Rpc) {
    && (forall i: CallId :: 1 <= i < s.nextId <==> i in s.pending || i in s.settled)
    && s.nextId >= 1 && s.pending !! s.settled.Keys
    && (s.error.Some? ==> s.pending == {})
  }

  /** Outcomes already given stay as they were, and so does the error a connection ended with, and what it
      handed on before. */
  ghost predicate Keeps(s: Rpc, s': Rpc) {
    && (s.error.Some? ==> s'.error == s.error) && s.delivered <= s'.delivered
    && forall i :: i in s.settled ==> i in s'.settled && s'.settled[i] == s.settled[i]
  }

  lemma HandleKeepsCalls(env: Env, s: Rpc, line: Bytes)
    requires CallsInv(s) && s.error.None?
    ensures CallsInv(Handle(env, s, line)) && Keeps(s, Handle(env, s, line))
  {
  }

  lemma {:induction false} DrainKeepsCalls(env: Env, s: Rpc)
    requires CallsInv(s)
    ensures CallsInv(Drain(env, s)) && Keeps(s, Drain(env, s))
    decreases |s.buffer|
  {
    var n := LineEnd(s.buffer);
    if s.error.None? && n < |s.buffer| {
      var s1 := s.(buffer := s.buffer[n + 1..]);
      HandleKeepsCalls(env, s1, s.buffer[..n]);
      DrainKeepsCalls(env, Handle(env, s1, s.buffer[..n]));
    }
  }

  lemma FailKeepsCalls(s: Rpc, code: Code)
    requires CallsInv(s)
    ensures CallsInv(Fail(s, code)) && Keeps(s, Fail(s, code))
  {
  }

  lemma CallKeepsCalls(s: Rpc, fits: bool, written: bool)
    requires CallsInv(s)
    ensures CallsInv(Call(s, fits, written)) && Keeps(s, Call(s, fits, written))
  {
    var asked := s.(nextId := s.nextId + 1, pending := s.pending + {s.nextId});
    if s.error.None? {
      assert s.nextId !in s.settled && s.nextId !in s.pending;
      assert CallsInv(asked);
      FailKeepsCalls(asked, DISCONNECTED);
    }
  }

  lemma StepKeepsCalls(env: Env, s: Rpc, e: Event)
    requires CallsInv(s)
    ensures CallsInv(Step(env, s, e)) && Keeps(s, Step(env, s, e))
  {
    match e
    case Called(fits, written) => CallKeepsCalls(s, fits, written);
    case Received(data) =>
      var s1 := s.(buffer := s.buffer + data);
      DrainKeepsCalls(env, s1);
      FailKeepsCalls(Drain(env, s1), FRAME_TOO_LARGE);
    case Failed(code) => FailKeepsCalls(s, code);
  }

  /** Over every run, each call is settled at most once, and exactly once if the connection ends. */
  lemma {:induction false} CallsSettleOnce(env: Env, s: Rpc, events: seq<Event>)
    requires CallsInv(s)
    ensures CallsInv(Run(env, s, events)) && Keeps(s, Run(env, s, events))
    decreases |events|
  {
    if events != [] {
      StepKeepsCalls(env, s, events[0]);
      CallsSettleOnce(env, Step(env, s, events[0]), events[1..]);
    }
  }

  // ---- what a line does ----

  /** The line ends the connection with this code: it is too long, or says nothing sensible, or answers a
      waiting call with neither a result nor an error, or what it was handed to ends it. */
  ghost predicate EndsWith(env: Env, s: Rpc, line: Bytes, code: Code) {
    if |line| > env.max then code == FRAME_TOO_LARGE
    else
      !env.blank(line)
      && match env.parse(line)
         case Malformed => code == PROTOCOL_INVALID
         case Notification(m) => env.callback(s.delivered, m) == Some(code)
         case Request(m) => env.callback(s.delivered, m) == Some(code)
         case Reply(id, answer) => id in s.pending && answer.Neither? && code == PROTOCOL_INVALID
  }

  /** The line settles this call: with the value it carries, or the failure. */
  ghost predicate Answers(env: Env, s: Rpc, line: Bytes, id: CallId, outcome: Settlement) {
    && |line| <= env.max && !env.blank(line) && id in s.pending
    && match outcome
       case Resolved(value) => env.parse(line) == Reply(id, Value(value))
       case Rejected(code) => env.parse(line) == Reply(id, Failure(code)) || (env.parse(line) == Reply(id, Neither) && code == PROTOCOL_INVALID)
  }

  /** Each line hands on the call it is, or settles the one it answers, or ends the connection and rejects every
      call that waits; and nothing else. */
  lemma HandlesExactly(env: Env, s: Rpc, line: Bytes, id: CallId)
    requires s.error.None? && id in s.pending && id !in s.settled
    ensures var h := Handle(env, s, line);
      && (forall code: Code :: h.error == Some(code) <==> EndsWith(env, s, line, code))
      && (h.delivered == s.delivered ||
            exists m :: h.delivered == s.delivered + [m] && |line| <= env.max && !env.blank(line) && env.parse(line) in {Notification(m), Request(m)})
      && (|line| <= env.max && !env.blank(line) && (env.parse(line).Notification? || env.parse(line).Request?) ==>
            h.delivered == s.delivered + [env.parse(line).message])
      && (forall outcome: Settlement :: Answers(env, s, line, id, outcome) ==> id in h.settled && h.settled[id] == outcome)
      && (id in h.settled && h.error.None? ==> Answers(env, s, line, id, h.settled[id]))
      && (h.error.Some? ==> id in h.settled && (h.settled[id] == Rejected(h.error.value) || Answers(env, s, line, id, h.settled[id])))
  {
  }

  // ---- responses reach their calls ----

  /** A response says whether the call succeeded. */
  datatype Response = Response(id: CallId, outcome: Settlement)

  /** What this end relies on: a response is one line, not blank, and parses to what it is. */
  ghost predicate Truthful(env: Env, encode: Response -> Bytes) {
    forall r :: LineEnd(encode(r)) == |encode(r)| && !env.blank(encode(r)) && |encode(r)| <= env.max
      && env.parse(encode(r)) == Reply(r.id, if r.outcome.Resolved? then Value(r.outcome.value) else Failure(r.outcome.code))
  }

  function ResponseLines(encode: Response -> Bytes, rs: seq<Response>): Bytes {
    if rs == [] then [] else encode(rs[0]) + [NEWLINE] + ResponseLines(encode, rs[1..])
  }

  /** The first response to a call. */
  function FirstFor(rs: seq<Response>, id: CallId): Option<Settlement> {
    if rs == [] then None else if rs[0].id == id then Some(rs[0].outcome) else FirstFor(rs[1..], id)
  }

  /** What one response does. */
  function Taken(s: Rpc, r: Response): Rpc { if r.id in s.pending then Settle(s, r.id, r.outcome) else s }

  lemma ResponseHandled(env: Env, s: Rpc, encode: Response -> Bytes, r: Response)
    requires Truthful(env, encode)
    ensures Handle(env, s, encode(r)) == Taken(s, r)
  {
  }

  lemma ResponseDrains(env: Env, s: Rpc, encode: Response -> Bytes, r: Response, rest: Bytes)
    requires Truthful(env, encode) && s.error.None?
    ensures Drain(env, s.(buffer := encode(r) + [NEWLINE] + rest)) == Drain(env, Taken(s, r).(buffer := rest))
  {
    DrainFirst(env, s, encode(r), rest);
    ResponseHandled(env, s.(buffer := rest), encode, r);
  }

  /** What responses leave of a connection: each call it waited for settled by the first response to it, the rest
      still waiting, and nothing else changed. */
  ghost predicate SettledBy(s: Rpc, s': Rpc, rs: seq<Response>) {
    && s' == s.(pending := s'.pending, settled := s'.settled)
    && (forall id :: id in s'.pending <==> id in s.pending && FirstFor(rs, id).None?)
    && (forall id :: id in s'.settled <==> id in s.settled || (id in s.pending && FirstFor(rs, id).Some?))
    && (forall id :: id in s'.settled ==> Some(s'.settled[id]) == if id in s.pending && FirstFor(rs, id).Some? then FirstFor(rs, id) else Some(s.settled[id]))
  }

  lemma SettledByOneMore(s: Rpc, s': Rpc, rs: seq<Response>)
    requires rs != [] && SettledBy(Taken(s, rs[0]), s', rs[1..]) && s.pending !! s.settled.Keys
    ensures SettledBy(s, s', rs)
  {
    var r, s1 := rs[0], Taken(s, rs[0]);
    forall id ensures FirstFor(rs, id) == if r.id == id then Some(r.outcome) else FirstFor(rs[1..], id) {}
    forall id ensures id in s1.pending <==> id in s.pending && id != r.id {}
  }

  lemma {:induction false} ResponsesDrain(env: Env, s: Rpc, encode: Response -> Bytes, rs: seq<Response>)
    requires Truthful(env, encode) && s.error.None? && s.buffer == [] && s.pending !! s.settled.Keys
    ensures SettledBy(s, Drain(env, s.(buffer := ResponseLines(encode, rs))), rs)
    decreases |rs|
  {
    if rs == [] {
      assert s.(buffer := []) == s;
    } else {
      ResponseDrains(env, s, encode, rs[0], ResponseLines(encode, rs[1..]));
      ResponsesDrain(env, Taken(s, rs[0]), encode, rs[1..]);
      SettledByOneMore(s, Drain(env, s.(buffer := ResponseLines(encode, rs))), rs);
    }
  }

  /** Each waiting call is settled by the first response to it, with exactly what that says, through any
      chunking; responses to nothing, and further ones, change nothing. */
  lemma ResponsesArrive(env: Env, s: Rpc, encode: Response -> Bytes, rs: seq<Response>, chunks: seq<Bytes>)
    requires Truthful(env, encode) && CallsInv(s) && s.error.None? && s.buffer == [] && Flatten(chunks) == ResponseLines(encode, rs)
    ensures SettledBy(s, ReceiveAll(env, s, chunks), rs)
  {
    ChunkingIsInvisible(env, s, chunks);
    assert [] + Flatten(chunks) == Flatten(chunks);
    ResponsesDrain(env, s, encode, rs);
  }

  /** A call takes the next id and waits, unless its frame is too large, which rejects it alone, or the pipe is
      gone, which ends the connection; after the end nothing is called. */
  lemma CallsExactly(s: Rpc, fits: bool, written: bool)
    requires CallsInv(s)
    ensures var c, id := Call(s, fits, written), s.nextId;
      && (s.error.Some? ==> c == s)
      && (s.error.None? ==> c.nextId == id + 1 && c.delivered == s.delivered)
      && (s.error.None? && fits && written ==> c.pending == s.pending + {id} && c.settled == s.settled && c.error.None? && c.buffer == s.buffer)
      && (s.error.None? && !fits ==> c.pending == s.pending && c.settled == s.settled[id := Rejected(FRAME_TOO_LARGE)] && c.error.None? && c.buffer == s.buffer)
      && (s.error.None? && fits && !written ==>
            c.error == Some(DISCONNECTED) && c.pending == {} && forall i :: i in s.pending || i == id ==> i in c.settled && c.settled[i] == Rejected(DISCONNECTED))
  {
    if s.error.None? && !fits { assert s.pending + {s.nextId} - {s.nextId} == s.pending; }
  }

  // ---- the connection object ----

  class Connection {
    const env: Env
    var buffer: Bytes
    var delivered: seq<Message>
    var pending: set<CallId>
    var settled: map<CallId, Settlement>
    var nextId: CallId
    var error: Option<Code>

    ghost function State(): Rpc
      reads this
    {
      Rpc(buffer, delivered, pending, settled, nextId, error)
    }

    constructor (env: Env)
      ensures State() == FRESH && this.env == env
    {
      this.env := env;
      buffer, delivered, pending, settled, nextId, error := [], [], {}, map[], 1, None;
    }

    method FailWith(code: Code)
      modifies this
      ensures State() == Fail(old(State()), code)
    {
      if error.Some? { return; }
      error := Some(code);
      buffer := [];
      ghost var rejected: set<CallId> := {};
      while pending != {}
        invariant rejected + pending == old(pending) && rejected !! pending
        invariant settled == old(settled) + map i | i in rejected :: Rejected(code)
        invariant error == Some(code) && buffer == [] && delivered == old(delivered) && nextId == old(nextId)
        decreases pending
      {
        var id :| id in pending;
        settled := settled[id := Rejected(code)];
        pending := pending - {id};
        rejected := rejected + {id};
      }
      assert rejected == old(pending);
    }

    method HandleLine(line: Bytes)
      modifies this
      ensures State() == Handle(env, old(State()), line)
    {
      if |line| > env.max {
        FailWith(FRAME_TOO_LARGE);
      } else if !env.blank(line) {
        match env.parse(line)
        case Malformed => FailWith(PROTOCOL_INVALID);
        case Notification(m) => HandOn(m);
        case Request(m) => HandOn(m);
        case Reply(id, answer) =>
          if id in pending {
            pending := pending - {id};
            match answer
            case Failure(code) => settled := settled[id := Rejected(code)];
            case Value(v) => settled := settled[id := Resolved(v)];
            case Neither =>
              settled := settled[id := Rejected(PROTOCOL_INVALID)];
              FailWith(PROTOCOL_INVALID);
          }
      }
    }

    method HandOn(m: Message)
      modifies this
      ensures State() == Deliver(env, old(State()), m)
    {
      var code := env.callback(delivered, m);
      delivered := delivered + [m];
      if code.Some? { FailWith(code.value); }
    }

    method ReceiveData(data: Bytes)
      modifies this
      ensures State() == Receive(env, old(State()), data)
    {
      if error.Some? { return; }
      buffer := buffer + data;
      ghost var goal := Drain(env, State());
      while true
        invariant Drain(env, State()) == goal && error.None?
        decreases |buffer|
      {
        var index := LineEnd(buffer);
        if index == |buffer| { break; }
        var line := buffer[..index];
        buffer := buffer[index + 1..];
        HandleLine(line);
        if error.Some? { return; }
      }
      if |buffer| > env.max { FailWith(FRAME_TOO_LARGE); }
    }

    method MakeCall(fits: bool, written: bool)
      modifies this
      ensures State() == Call(old(State()), fits, written)
    {
      if error.Some? { return; }
      var id := nextId;
      nextId := nextId + 1;
      pending := pending + {id};
      if !fits {
        pending := pending - {id};
        settled := settled[id := Rejected(FRAME_TOO_LARGE)];
      } else if !written {
        FailWith(DISCONNECTED);
      }
    }
  }
}
