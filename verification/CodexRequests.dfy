/** packages/runtime/codex-app-server.js (onRequest): what the provider may ask of the host during a turn,
    a host tool or an approval, and how often it is acted on.

    A binding is the text a request is held to. What an approval request would have a person approve
    depends on its binding and on the items seen so far, through `payload`. */
module CodexRequests {
  import opened Wrappers

  type MessageId = nat
  type CallId = nat
  type ItemId = nat
  type Binding = nat
  type Payload = nat
  type Items = map<ItemId, nat>
  type Result = nat

  const MAX_CALLS := 64
  const MAX_REQUESTS := 128
  const CANCELLED: Result := 0

  datatype Host = Host(tools: bool, native: bool, payload: (Binding, Items) -> Option<Payload>)

  // ---- host tools ----

  datatype Held = Held(binding: Binding, result: Option<Result>)

  /** Host tools run one after another; `waiting` are the messages still to be answered. */
  datatype Tools = Tools(
    calls: map<CallId, Held>, queue: seq<CallId>, running: Option<CallId>, waiting: set<(MessageId, CallId)>,
    executed: seq<CallId>, replies: seq<(CallId, Result)>)

  /** None: the connection is failed. */
  function Called(s: Tools, id: MessageId, call: CallId, binding: Binding): Option<Tools> {
    if call in s.calls then
      if s.calls[call].binding != binding then None else Some(s.(waiting := s.waiting + {(id, call)}))
    else if |s.calls| >= MAX_CALLS then None
    else Some(s.(calls := s.calls[call := Held(binding, None)], queue := s.queue + [call], waiting := s.waiting + {(id, call)}))
  }

  function Started(s: Tools, late: bool): Tools
    requires s.queue != [] && s.queue[0] in s.calls
  {
    var call := s.queue[0];
    var next := s.(queue := s.queue[1..]);
    if late then next.(calls := s.calls[call := s.calls[call].(result := Some(CANCELLED))])
    else next.(running := Some(call), executed := s.executed + [call])
  }

  function Ended(s: Tools, result: Result): Tools
    requires s.running.Some? && s.running.value in s.calls
  {
    s.(running := None, calls := s.calls[s.running.value := s.calls[s.running.value].(result := Some(result))])
  }

  function Replied(s: Tools, id: MessageId, call: CallId, late: bool): Tools
    requires call in s.calls && s.calls[call].result.Some?
  {
    var done := s.(waiting := s.waiting - {(id, call)});
    if late then done else done.(replies := s.replies + [(call, s.calls[call].result.value)])
  }

  predicate NoDuplicates(s: seq<nat>) { forall i, j :: 0 <= i < j < |s| ==> s[i] != s[j] }

  /** A call is queued, running or settled, one of the three; only the last two may have been executed. */
  ghost predicate ToolsInv(s: Tools) {
    && NoDuplicates(s.queue) && NoDuplicates(s.executed)
    && (forall c :: c in s.queue ==> c in s.calls && s.calls[c].result.None? && c !in s.executed)
    && (s.running.Some? ==> s.running.value in s.calls && s.calls[s.running.value].result.None? && s.running.value in s.executed)
    && (forall c :: c in s.executed ==> c in s.calls)
    && (forall p :: p in s.waiting ==> p.1 in s.calls)
    && (forall i :: 0 <= i < |s.replies| ==> s.replies[i].0 in s.calls && s.calls[s.replies[i].0].result == Some(s.replies[i].1))
  }

  /** A call keeps its arguments and, once it has one, its result. */
  ghost predicate ToolsStand(s: Tools, s': Tools) {
    && s.executed <= s'.executed
    && forall c :: c in s.calls ==>
      c in s'.calls && s'.calls[c].binding == s.calls[c].binding && (s.calls[c].result.Some? ==> s'.calls[c].result == s.calls[c].result)
  }

  lemma CalledKeeps(s: Tools, id: MessageId, call: CallId, binding: Binding)
    requires ToolsInv(s) && Called(s, id, call, binding).Some?
    ensures ToolsInv(Called(s, id, call, binding).value) && ToolsStand(s, Called(s, id, call, binding).value)
  {
  }

  lemma StartedKeeps(s: Tools, late: bool)
    requires ToolsInv(s) && s.queue != [] && s.queue[0] in s.calls && s.running.None?
    ensures ToolsInv(Started(s, late)) && ToolsStand(s, Started(s, late))
  {
    var call, rest := s.queue[0], s.queue[1..];
    assert call in s.queue && forall c :: c in rest ==> c in s.queue && c != call;
  }

  lemma EndedKeeps(s: Tools, result: Result)
    requires ToolsInv(s) && s.running.Some? && s.running.value in s.calls
    ensures ToolsInv(Ended(s, result)) && ToolsStand(s, Ended(s, result))
  {
  }

  lemma RepliedKeeps(s: Tools, id: MessageId, call: CallId, late: bool)
    requires ToolsInv(s) && call in s.calls && s.calls[call].result.Some?
    ensures ToolsInv(Replied(s, id, call, late)) && ToolsStand(s, Replied(s, id, call, late))
  {
  }

  // ---- approvals ----

  /** `action`: what the session was asked to approve; None when there was nothing it could approve. */
  datatype Record = Record(binding: Binding, action: Option<Payload>, result: Option<bool>)

  /** What was so when an approval was granted to the provider. */
  datatype Grant = Grant(id: MessageId, now: Option<Payload>, decision: bool, interrupted: bool)

  datatype Approvals = Approvals(requests: map<MessageId, Record>, asked: seq<MessageId>, grants: seq<Grant>, replies: seq<(MessageId, bool)>)

  /** None: the connection is failed. */
  function Requested(h: Host, s: Approvals, items: Items, id: MessageId, binding: Binding): Option<Approvals> {
    if !h.native then Some(s.(replies := s.replies + [(id, false)]))
    else if id in s.requests then
      if s.requests[id].binding != binding then None
      else if s.requests[id].result.Some? then Some(s.(replies := s.replies + [(id, s.requests[id].result.value)]))
      else Some(s)
    else if |s.requests| >= MAX_REQUESTS then None
    else
      var action := h.payload(binding, items);
      if action.None? then Some(s.(requests := s.requests[id := Record(binding, None, Some(false))], replies := s.replies + [(id, false)]))
      else Some(s.(requests := s.requests[id := Record(binding, action, None)], asked := s.asked + [id]))
  }

  predicate Open(s: Approvals, id: MessageId) { id in s.requests && s.requests[id].action.Some? && s.requests[id].result.None? }

  /** The session's decision counts only for the action it was asked about, as it still is. */
  function Decided(h: Host, s: Approvals, items: Items, id: MessageId, accept: bool, interrupted: bool): Approvals
    requires Open(s, id)
  {
    var r := s.requests[id];
    var now := h.payload(r.binding, items);
    var granted := now == r.action && !interrupted && accept;
    Approvals(s.requests[id := r.(result := Some(granted))], s.asked,
              if granted then s.grants + [Grant(id, now, accept, interrupted)] else s.grants, s.replies + [(id, granted)])
  }

  ghost predicate Justified(s: Approvals, g: Grant) {
    && g.id in s.requests && s.requests[g.id].result == Some(true) && g.id in s.asked
    && g.now.Some? && g.now == s.requests[g.id].action && g.decision && !g.interrupted
  }

  ghost predicate HasGrant(s: Approvals, id: MessageId) { exists g :: g in s.grants && g.id == id }

  /** Each message is put to a person at most once, every answer about it is the one decision it has, and
      that decision is to accept only if a grant justifies it. */
  ghost predicate ApprovalsInv(h: Host, s: Approvals) {
    && NoDuplicates(s.asked) && (forall id :: id in s.asked <==> id in s.requests && s.requests[id].action.Some?)
    && (forall g :: g in s.grants ==> Justified(s, g))
    && (forall id :: id in s.requests && s.requests[id].result == Some(true) ==> HasGrant(s, id))
    && (forall i :: 0 <= i < |s.replies| ==> Consistent(h, s, s.replies[i]))
  }

  ghost predicate Consistent(h: Host, s: Approvals, reply: (MessageId, bool)) {
    if h.native then reply.0 in s.requests && s.requests[reply.0].result == Some(reply.1) else !reply.1
  }

  ghost predicate ApprovalsStand(s: Approvals, s': Approvals) {
    && s.asked <= s'.asked && s.grants <= s'.grants
    && forall id :: id in s.requests ==>
      && id in s'.requests && s'.requests[id].binding == s.requests[id].binding && s'.requests[id].action == s.requests[id].action
      && (s.requests[id].result.Some? ==> s'.requests[id].result == s.requests[id].result)
  }

  lemma StandKeepsReplies(h: Host, s: Approvals, s': Approvals)
    requires ApprovalsInv(h, s) && ApprovalsStand(s, s')
    ensures forall i :: 0 <= i < |s.replies| ==> Consistent(h, s', s.replies[i])
    ensures forall g :: g in s.grants ==> Justified(s', g)
  {
    forall i | 0 <= i < |s.replies| ensures Consistent(h, s', s.replies[i]) { assert Consistent(h, s, s.replies[i]); }
    forall g | g in s.grants ensures Justified(s', g) { assert Justified(s, g) && g.id in s'.asked; }
  }

  lemma RequestedKeeps(h: Host, s: Approvals, items: Items, id: MessageId, binding: Binding)
    requires ApprovalsInv(h, s) && Requested(h, s, items, id, binding).Some?
    ensures ApprovalsInv(h, Requested(h, s, items, id, binding).value) && ApprovalsStand(s, Requested(h, s, items, id, binding).value)
  {
    var s' := Requested(h, s, items, id, binding).value;
    assert id !in s.requests ==> id !in s.asked;
    StandKeepsReplies(h, s, s');
    forall x | x in s'.requests && s'.requests[x].result == Some(true) ensures HasGrant(s', x) { assert HasGrant(s, x); }
  }

  lemma DecidedKeeps(h: Host, s: Approvals, items: Items, id: MessageId, accept: bool, interrupted: bool)
    requires h.native && ApprovalsInv(h, s) && Open(s, id)
    ensures ApprovalsInv(h, Decided(h, s, items, id, accept, interrupted)) && ApprovalsStand(s, Decided(h, s, items, id, accept, interrupted))
  {
    var s' := Decided(h, s, items, id, accept, interrupted);
    StandKeepsReplies(h, s, s');
    assert id in s.asked;
    forall x | x in s'.requests && s'.requests[x].result == Some(true) ensures HasGrant(s', x) {
      if x == id {
        assert s'.grants[|s.grants|] in s'.grants;
      } else {
        assert HasGrant(s, x);
        var g :| g in s.grants && g.id == x;
        assert g in s'.grants;
      }
    }
  }

  // ---- the turn ----

  /** `mine`: it names this thread and this turn. A tool call without a usable call id has none. */
  datatype Ask = ToolCall(call: Option<CallId>, binding: Binding) | Approval(binding: Binding) | Unsupported

  datatype Turn = Turn(completed: bool, interrupted: bool, failed: bool, items: Items, tools: Tools, approvals: Approvals, refused: seq<MessageId>)

  const INITIAL: Turn := Turn(false, false, false, map[], Tools(map[], [], None, {}, [], []), Approvals(map[], [], [], []), [])

  datatype Event =
    | Request(id: MessageId, mine: bool, ask: Ask)
    | ToolStart
    | ToolEnd(result: Result)
    | ToolReply(id: MessageId, call: CallId)
    | Decide(id: MessageId, accept: bool)
    | ItemSeen(item: ItemId, content: nat)
    | Complete
    | Interrupt
    | Fail

  function OnRequest(h: Host, t: Turn, id: MessageId, mine: bool, ask: Ask): Turn {
    if t.failed then t
    else if t.completed || t.interrupted || !mine then t.(refused := t.refused + [id])
    else if ask.ToolCall? && h.tools && ask.call.Some? then
      var tools := Called(t.tools, id, ask.call.value, ask.binding);
      if tools.None? then t.(failed := true) else t.(tools := tools.value)
    else if ask.Approval? then
      var approvals := Requested(h, t.approvals, t.items, id, ask.binding);
      if approvals.None? then t.(failed := true) else t.(approvals := approvals.value)
    else t.(refused := t.refused + [id])
  }

  predicate Enabled(h: Host, t: Turn, e: Event) {
    match e
    case ToolStart => t.tools.running.None? && t.tools.queue != [] && t.tools.queue[0] in t.tools.calls
    case ToolEnd(_) => t.tools.running.Some? && t.tools.running.value in t.tools.calls
    case ToolReply(id, call) => (id, call) in t.tools.waiting && call in t.tools.calls && t.tools.calls[call].result.Some?
    case Decide(id, _) => h.native && Open(t.approvals, id)
    case _ => true
  }

  function Step(h: Host, t: Turn, e: Event): Turn
    requires Enabled(h, t, e)
  {
    match e
    case Request(id, mine, ask) => OnRequest(h, t, id, mine, ask)
    case ToolStart => t.(tools := Started(t.tools, t.completed || t.interrupted || t.failed))
    case ToolEnd(result) => t.(tools := Ended(t.tools, result))
    case ToolReply(id, call) => t.(tools := Replied(t.tools, id, call, t.failed || t.completed))
    case Decide(id, accept) => if t.failed || t.completed then t else t.(approvals := Decided(h, t.approvals, t.items, id, accept, t.interrupted))
    case ItemSeen(item, content) => t.(items := t.items[item := content])
    case Complete => t.(completed := true)
    case Interrupt => t.(interrupted := true)
    case Fail => t.(failed := true)
  }

  predicate Runs(h: Host, t: Turn, events: seq<Event>)
    decreases |events|
  {
    events == [] || (Enabled(h, t, events[0]) && Runs(h, Step(h, t, events[0]), events[1..]))
  }

  function Run(h: Host, t: Turn, events: seq<Event>): Turn
    requires Runs(h, t, events)
    decreases |events|
  {
    if events == [] then t else Run(h, Step(h, t, events[0]), events[1..])
  }

  ghost predicate Inv(h: Host, t: Turn) { ToolsInv(t.tools) && ApprovalsInv(h, t.approvals) }

  ghost predicate Stand(t: Turn, t': Turn) { ToolsStand(t.tools, t'.tools) && ApprovalsStand(t.approvals, t'.approvals) }

  lemma StepKeepsInv(h: Host, t: Turn, e: Event)
    requires Inv(h, t) && Enabled(h, t, e)
    ensures Inv(h, Step(h, t, e)) && Stand(t, Step(h, t, e))
  {
    match e
    case Request(id, mine, ask) =>
      if ask.ToolCall? && ask.call.Some? && Called(t.tools, id, ask.call.value, ask.binding).Some? { CalledKeeps(t.tools, id, ask.call.value, ask.binding); }
      if ask.Approval? && Requested(h, t.approvals, t.items, id, ask.binding).Some? { RequestedKeeps(h, t.approvals, t.items, id, ask.binding); }
    case ToolStart => StartedKeeps(t.tools, t.completed || t.interrupted || t.failed);
    case ToolEnd(result) => EndedKeeps(t.tools, result);
    case ToolReply(id, call) => RepliedKeeps(t.tools, id, call, t.failed || t.completed);
    case Decide(id, accept) => DecidedKeeps(h, t.approvals, t.items, id, accept, t.interrupted);
    case _ =>
  }

  lemma {:induction false} RunKeepsInv(h: Host, t: Turn, events: seq<Event>)
    requires Inv(h, t) && Runs(h, t, events)
    ensures Inv(h, Run(h, t, events))
    decreases |events|
  {
    if events != [] {
      StepKeepsInv(h, t, events[0]);
      RunKeepsInv(h, Step(h, t, events[0]), events[1..]);
    }
  }

  // ---- what each event does ----

  /** The request is looked at: it is about this turn, which goes on undisturbed. */
  predicate Heard(t: Turn, mine: bool) { mine && !t.failed && !t.completed && !t.interrupted }

  /** It repeats one known under another binding, or is one too many. */
  ghost predicate Unacceptable(h: Host, t: Turn, id: MessageId, ask: Ask) {
    match ask
    case ToolCall(call, binding) =>
      h.tools && call.Some?
      && if call.value in t.tools.calls then t.tools.calls[call.value].binding != binding else |t.tools.calls| >= 64
    case Approval(binding) =>
      h.native && if id in t.approvals.requests then t.approvals.requests[id].binding != binding else |t.approvals.requests| >= 128
    case Unsupported => false
  }

  /** The connection fails at exactly these events, and a request is refused at exactly those. */
  lemma FailsExactly(h: Host, t: Turn, e: Event)
    requires Enabled(h, t, e)
    ensures Step(h, t, e).failed <==> t.failed || e.Fail? || (e.Request? && Heard(t, e.mine) && Unacceptable(h, t, e.id, e.ask))
    ensures Step(h, t, e).refused ==
      if e.Request? && !t.failed
         && (!Heard(t, e.mine) || e.ask.Unsupported? || (e.ask.ToolCall? && !(h.tools && e.ask.call.Some?)))
      then t.refused + [e.id] else t.refused
  {
  }

  /** The session is asked about exactly the new requests for something it could approve, once, and about
      exactly that. */
  lemma AsksExactly(h: Host, t: Turn, e: Event, id: MessageId)
    requires Inv(h, t) && Enabled(h, t, e)
    ensures id in Step(h, t, e).approvals.asked && id !in t.approvals.asked <==>
      && e.Request? && e.id == id && Heard(t, e.mine) && e.ask.Approval? && h.native
      && id !in t.approvals.requests && |t.approvals.requests| < 128 && h.payload(e.ask.binding, t.items).Some?
    ensures id in Step(h, t, e).approvals.asked && id !in t.approvals.asked ==>
      Step(h, t, e).approvals.requests[id] == Record(e.ask.binding, h.payload(e.ask.binding, t.items), None)
  {
  }

  /** A request is decided at exactly these events: by the session's decision while the turn goes on, to accept
      if that is what it was, no interrupt was asked for and the action is still what it was asked about, and
      otherwise to decline; or at once, to decline, if there is nothing it could approve. */
  lemma DecidesExactly(h: Host, t: Turn, e: Event, id: MessageId, decision: bool)
    requires Inv(h, t) && Enabled(h, t, e) && !(id in t.approvals.requests && t.approvals.requests[id].result.Some?)
    ensures var s, requests := Step(h, t, e).approvals, t.approvals.requests;
      id in s.requests && s.requests[id].result == Some(decision) <==>
        || (e.Decide? && e.id == id && !t.failed && !t.completed
            && (decision <==> e.accept && !t.interrupted && h.payload(requests[id].binding, t.items) == requests[id].action))
        || (e.Request? && e.id == id && Heard(t, e.mine) && e.ask.Approval? && h.native && id !in requests && |requests| < 128
            && h.payload(e.ask.binding, t.items).None? && !decision)
  {
  }

  /** The provider is answered with what was decided, when it is decided and whenever it asks again, and with a
      refusal where approvals are not offered; at no other event. */
  lemma RepliesExactly(h: Host, t: Turn, e: Event)
    requires Inv(h, t) && Enabled(h, t, e)
    ensures var s, s' := t.approvals, Step(h, t, e).approvals;
      s'.replies ==
        if e.Decide? && !t.failed && !t.completed && s'.requests[e.id].result.Some? then s.replies + [(e.id, s'.requests[e.id].result.value)]
        else if e.Request? && Heard(t, e.mine) && e.ask.Approval? && !h.native then s.replies + [(e.id, false)]
        else if e.Request? && Heard(t, e.mine) && e.ask.Approval? && e.id in s'.requests
                && s'.requests[e.id].binding == e.ask.binding && s'.requests[e.id].result.Some?
        then s.replies + [(e.id, s'.requests[e.id].result.value)]
        else s.replies
  {
  }

  /** A tool call is taken on exactly when it is new and there is room; it is executed exactly when its turn
      comes and nothing has ended; its result is what the tool returned, or that it was cancelled. */
  lemma CallsMove(h: Host, t: Turn, e: Event, call: CallId)
    requires Inv(h, t) && Enabled(h, t, e)
    ensures var s, s' := t.tools, Step(h, t, e).tools;
      && (call !in s.calls ==>
            (call in s'.calls <==> e.Request? && Heard(t, e.mine) && e.ask.ToolCall? && h.tools && e.ask.call == Some(call) && |s.calls| < 64))
      && (call !in s.calls && call in s'.calls ==> s'.calls[call] == Held(e.ask.binding, None) && s'.queue == s.queue + [call])
      && s'.executed == (if e.ToolStart? && !t.completed && !t.interrupted && !t.failed then s.executed + [s.queue[0]] else s.executed)
      && (call in s.calls && s.calls[call].result.None? && s'.calls[call].result.Some? ==>
            || (e.ToolStart? && call == s.queue[0] && (t.completed || t.interrupted || t.failed) && s'.calls[call].result == Some(CANCELLED))
            || (e.ToolEnd? && s.running == Some(call) && s'.calls[call].result == Some(e.result)))
  {
  }

  /** Tools run in the order in which they were first called, one at a time, and each gets a result. */
  lemma ToolsTakeTurns(h: Host, t: Turn, e: Event)
    requires Inv(h, t) && Enabled(h, t, e) && (e.ToolStart? || e.ToolEnd?)
    ensures var s, s' := t.tools, Step(h, t, e).tools;
      && s'.queue == (if e.ToolStart? then s.queue[1..] else s.queue)
      && (e.ToolEnd? ==> s'.running.None? && s'.calls[s.running.value].result == Some(e.result))
      && (e.ToolStart? ==> if t.completed || t.interrupted || t.failed
                           then s'.running.None? && s'.calls[s.queue[0]].result == Some(CANCELLED)
                           else s'.running == Some(s.queue[0]))
  {
  }

  /** Every message that asked for a call waits for its result, and is answered with it unless the turn or the
      connection has ended. */
  lemma ToolsAnswer(h: Host, t: Turn, e: Event, id: MessageId, call: CallId)
    requires Inv(h, t) && Enabled(h, t, e)
    ensures var s, s' := t.tools, Step(h, t, e).tools;
      && ((id, call) in s'.waiting <==>
            || ((id, call) in s.waiting && e != ToolReply(id, call))
            || (e.Request? && e.id == id && Heard(t, e.mine) && e.ask.ToolCall? && h.tools && e.ask.call == Some(call) && !Unacceptable(h, t, id, e.ask)))
      && s'.replies == (if e.ToolReply? && !t.failed && !t.completed then s.replies + [(e.call, s.calls[e.call].result.value)] else s.replies)
  {
  }

  // ---- the claims ----

  /** A host tool call executes at most once, however often it is repeated, and every reply about it carries
      the same result; one repeated with other arguments fails the connection. */
  lemma ToolsRunOnce(h: Host, events: seq<Event>)
    requires Runs(h, INITIAL, events)
    ensures var s := Run(h, INITIAL, events).tools;
      && NoDuplicates(s.executed)
      && (forall i, j :: 0 <= i < |s.replies| && 0 <= j < |s.replies| && s.replies[i].0 == s.replies[j].0 ==> s.replies[i] == s.replies[j])
      && (forall call, id, binding :: call in s.calls && s.calls[call].binding != binding ==> Called(s, id, call, binding).None?)
  {
    RunKeepsInv(h, INITIAL, events);
  }

  /** Nothing is executed, put to a person or granted after an interrupt, the end of the turn or a failure. */
  lemma NothingStartsLate(h: Host, t: Turn, e: Event)
    requires Enabled(h, t, e) && (t.interrupted || t.completed || t.failed)
    ensures Step(h, t, e).tools.executed == t.tools.executed
    ensures Step(h, t, e).approvals.asked == t.approvals.asked && Step(h, t, e).approvals.grants == t.approvals.grants
  {
  }

  /** So from an interrupt, the end of the turn or a failure on, whatever the provider asks and however the
      session decides. */
  lemma NothingStartsAfter(h: Host, t: Turn, e: Event, events: seq<Event>)
    requires Enabled(h, t, e) && (e.Interrupt? || e.Complete? || e.Fail?) && Runs(h, Step(h, t, e), events)
    ensures var t' := Run(h, Step(h, t, e), events);
      t'.tools.executed == t.tools.executed && t'.approvals.asked == t.approvals.asked && t'.approvals.grants == t.approvals.grants
  {
    StaysOver(h, Step(h, t, e), events);
  }

  lemma {:induction false} StaysOver(h: Host, t: Turn, events: seq<Event>)
    requires Runs(h, t, events) && (t.interrupted || t.completed || t.failed)
    ensures var t' := Run(h, t, events);
      t'.tools.executed == t.tools.executed && t'.approvals.asked == t.approvals.asked && t'.approvals.grants == t.approvals.grants
    decreases |events|
  {
    if events != [] {
      NothingStartsLate(h, t, events[0]);
      StaysOver(h, Step(h, t, events[0]), events[1..]);
    }
  }

  /** What a request would do is judged by the items as they were last seen. */
  lemma ItemsAreSeen(h: Host, t: Turn, e: Event, item: ItemId)
    requires Enabled(h, t, e)
    ensures var items := Step(h, t, e).items;
      if e.ItemSeen? && e.item == item then item in items && items[item] == e.content
      else (item in items <==> item in t.items) && (item in items ==> items[item] == t.items[item])
  {
  }

  lemma {:induction false} RunExtends(h: Host, t: Turn, events: seq<Event>, e: Event)
    requires Runs(h, t, events + [e])
    ensures Runs(h, t, events) && Enabled(h, Run(h, t, events), e) && Run(h, t, events + [e]) == Step(h, Run(h, t, events), e)
    decreases |events|
  {
    if events == [] {
      assert [] + [e] == [e] && [e][1..] == [];
    } else {
      assert (events + [e])[0] == events[0] && (events + [e])[1..] == events[1..] + [e];
      RunExtends(h, Step(h, t, events[0]), events[1..], e);
    }
  }

  /** At step `k` the session accepted request `id`: the action it was asked about was then exactly what the
      request would have done, and no interrupt had been asked for. */
  ghost predicate AcceptedAt(h: Host, events: seq<Event>, k: nat, id: MessageId) {
    && k < |events| && events[k] == Decide(id, true) && Runs(h, INITIAL, events[..k])
    && var t := Run(h, INITIAL, events[..k]);
       && Open(t.approvals, id) && !t.interrupted && !t.completed && !t.failed
       && h.payload(t.approvals.requests[id].binding, t.items) == t.approvals.requests[id].action
  }

  lemma {:induction false} AcceptanceHasAStep(h: Host, events: seq<Event>, id: MessageId)
    requires Runs(h, INITIAL, events)
    requires var s := Run(h, INITIAL, events).approvals; id in s.requests && s.requests[id].result == Some(true)
    ensures exists k: nat :: AcceptedAt(h, events, k, id)
    decreases |events|
  {
    var n := |events| - 1;
    var before, e := events[..n], events[n];
    assert events == before + [e];
    RunExtends(h, INITIAL, before, e);
    var t := Run(h, INITIAL, before);
    if id in t.approvals.requests && t.approvals.requests[id].result == Some(true) {
      AcceptanceHasAStep(h, before, id);
      var k: nat :| AcceptedAt(h, before, k, id);
      assert before[..k] == events[..k];
      assert AcceptedAt(h, events, k, id);
    } else {
      NewAcceptance(h, t, e, id);
      assert events[..n] == before;
      assert AcceptedAt(h, events, n, id);
    }
  }

  lemma NewAcceptance(h: Host, t: Turn, e: Event, id: MessageId)
    requires Enabled(h, t, e) && !(id in t.approvals.requests && t.approvals.requests[id].result == Some(true))
    requires var s := Step(h, t, e).approvals; id in s.requests && s.requests[id].result == Some(true)
    ensures e == Decide(id, true) && Open(t.approvals, id) && !t.interrupted && !t.completed && !t.failed
    ensures h.payload(t.approvals.requests[id].binding, t.items) == t.approvals.requests[id].action
  {
  }

  /** The provider is told to go ahead only about an action a person was asked about and accepted, which is
      still what it was, with no interrupt. */
  lemma AcceptedAsAsked(h: Host, events: seq<Event>, id: MessageId)
    requires Runs(h, INITIAL, events) && (id, true) in Run(h, INITIAL, events).approvals.replies
    ensures exists k: nat :: AcceptedAt(h, events, k, id)
  {
    RunKeepsInv(h, INITIAL, events);
    var s := Run(h, INITIAL, events).approvals;
    assert Consistent(h, s, (id, true));
    assert h.native;
    AcceptanceHasAStep(h, events, id);
  }

  /** Each message is put to a person at most once, and all answers about it agree. */
  lemma DecisionsAgree(h: Host, events: seq<Event>, id: MessageId)
    requires Runs(h, INITIAL, events)
    ensures var s := Run(h, INITIAL, events).approvals;
      NoDuplicates(s.asked) && !((id, true) in s.replies && (id, false) in s.replies)
  {
    RunKeepsInv(h, INITIAL, events);
    var s := Run(h, INITIAL, events).approvals;
    assert (id, true) in s.replies ==> Consistent(h, s, (id, true));
    assert (id, false) in s.replies ==> Consistent(h, s, (id, false));
  }

  // ---- the request handlers ----

  class Requests {
    const host: Host
    var completed: bool
    var interrupted: bool
    var failed: bool
    var items: Items
    var calls: map<CallId, Held>
    var queue: seq<CallId>
    var running: Option<CallId>
    var waiting: set<(MessageId, CallId)>
    var requests: map<MessageId, Record>
    ghost var executed: seq<CallId>
    ghost var toolReplies: seq<(CallId, Result)>
    ghost var asked: seq<MessageId>
    ghost var grants: seq<Grant>
    ghost var decisions: seq<(MessageId, bool)>
    ghost var refused: seq<MessageId>

    ghost function Fields(): Turn
      reads this
    {
      Turn(completed, interrupted, failed, items, Tools(calls, queue, running, waiting, executed, toolReplies),
           Approvals(requests, asked, grants, decisions), refused)
    }

    ghost predicate Valid()
      reads this
    {
      Inv(host, Fields())
    }

    constructor (host: Host)
      ensures Valid() && Fields() == INITIAL && this.host == host
    {
      this.host := host;
      completed, interrupted, failed, items := false, false, false, map[];
      calls, queue, running, waiting, requests := map[], [], None, {}, map[];
      executed, toolReplies, asked, grants, decisions, refused := [], [], [], [], [], [];
    }

    /** Up to the first await after the turn is known. */
    method Receive(id: MessageId, mine: bool, ask: Ask)
      requires Valid()
      modifies this
      ensures Valid() && Fields() == OnRequest(host, old(Fields()), id, mine, ask)
    {
      StepKeepsInv(host, Fields(), Request(id, mine, ask));
      if failed { return; }
      if completed || interrupted || !mine {
        refused := refused + [id];
        return;
      }
      match ask
      case ToolCall(call, binding) =>
        if host.tools && call.Some? { CallTool(id, call.value, binding); } else { refused := refused + [id]; }
      case Approval(binding) => Approve(id, binding);
      case Unsupported => refused := refused + [id];
    }

    method CallTool(id: MessageId, call: CallId, binding: Binding)
      modifies this`failed, this`calls, this`queue, this`waiting
      ensures var s := Called(old(Fields()).tools, id, call, binding);
        Fields() == if s.None? then old(Fields()).(failed := true) else old(Fields()).(tools := s.value)
    {
      if call in calls && calls[call].binding != binding {
        failed := true;
        return;
      }
      if call !in calls {
        if |calls| >= MAX_CALLS {
          failed := true;
          return;
        }
        calls := calls[call := Held(binding, None)];
        queue := queue + [call];
      }
      waiting := waiting + {(id, call)};
    }

    method Approve(id: MessageId, binding: Binding)
      modifies this`failed, this`requests, this`asked, this`decisions
      ensures var s := Requested(host, old(Fields()).approvals, items, id, binding);
        Fields() == if s.None? then old(Fields()).(failed := true) else old(Fields()).(approvals := s.value)
    {
      if !host.native {
        decisions := decisions + [(id, false)];
        return;
      }
      if id in requests {
        var prior := requests[id];
        if prior.binding != binding { failed := true; }
        else if prior.result.Some? { decisions := decisions + [(id, prior.result.value)]; }
        return;
      }
      if |requests| >= MAX_REQUESTS {
        failed := true;
        return;
      }
      var action := host.payload(binding, items);
      if action.None? {
        requests := requests[id := Record(binding, None, Some(false))];
        decisions := decisions + [(id, false)];
        return;
      }
      requests := requests[id := Record(binding, action, None)];
      asked := asked + [id];
    }

    /** The session has decided. */
    method Answer(id: MessageId, accept: bool)
      requires Valid() && host.native && Open(Fields().approvals, id)
      modifies this`requests, this`grants, this`decisions
      ensures Valid() && Fields() == if failed || completed then old(Fields())
        else old(Fields()).(approvals := Decided(host, old(Fields()).approvals, items, id, accept, interrupted))
    {
      DecidedKeeps(host, Fields().approvals, items, id, accept, interrupted);
      if failed || completed { return; }
      var record := requests[id];
      var now := host.payload(record.binding, items);
      var same := now == record.action;
      var granted := same && !interrupted && accept;
      requests := requests[id := record.(result := Some(granted))];
      if granted { grants := grants + [Grant(id, now, accept, interrupted)]; }
      decisions := decisions + [(id, granted)];
    }

    /** The next host tool, when the one before is done. */
    method RunNext() returns (runs: bool)
      requires Valid() && running.None? && queue != [] && queue[0] in calls
      modifies this`queue, this`calls, this`running, this`executed
      ensures Valid() && Fields() == old(Fields()).(tools := Started(old(Fields()).tools, completed || interrupted || failed))
      ensures runs == !(completed || interrupted || failed)
    {
      StartedKeeps(Fields().tools, completed || interrupted || failed);
      var call := queue[0];
      queue := queue[1..];
      if completed || interrupted || failed {
        calls := calls[call := calls[call].(result := Some(CANCELLED))];
        return false;
      }
      running := Some(call);
      executed := executed + [call];
      runs := true;
    }
  }
}
