/** packages/runtime/encrypted-execution.js: one task's turns, through crashes.

    A turn runs between awaits, and any save may fail. Only the marker, the log and the writer's saved record
    survive a crash. Tasks share nothing of this, so one task is modelled. */
module Execution {
  import opened Wrappers
  import R = TaskRun

  type TurnId = nat
  type ActivationId = nat

  /** The row "execution:<task>". `logged`: that the turn was lost has been written to the log. */
  datatype Marker = Absent | Running(turn: TurnId) | Recovery(turn: TurnId, logged: bool) | Terminal(turn: TurnId)

  /** A turn's run; `spoiled` when the record the turn keeps in memory says that an append failed; `drain`, how
      much had been submitted when the provider ended; `end` and `settled`, how long the log was and what had
      been written when the end was saved. */
  datatype Turn = Turn(run: R.Run, spoiled: bool, drain: nat, end: nat, settled: seq<R.Entry>)

  /** An activation of startTask. Creating: the creating event is being written. Live: the provider runs.
      Ended: it returned, or was never reached; the appends drain. Marked: the outcome was to be saved. */
  datatype Phase = Creating(acknowledged: bool) | Live(turn: TurnId) | Ended(turn: TurnId, ok: bool) | Marked(turn: TurnId)

  /** An activation of reconcile: the row it read, and whether its events are in the log. */
  datatype Repair = Repair(was: Marker, logged: bool)

  /** A control in flight that found the turn running, and then queued its receipt behind `at` entries. The
      controls of a task are applied one after another. */
  datatype Receipt = Checked(turn: TurnId) | Queued(turn: TurnId, at: nat)

  datatype Launch = Launch(turn: TurnId, acknowledged: bool)

  /** `alive`: the turns whose run is in memory. `launches`: every turn given to a provider. `finished`: those
      whose end was saved. `uncertain`: the last one came to no saved end. `late`: an append failed, and the
      marker could not be made to say so. */
  datatype Task = Task(
    marker: Marker, pending: bool, active: Option<TurnId>, flows: map<ActivationId, Phase>, repairs: map<ActivationId, Repair>,
    receipt: Option<Receipt>, closed: bool, writer: R.Writer, turns: map<TurnId, Turn>, alive: set<TurnId>,
    launches: seq<Launch>, finished: set<TurnId>, uncertain: bool, late: bool)

  const INITIAL: Task := Task(Absent, false, None, map[], map[], None, false, R.Writer([], None), map[], {}, [], {}, false, false)

  predicate Unknown(m: Marker) { m.Running? || m.Recovery? }

  predicate Launched(p: Phase) { p.Live? || p.Ended? }

  datatype Event =
    | Start(id: ActivationId, acknowledged: bool, admitted: bool)
    | Creation(id: ActivationId, entry: R.Entry, fate: R.Fate)
    | Created(id: ActivationId, saved: bool, turn: TurnId, allowed: bool)
    | Touch(id: ActivationId)
    | Emit(id: ActivationId, entry: R.Entry)
    | Append(turn: TurnId, fate: R.Fate, saved: bool)
    | ProviderEnded(id: ActivationId, ok: bool, saved: bool)
    | Settle(id: ActivationId, saved: bool, retried: bool)
    | Release(id: ActivationId)
    | Control(turn: TurnId)
    | Reply(entry: R.Entry)
    | ControlDone
    | Other(name: nat, entry: R.Entry, fate: R.Fate)
    | StartRepair(id: ActivationId)
    | LogRepair(id: ActivationId, name: nat, entry: R.Entry, fate: R.Fate)
    | FinishRepair(id: ActivationId, ok: bool)
    | OwnerRecovered
    | Close
    | Crash(kept: bool)

  // ---- startTask ----

  /** `admitted` stands for the refusals that change nothing: a settled task, another epoch, nothing to resume,
      a project or an input that is not allowed. */
  function OnStart(t: Task, id: ActivationId, acknowledged: bool, admitted: bool): Task {
    if t.closed || t.active.Some? || t.pending || !admitted || t.marker.Running? || (t.marker.Recovery? && !acknowledged) then t
    else t.(pending := true, flows := t.flows[id := Creating(acknowledged)])
  }

  function Abandoned(t: Task, id: ActivationId): Task { t.(pending := false, flows := t.flows - {id}) }

  /** ensureTaskCreated: the first event of an empty log. */
  function OnCreation(t: Task, id: ActivationId, entry: R.Entry, fate: R.Fate): Task {
    if t.writer.log != [] then t
    else
      var (w, ack) := R.Write(t.writer, R.Event(R.RunId(1), entry), fate);
      if ack.Failed? then Abandoned(t.(writer := w), id) else t.(writer := w)
  }

  /** From the written creating event to the provider's start, with the marker saved in between. `allowed`
      says whether the checks made after that still pass. */
  function OnCreated(t: Task, id: ActivationId, acknowledged: bool, saved: bool, turn: TurnId, allowed: bool): Task {
    if t.closed || !saved then Abandoned(t, id) else Begun(t, id, acknowledged, turn, allowed)
  }

  function Begun(t: Task, id: ActivationId, acknowledged: bool, turn: TurnId, allowed: bool): Task {
    Entered(Recorded(t, turn, acknowledged), id, turn, allowed)
  }

  function Recorded(t: Task, turn: TurnId, acknowledged: bool): Task {
    t.(marker := Running(turn), turns := t.turns[turn := Turn(R.Begun(t.writer), false, 0, 0, [])], alive := t.alive + {turn},
       launches := t.launches + [Launch(turn, acknowledged)], uncertain := false)
  }

  function Entered(t: Task, id: ActivationId, turn: TurnId, allowed: bool): Task {
    t.(flows := t.flows[id := if allowed then Live(turn) else Ended(turn, false)],
       active := if allowed then Some(turn) else t.active, pending := if allowed then false else t.pending)
  }

  /** The marker as the turn's own record has it while it runs. */
  function Own(turn: TurnId, spoiled: bool): Marker { if spoiled then Recovery(turn, false) else Running(turn) }

  /** `update`: nothing is written once the host is closing. */
  function Update(t: Task, m: Marker, saved: bool): Task { if t.closed || !saved then t else t.(marker := m) }

  function Submitted(r: R.Run, entry: R.Entry): R.Run { r.(submitted := r.submitted + [entry]) }

  function WithRun(t: Task, turn: TurnId, r: R.Run): Task
    requires turn in t.turns
  {
    t.(turns := t.turns[turn := t.turns[turn].(run := r)])
  }

  function OnEmit(t: Task, turn: TurnId, entry: R.Entry): Task
    requires turn in t.turns
  {
    if t.closed || t.turns[turn].run.failed then t else WithRun(t, turn, Submitted(t.turns[turn].run, entry))
  }

  /** A marker from which nothing starts before reconcile has written to the log. */
  predicate Guards(m: Marker) { m.Running? || (m.Recovery? && !m.logged) }

  /** onAppendFailure. */
  function OnFailure(t: Task, turn: TurnId, saved: bool): Task
    requires turn in t.turns
  {
    var noted := Update(t.(turns := t.turns[turn := t.turns[turn].(spoiled := t.turns[turn].spoiled || !t.closed)]), Recovery(turn, false), saved);
    noted.(late := t.late || !Guards(noted.marker))
  }

  /** The next piece of work of the turn's append queue. */
  function OnAppend(t: Task, turn: TurnId, fate: R.Fate, saved: bool): Task
    requires turn in t.turns && R.CanAppend(t.turns[turn].run)
  {
    var run := t.turns[turn].run;
    var (w, r) := R.Append(t.writer, run, run.submitted[|run.wrote|], fate);
    var next := WithRun(t, turn, r).(writer := w);
    if r.failed then OnFailure(next, turn, saved) else next
  }

  /** Provider state is saved under the marker the turn already has; if that fails, so does the turn. What was
      submitted by now is what the run waits for. */
  function OnProviderEnded(t: Task, id: ActivationId, turn: TurnId, ok: bool, saved: bool): Task
    requires turn in t.turns
  {
    var next := if ok then Update(t, Own(turn, t.turns[turn].spoiled), saved) else t;
    next.(flows := t.flows[id := Ended(turn, ok && (saved || t.closed))],
          turns := t.turns[turn := t.turns[turn].(drain := |t.turns[turn].run.submitted|)])
  }

  /** Anything but a saved end of a run that did not fail is recovery. */
  function OnSettle(t: Task, id: ActivationId, turn: TurnId, ok: bool, saved: bool, retried: bool): Task
    requires turn in t.turns
  {
    var marked := t.(flows := t.flows[id := Marked(turn)]);
    var run := t.turns[turn].run;
    if ok && !run.failed && !t.closed && saved then
      marked.(marker := Terminal(turn), finished := t.finished + {turn},
              turns := t.turns[turn := t.turns[turn].(end := |t.writer.log|, settled := run.wrote)])
    else if ok && !run.failed && t.closed then marked.(uncertain := true)
    else Update(marked, Recovery(turn, false), retried).(uncertain := true)
  }

  function OnRelease(t: Task, id: ActivationId): Task { t.(active := None, pending := false, flows := t.flows - {id}) }

  // ---- controls and reconcile ----

  function OnReply(t: Task, turn: TurnId, entry: R.Entry): Task
    requires turn in t.turns
  {
    WithRun(t, turn, Submitted(t.turns[turn].run, entry)).(receipt := Some(Queued(turn, |t.turns[turn].run.submitted|)))
  }

  function OnStartRepair(t: Task, id: ActivationId): Task {
    if t.active.Some? || !Unknown(t.marker) || (t.marker.Recovery? && t.marker.logged) then t
    else t.(repairs := t.repairs[id := Repair(t.marker, false)])
  }

  /** An event that is not a run's. An empty log takes only the creating event. */
  function Noted(w: R.Writer, name: nat, entry: R.Entry, fate: R.Fate): (R.Writer, R.Ack) {
    R.Write(w, R.Event(R.OtherId(name), entry), if R.Resume(w).log == [] && !fate.Stuck? then R.Lost else fate)
  }

  /** The recovery events, one append after another; a failure ends the call. */
  function OnLogRepair(t: Task, id: ActivationId, was: Marker, name: nat, entry: R.Entry, fate: R.Fate): Task {
    var (w, ack) := Noted(t.writer, name, entry, fate);
    t.(writer := w, repairs := if ack.Failed? then t.repairs - {id} else t.repairs[id := Repair(was, true)])
  }

  /** The row written is the one read before the awaits, marked as logged. */
  function OnFinishRepair(t: Task, id: ActivationId, was: Marker, ok: bool): Task
    requires Unknown(was)
  {
    var ended := t.(repairs := t.repairs - {id});
    if ok then ended.(marker := Recovery(was.turn, true)) else ended
  }

  /** finishOwnerRecovery: a recovered owner starts from rows that claim nothing is running. */
  function OnOwnerRecovered(t: Task): Task { if t.marker.Running? then t.(marker := Recovery(t.marker.turn, false)) else t }

  function OnCrash(t: Task, kept: bool): Task {
    t.(pending := false, active := None, flows := map[], repairs := map[], receipt := None, closed := false, alive := {},
       writer := R.Reopened(t.writer, kept), late := false,
       uncertain := t.uncertain || exists id :: id in t.flows && Launched(t.flows[id]))
  }

  // ---- runs ----

  predicate At(t: Task, id: ActivationId) { id in t.flows && Launched(t.flows[id]) && t.flows[id].turn in t.turns }

  /** `await this.appendQueue`, as far as it had been submitted when the provider ended. */
  predicate Drained(turn: Turn) { turn.run.failed || |turn.run.wrote| >= turn.drain }

  predicate Enabled(t: Task, e: Event) {
    match e
    case Start(id, _, _) => id !in t.flows && t.receipt.None?
    case Creation(id, _, _) => id in t.flows && t.flows[id].Creating?
    case Created(id, _, turn, _) => id in t.flows && t.flows[id].Creating? && turn !in t.turns && t.writer.log != []
    case Touch(id) => At(t, id)
    case Emit(id, _) => At(t, id) && t.flows[id].Live?
    case Append(turn, _, _) => turn in t.alive && turn in t.turns && R.CanAppend(t.turns[turn].run)
    case ProviderEnded(id, _, _) => At(t, id) && t.flows[id].Live?
    case Settle(id, _, _) => At(t, id) && t.flows[id].Ended? && Drained(t.turns[t.flows[id].turn])
    case Release(id) => id in t.flows && t.flows[id].Marked?
    case Control(turn) => t.receipt.None? && turn in t.turns && exists id :: id in t.flows && t.flows[id] == Live(turn)
    case Reply(_) => t.receipt.Some? && t.receipt.value.Checked? && t.receipt.value.turn in t.turns
    case ControlDone =>
      && t.receipt.Some? && t.receipt.value.turn in t.turns
      && (t.receipt.value.Queued? ==> t.turns[t.receipt.value.turn].run.failed || |t.turns[t.receipt.value.turn].run.wrote| > t.receipt.value.at)
    case StartRepair(id) => id !in t.repairs
    case LogRepair(id, _, _, _) => id in t.repairs
    case FinishRepair(id, ok) => id in t.repairs && Unknown(t.repairs[id].was) && (ok ==> t.repairs[id].logged)
    case _ => true
  }

  function Step(t: Task, e: Event): Task
    requires Enabled(t, e)
  {
    match e
    case Start(id, acknowledged, admitted) => OnStart(t, id, acknowledged, admitted)
    case Creation(id, entry, fate) => OnCreation(t, id, entry, fate)
    case Created(id, saved, turn, allowed) => OnCreated(t, id, t.flows[id].acknowledged, saved, turn, allowed)
    case Touch(id) => t.(marker := Own(t.flows[id].turn, t.turns[t.flows[id].turn].spoiled))
    case Emit(id, entry) => OnEmit(t, t.flows[id].turn, entry)
    case Append(turn, fate, saved) => OnAppend(t, turn, fate, saved)
    case ProviderEnded(id, ok, saved) => OnProviderEnded(t, id, t.flows[id].turn, ok, saved)
    case Settle(id, saved, retried) => OnSettle(t, id, t.flows[id].turn, t.flows[id].ok, saved, retried)
    case Release(id) => OnRelease(t, id)
    case Control(turn) => t.(receipt := Some(Checked(turn)))
    case Reply(entry) => OnReply(t, t.receipt.value.turn, entry)
    case ControlDone => t.(receipt := None)
    case Other(name, entry, fate) => t.(writer := Noted(t.writer, name, entry, fate).0)
    case StartRepair(id) => OnStartRepair(t, id)
    case LogRepair(id, name, entry, fate) => OnLogRepair(t, id, t.repairs[id].was, name, entry, fate)
    case FinishRepair(id, ok) => OnFinishRepair(t, id, t.repairs[id].was, ok)
    case OwnerRecovered => OnOwnerRecovered(t)
    case Close => t.(closed := true)
    case Crash(kept) => OnCrash(t, kept)
  }

  predicate Runs(t: Task, events: seq<Event>)
    decreases |events|
  {
    events == [] || (Enabled(t, events[0]) && Runs(Step(t, events[0]), events[1..]))
  }

  function Run(t: Task, events: seq<Event>): Task
    requires Runs(t, events)
    decreases |events|
  {
    if events == [] then t else Run(Step(t, events[0]), events[1..])
  }

  // ---- what every step keeps ----

  /** One activation at a time holds the task, and it shows in `pending` or `active`. */
  ghost predicate Single(t: Task) {
    && (forall f, g :: f in t.flows && g in t.flows ==> f == g)
    && (t.flows != map[] ==> t.pending || t.active.Some?)
  }

  predicate Last(t: Task, turn: TurnId) { t.launches != [] && t.launches[|t.launches| - 1].turn == turn }

  ghost predicate FlowInv(t: Task, p: Phase) {
    match p
    case Creating(acknowledged) => (t.uncertain ==> acknowledged) && t.receipt.None?
    case Live(turn) => t.active == Some(turn)
    case _ => true
  }

  /** A launched turn is the last one, is recorded, and its marker says that its outcome is unknown. */
  ghost predicate LaunchInv(t: Task, p: Phase) {
    && (!p.Creating? ==> p.turn in t.turns && Last(t, p.turn))
    && (Launched(p) ==> Unknown(t.marker) && !t.uncertain && p.turn !in t.finished)
  }

  ghost predicate FlowsInv(t: Task) { forall id :: id in t.flows ==> FlowInv(t, t.flows[id]) && LaunchInv(t, t.flows[id]) }

  /** The last turn launched is running, ended and saved, or uncertain; each before it was saved or its
      successor acknowledged that it was not. */
  ghost predicate Followed(t: Task) {
    && (forall k :: 0 <= k < |t.launches| - 1 ==> t.launches[k].turn in t.finished || t.launches[k + 1].acknowledged)
    && (t.launches != [] ==>
      || t.launches[|t.launches| - 1].turn in t.finished || t.uncertain
      || exists id :: id in t.flows && Launched(t.flows[id]))
  }

  ghost predicate MarkerInv(t: Task) {
    && (t.uncertain ==> Unknown(t.marker)) && (t.marker.Terminal? ==> t.marker.turn in t.finished)
    && (forall id :: id in t.repairs ==> Unknown(t.repairs[id].was))
  }

  // -- what is in the log --

  /** Everything submitted before the provider ended is in the log, in order, where the run wrote; before it
      may stand what an earlier run had left to arrive. */
  ghost predicate InLog(log: seq<R.Event>, turn: Turn) {
    && turn.run.start <= turn.end <= |log| && turn.drain <= |turn.run.submitted|
    && turn.run.submitted[..turn.drain] <= turn.settled && turn.settled <= turn.run.submitted
    && exists carried: seq<R.Entry> :: |carried| <= 1 && R.RunEntries(log[turn.run.start..turn.end]) == carried + turn.settled
  }

  ghost predicate LogInv(t: Task) {
    && R.WriterInv(t.writer)
    && (t.launches != [] ==> t.writer.log != [])
    && (forall turn :: turn in t.finished ==> turn in t.turns && InLog(t.writer.log, t.turns[turn]))
  }

  /** Nothing is left in a queue that nobody waits for: its turn runs, or ended and drains, or a control has
      its receipt at the end of it. */
  ghost predicate Waited(t: Task, turn: TurnId)
    requires turn in t.turns
  {
    var run := t.turns[turn].run;
    || run.failed || |run.submitted| <= |run.wrote|
    || (exists id :: id in t.flows && t.flows[id] == Live(turn))
    || (|run.submitted| <= t.turns[turn].drain && exists id :: id in t.flows && t.flows[id].Ended? && t.flows[id].turn == turn)
    || (t.receipt.Some? && t.receipt.value.Queued? && t.receipt.value.turn == turn && |run.submitted| <= t.receipt.value.at + 1)
  }

  predicate Busy(t: Task) { t.receipt.Some? || exists id :: id in t.flows && !t.flows[id].Creating? }

  ghost predicate QueueInv(t: Task) {
    && (forall turn :: turn in t.alive ==> turn in t.turns && Waited(t, turn))
    && (t.receipt.Some? ==> t.receipt.value.turn in t.turns && Last(t, t.receipt.value.turn) && t.receipt.value.turn in t.alive)
    && (forall id :: id in t.flows && !t.flows[id].Creating? ==> t.flows[id].turn in t.alive)
    && (Busy(t) ==> forall turn :: turn in t.turns && Last(t, turn) ==> R.RunInv(t.writer, t.turns[turn].run))
  }

  ghost predicate Inv(t: Task) {
    Single(t) && FlowsInv(t) && Followed(t) && MarkerInv(t) && LogInv(t) && QueueInv(t)
  }

  ghost predicate ControlInv(t: Task) { Single(t) && FlowsInv(t) && Followed(t) && MarkerInv(t) }

  // -- steps that leave every activation where it is --

  ghost predicate SameFlows(t: Task, t': Task) {
    && t'.flows == t.flows && t'.pending == t.pending && t'.active == t.active && t'.launches == t.launches
    && t'.finished == t.finished && t'.uncertain == t.uncertain
  }

  lemma CalmKeepsControl(t: Task, t': Task)
    requires ControlInv(t) && SameFlows(t, t') && t.turns.Keys <= t'.turns.Keys
    requires t'.marker == t.marker || Unknown(t'.marker)
    requires forall id :: id in t'.repairs ==> Unknown(t'.repairs[id].was)
    requires t'.receipt == t.receipt || t'.receipt.None? || exists id :: id in t.flows && !t.flows[id].Creating?
    ensures ControlInv(t')
  {
    forall f | f in t'.flows ensures FlowInv(t', t'.flows[f]) && LaunchInv(t', t'.flows[f]) {
      assert FlowInv(t, t.flows[f]) && LaunchInv(t, t.flows[f]);
    }
  }

  lemma WriteExtends(w: R.Writer, e: R.Event, fate: R.Fate)
    ensures w.log <= R.Write(w, e, fate).0.log
  {
  }

  lemma LogGrows(log: seq<R.Event>, log': seq<R.Event>, turn: Turn)
    requires InLog(log, turn) && log <= log'
    ensures InLog(log', turn)
  {
    assert log'[turn.run.start..turn.end] == log[turn.run.start..turn.end];
  }

  /** The log only grows and what is recorded of finished turns stays. */
  lemma LogKept(t: Task, t': Task)
    requires LogInv(t) && R.WriterInv(t'.writer) && t.writer.log <= t'.writer.log
    requires t'.launches == t.launches && t'.finished == t.finished
    requires forall turn :: turn in t.finished ==> turn in t'.turns && (t'.turns[turn] == t.turns[turn] || Later(t.turns[turn], t'.turns[turn]))
    ensures LogInv(t')
  {
    forall turn | turn in t'.finished ensures InLog(t'.writer.log, t'.turns[turn]) {
      LogGrows(t.writer.log, t'.writer.log, t.turns[turn]);
      assert t'.turns[turn].run.submitted[..t.turns[turn].drain] == t.turns[turn].run.submitted[..t.turns[turn].drain];
    }
  }

  /** The same turn, which has submitted no less. */
  predicate Later(turn: Turn, turn': Turn) {
    && turn' == turn.(run := turn'.run, spoiled := turn'.spoiled) && turn'.run.start == turn.run.start && turn.run.submitted <= turn'.run.submitted
  }

  lemma SameQueues(t: Task, t': Task)
    requires QueueInv(t) && t'.alive == t.alive && t'.turns.Keys == t.turns.Keys && t'.launches == t.launches && t'.flows == t.flows
    requires t'.receipt == t.receipt
    requires forall turn :: turn in t.turns ==> t'.turns[turn].run == t.turns[turn].run && t'.turns[turn].drain == t.turns[turn].drain
    requires Busy(t') ==> forall turn :: turn in t'.turns && Last(t', turn) ==> R.RunInv(t'.writer, t'.turns[turn].run)
    ensures QueueInv(t')
  {
    forall turn | turn in t'.alive ensures turn in t'.turns && Waited(t', turn) { assert Waited(t, turn); }
  }

  /** Somebody else's event passes the runs by. */
  lemma OtherWriteKeeps(t: Task, t': Task, name: nat, entry: R.Entry, fate: R.Fate)
    requires LogInv(t) && QueueInv(t) && t' == t.(writer := Noted(t.writer, name, entry, fate).0)
    ensures LogInv(t') && QueueInv(t')
  {
    var e := R.Event(R.OtherId(name), entry);
    var taken := if R.Resume(t.writer).log == [] && !fate.Stuck? then R.Lost else fate;
    R.WriteKeepsWriter(t.writer, e, taken);
    WriteExtends(t.writer, e, taken);
    LogKept(t, t');
    if Busy(t) {
      forall turn | turn in t.turns && Last(t, turn) ensures R.RunInv(t'.writer, t'.turns[turn].run) {
        R.OtherKeepsRun(t.writer, name, entry, taken, t.turns[turn].run);
      }
    }
    SameQueues(t, t');
  }

  lemma OtherKeepsInv(t: Task, name: nat, entry: R.Entry, fate: R.Fate)
    requires Inv(t)
    ensures Inv(Step(t, Other(name, entry, fate)))
  {
    var t' := Step(t, Other(name, entry, fate));
    CalmKeepsControl(t, t');
    OtherWriteKeeps(t, t', name, entry, fate);
  }

  /** Repairs, controls found and done, closing: nothing but the marker, the repairs and flags. */
  lemma MarkerMoves(t: Task, t': Task)
    requires Inv(t) && t' == t.(marker := t'.marker, repairs := t'.repairs, closed := t'.closed, late := t'.late)
    requires t'.marker == t.marker || Unknown(t'.marker)
    requires forall id :: id in t'.repairs ==> Unknown(t'.repairs[id].was)
    ensures Inv(t')
  {
    CalmKeepsControl(t, t');
    LogKept(t, t');
    SameQueues(t, t');
  }

  lemma LogRepairKeepsInv(t: Task, id: ActivationId, name: nat, entry: R.Entry, fate: R.Fate)
    requires Inv(t) && id in t.repairs
    ensures Inv(OnLogRepair(t, id, t.repairs[id].was, name, entry, fate))
  {
    var t' := OnLogRepair(t, id, t.repairs[id].was, name, entry, fate);
    var t1 := t.(repairs := t'.repairs);
    MarkerMoves(t, t1);
    OtherKeepsInv(t1, name, entry, fate);
    assert t' == Step(t1, Other(name, entry, fate));
  }

  // -- the queue --

  lemma WaitedCarries(t: Task, t': Task, turn: TurnId)
    requires turn in t.turns && turn in t'.turns && Waited(t, turn) && t'.flows == t.flows && t'.receipt == t.receipt
    requires t'.turns[turn].run.submitted == t.turns[turn].run.submitted && |t'.turns[turn].run.wrote| >= |t.turns[turn].run.wrote|
    requires t'.turns[turn].drain == t.turns[turn].drain && (t.turns[turn].run.failed ==> t'.turns[turn].run.failed)
    ensures Waited(t', turn)
  {
    if id :| id in t.flows && t.flows[id] == Live(turn) { assert t'.flows[id] == Live(turn); }
  }

  /** A receipt being queued is only ever one of the last turn. */
  lemma WaitedByOthers(t: Task, t': Task, turn: TurnId)
    requires turn in t.turns && turn in t'.turns && Waited(t, turn) && t'.flows == t.flows && t'.turns[turn] == t.turns[turn]
    requires t'.receipt == t.receipt || (t.receipt.Some? && t.receipt.value.Checked?)
    ensures Waited(t', turn)
  {
    if id :| id in t.flows && t.flows[id] == Live(turn) { assert t'.flows[id] == Live(turn); }
  }

  lemma SubmitKeepsQueues(t: Task, turn: TurnId, entry: R.Entry, receipt: Option<Receipt>)
    requires Inv(t) && turn in t.turns && turn in t.alive && Last(t, turn) && Busy(t)
    requires if receipt == t.receipt then exists id :: id in t.flows && t.flows[id] == Live(turn)
      else t.receipt == Some(Checked(turn)) && receipt == Some(Queued(turn, |t.turns[turn].run.submitted|))
    ensures QueueInv(WithRun(t, turn, Submitted(t.turns[turn].run, entry)).(receipt := receipt))
  {
    var run := t.turns[turn].run;
    var t' := WithRun(t, turn, Submitted(run, entry)).(receipt := receipt);
    R.SubmitKeepsRun(t.writer, run, entry);
    forall x | x in t'.alive ensures x in t'.turns && Waited(t', x) {
      assert Waited(t, x);
      if x != turn {
        WaitedByOthers(t, t', x);
      } else if receipt == t.receipt {
        var id :| id in t.flows && t.flows[id] == Live(turn);
        assert t'.flows[id] == Live(turn);
      }
    }
    assert Busy(t');
  }

  lemma SubmitKeeps(t: Task, turn: TurnId, entry: R.Entry, receipt: Option<Receipt>)
    requires Inv(t) && turn in t.turns && turn in t.alive && Last(t, turn) && Busy(t)
    requires if receipt == t.receipt then exists id :: id in t.flows && t.flows[id] == Live(turn)
      else t.receipt == Some(Checked(turn)) && receipt == Some(Queued(turn, |t.turns[turn].run.submitted|))
    ensures Inv(WithRun(t, turn, Submitted(t.turns[turn].run, entry)).(receipt := receipt))
  {
    var t' := WithRun(t, turn, Submitted(t.turns[turn].run, entry)).(receipt := receipt);
    CalmReceipt(t, t');
    LogKept(t, t');
    SubmitKeepsQueues(t, turn, entry, receipt);
  }

  /** While a control is in flight nothing is being created. */
  lemma CalmReceipt(t: Task, t': Task)
    requires ControlInv(t) && SameFlows(t, t') && t.turns.Keys <= t'.turns.Keys && t'.marker == t.marker && t'.repairs == t.repairs
    requires t'.receipt == t.receipt || t.receipt.Some?
    ensures ControlInv(t')
  {
    forall f | f in t'.flows ensures FlowInv(t', t'.flows[f]) && LaunchInv(t', t'.flows[f]) {
      assert FlowInv(t, t.flows[f]) && LaunchInv(t, t.flows[f]);
    }
  }

  lemma EmitKeepsInv(t: Task, id: ActivationId, entry: R.Entry)
    requires Inv(t) && Enabled(t, Emit(id, entry))
    ensures Inv(OnEmit(t, t.flows[id].turn, entry))
  {
    var turn := t.flows[id].turn;
    assert LaunchInv(t, t.flows[id]) && t.flows[id] == Live(turn);
    if !t.closed && !t.turns[turn].run.failed {
      SubmitKeeps(t, turn, entry, t.receipt);
      assert WithRun(t, turn, Submitted(t.turns[turn].run, entry)).(receipt := t.receipt) == OnEmit(t, turn, entry);
    }
  }

  lemma AppendKeepsRunInv(t: Task, turn: TurnId, fate: R.Fate)
    requires Inv(t) && turn in t.alive && turn in t.turns && R.CanAppend(t.turns[turn].run)
    ensures Last(t, turn) && Busy(t) && R.RunInv(t.writer, t.turns[turn].run)
  {
    assert Waited(t, turn);
    if id :| id in t.flows && !t.flows[id].Creating? && t.flows[id].turn == turn { assert LaunchInv(t, t.flows[id]); }
  }

  lemma FailureKeepsInv(t: Task, turn: TurnId, saved: bool)
    requires Inv(t) && turn in t.turns
    ensures Inv(OnFailure(t, turn, saved))
  {
    var t' := OnFailure(t, turn, saved);
    CalmKeepsControl(t, t');
    LogKept(t, t');
    SameQueues(t, t');
  }

  lemma AppendKeepsInv(t: Task, turn: TurnId, fate: R.Fate, saved: bool)
    requires Inv(t) && turn in t.alive && turn in t.turns && R.CanAppend(t.turns[turn].run)
    ensures Inv(OnAppend(t, turn, fate, saved))
  {
    AppendKeepsRunInv(t, turn, fate);
    var run := t.turns[turn].run;
    var entry := run.submitted[|run.wrote|];
    var (w, r) := R.Append(t.writer, run, entry, fate);
    R.AppendKeepsInv(t.writer, run, entry, fate);
    WriteExtends(t.writer, R.Event(R.RunId(run.written + 1), entry), fate);
    var next := WithRun(t, turn, r).(writer := w);
    AppendedKeepsInv(t, turn, r, w);
    if r.failed { FailureKeepsInv(next, turn, saved); }
  }

  lemma AppendedKeepsInv(t: Task, turn: TurnId, r: R.Run, w: R.Writer)
    requires Inv(t) && turn in t.alive && turn in t.turns && Last(t, turn) && Busy(t) && R.CanAppend(t.turns[turn].run)
    requires R.WriterInv(w) && t.writer.log <= w.log && R.RunInv(w, r)
    requires r == t.turns[turn].run.(written := r.written, failed := r.failed, wrote := r.wrote) && |r.wrote| >= |t.turns[turn].run.wrote|
    ensures Inv(WithRun(t, turn, r).(writer := w))
  {
    var t' := WithRun(t, turn, r).(writer := w);
    CalmKeepsControl(t, t');
    LogKept(t, t');
    forall x | x in t'.alive ensures x in t'.turns && Waited(t', x) {
      assert Waited(t, x);
      WaitedCarries(t, t', x);
    }
  }

  // -- starting, ending, crashing --

  lemma Alone(t: Task, id: ActivationId)
    requires Single(t) && id in t.flows
    ensures forall f :: f in t.flows ==> f == id
  {
  }

  lemma StartKeepsInv(t: Task, id: ActivationId, acknowledged: bool, admitted: bool)
    requires Inv(t) && id !in t.flows && t.receipt.None?
    ensures Inv(OnStart(t, id, acknowledged, admitted))
  {
    var t' := OnStart(t, id, acknowledged, admitted);
    if t' != t {
      assert t.flows == map[];
      forall x | x in t'.alive ensures x in t'.turns && Waited(t', x) { assert Waited(t, x); }
      LogKept(t, t');
    }
  }

  lemma AbandonKeepsInv(t: Task, id: ActivationId)
    requires Inv(t) && id in t.flows && t.flows[id].Creating?
    ensures Inv(Abandoned(t, id))
  {
    var t' := Abandoned(t, id);
    Alone(t, id);
    assert FlowInv(t, t.flows[id]) && t'.flows == map[];
    forall x | x in t'.alive ensures x in t'.turns && Waited(t', x) { assert Waited(t, x); }
    LogKept(t, t');
  }

  lemma CreationKeepsInv(t: Task, id: ActivationId, entry: R.Entry, fate: R.Fate)
    requires Inv(t) && id in t.flows && t.flows[id].Creating?
    ensures Inv(OnCreation(t, id, entry, fate))
  {
    if t.writer.log == [] {
      var e := R.Event(R.RunId(1), entry);
      var (w, ack) := R.Write(t.writer, e, fate);
      var t1 := t.(writer := w);
      R.WriteKeepsWriter(t.writer, e, fate);
      Alone(t, id);
      assert FlowInv(t, t.flows[id]);
      CalmKeepsControl(t, t1);
      LogKept(t, t1);
      SameQueues(t, t1);
      if ack.Failed? { AbandonKeepsInv(t1, id); }
    }
  }

  /** A turn is given to a provider only when the one before it has a saved end or is acknowledged not to. */
  lemma LaunchKeepsFollowed(t: Task, id: ActivationId, turn: TurnId, allowed: bool)
    requires Inv(t) && id in t.flows && t.flows[id].Creating? && turn !in t.turns
    ensures Followed(Begun(t, id, t.flows[id].acknowledged, turn, allowed))
  {
    var t' := Begun(t, id, t.flows[id].acknowledged, turn, allowed);
    Alone(t, id);
    assert id in t'.flows && Launched(t'.flows[id]);
    forall k | 0 <= k < |t'.launches| - 1 ensures t'.launches[k].turn in t'.finished || t'.launches[k + 1].acknowledged {
      if k == |t.launches| - 1 {
        assert FlowInv(t, t.flows[id]);
      } else {
        assert t'.launches[k] == t.launches[k] && t'.launches[k + 1] == t.launches[k + 1];
      }
    }
  }

  lemma LaunchKeepsFlows(t: Task, id: ActivationId, turn: TurnId, allowed: bool)
    requires Inv(t) && id in t.flows && t.flows[id].Creating? && turn !in t.turns
    ensures ControlInv(Begun(t, id, t.flows[id].acknowledged, turn, allowed))
  {
    var t' := Begun(t, id, t.flows[id].acknowledged, turn, allowed);
    Alone(t, id);
    LaunchKeepsFollowed(t, id, turn, allowed);
    assert t'.launches[|t'.launches| - 1].turn == turn;
  }

  lemma LaunchKeepsQueues(t: Task, id: ActivationId, turn: TurnId, allowed: bool)
    requires Inv(t) && id in t.flows && t.flows[id].Creating? && turn !in t.turns && t.writer.log != []
    ensures LogInv(Begun(t, id, t.flows[id].acknowledged, turn, allowed)) && QueueInv(Begun(t, id, t.flows[id].acknowledged, turn, allowed))
  {
    var t' := Begun(t, id, t.flows[id].acknowledged, turn, allowed);
    Alone(t, id);
    assert FlowInv(t, t.flows[id]);
    R.BeginKeepsRun(t.writer);
    forall x | x in t'.alive ensures x in t'.turns && Waited(t', x) { if x != turn { assert Waited(t, x); } }
    forall x | x in t'.finished ensures x in t'.turns && InLog(t'.writer.log, t'.turns[x]) { assert InLog(t.writer.log, t.turns[x]); }
    assert t'.launches[|t'.launches| - 1].turn == turn;
  }

  lemma CreatedKeepsInv(t: Task, id: ActivationId, saved: bool, turn: TurnId, allowed: bool)
    requires Inv(t) && Enabled(t, Created(id, saved, turn, allowed))
    ensures Inv(OnCreated(t, id, t.flows[id].acknowledged, saved, turn, allowed))
  {
    if t.closed || !saved {
      AbandonKeepsInv(t, id);
    } else {
      LaunchKeepsFlows(t, id, turn, allowed);
      LaunchKeepsQueues(t, id, turn, allowed);
    }
  }

  lemma EndedKeepsControl(t: Task, id: ActivationId, ok: bool, saved: bool)
    requires Inv(t) && Enabled(t, ProviderEnded(id, ok, saved))
    ensures ControlInv(Step(t, ProviderEnded(id, ok, saved)))
  {
    var t' := Step(t, ProviderEnded(id, ok, saved));
    Alone(t, id);
    assert FlowInv(t, t.flows[id]) && LaunchInv(t, t.flows[id]) && Launched(t'.flows[id]);
  }

  lemma EndedKeepsQueues(t: Task, id: ActivationId, ok: bool, saved: bool)
    requires Inv(t) && Enabled(t, ProviderEnded(id, ok, saved))
    ensures LogInv(Step(t, ProviderEnded(id, ok, saved))) && QueueInv(Step(t, ProviderEnded(id, ok, saved)))
  {
    var t' := Step(t, ProviderEnded(id, ok, saved));
    var turn := t.flows[id].turn;
    Alone(t, id);
    assert LaunchInv(t, t.flows[id]);
    LogKept(t, t');
    forall x | x in t'.alive ensures x in t'.turns && Waited(t', x) {
      assert Waited(t, x);
      if x == turn { assert t'.flows[id].Ended? && t'.flows[id].turn == turn; }
    }
    forall x | x in t'.turns && Last(t', x) ensures R.RunInv(t'.writer, t'.turns[x].run) { assert Last(t, x) && Busy(t); }
  }

  // -- saving the end --

  /** Of what the run wrote nothing is merely held: at most what it found held may be. */
  lemma WrittenIsInLog(w: R.Writer, r: R.Run)
    requires R.RunInv(w, r) && !r.failed
    ensures exists carried: seq<R.Entry> :: |carried| <= 1 && R.RunEntries(w.log[r.start..]) == carried + r.wrote
  {
    var log := w.log[r.start..];
    if w.pending.Some? {
      assert R.Since(w, r.start) == log + [w.pending.value];
      R.RunEntriesAppend(log, w.pending.value);
      if w.pending.value.id.RunId? {
        assert R.RunEntries(log) == [] + r.wrote;
      } else {
        assert R.RunEntries(log) == R.Carry(r) + r.wrote;
      }
    } else {
      assert R.Since(w, r.start) == log;
    }
  }

  /** A run that has not failed and has drained has everything in the log. */
  lemma DrainedIsInLog(t: Task, turn: TurnId)
    requires turn in t.turns && R.RunInv(t.writer, t.turns[turn].run) && Drained(t.turns[turn]) && !t.turns[turn].run.failed
    ensures InLog(t.writer.log, t.turns[turn].(end := |t.writer.log|, settled := t.turns[turn].run.wrote))
  {
    var run := t.turns[turn].run;
    WrittenIsInLog(t.writer, run);
    assert t.writer.log[run.start..|t.writer.log|] == t.writer.log[run.start..];
  }

  lemma SettleKeepsLog(t: Task, id: ActivationId, saved: bool, retried: bool)
    requires Inv(t) && Enabled(t, Settle(id, saved, retried))
    ensures LogInv(Step(t, Settle(id, saved, retried)))
  {
    var t' := Step(t, Settle(id, saved, retried));
    var turn := t.flows[id].turn;
    assert LaunchInv(t, t.flows[id]) && Busy(t);
    if t'.finished != t.finished {
      DrainedIsInLog(t, turn);
      forall x | x in t'.finished ensures x in t'.turns && InLog(t'.writer.log, t'.turns[x]) {
        assert x == turn || InLog(t.writer.log, t.turns[x]);
      }
    } else {
      LogKept(t, t');
    }
  }

  lemma SettleKeepsControl(t: Task, id: ActivationId, saved: bool, retried: bool)
    requires ControlInv(t) && Enabled(t, Settle(id, saved, retried))
    ensures ControlInv(Step(t, Settle(id, saved, retried)))
  {
    Alone(t, id);
    assert LaunchInv(t, t.flows[id]);
  }

  lemma SettleKeepsQueues(t: Task, id: ActivationId, saved: bool, retried: bool)
    requires Inv(t) && Enabled(t, Settle(id, saved, retried))
    ensures QueueInv(Step(t, Settle(id, saved, retried)))
  {
    var t' := Step(t, Settle(id, saved, retried));
    Alone(t, id);
    assert LaunchInv(t, t.flows[id]);
    forall x | x in t'.alive ensures x in t'.turns && Waited(t', x) { assert Waited(t, x); }
    forall x | x in t'.turns && Last(t', x) ensures R.RunInv(t'.writer, t'.turns[x].run) { assert Last(t, x) && Busy(t); }
  }

  lemma ReleaseKeepsInv(t: Task, id: ActivationId)
    requires Inv(t) && id in t.flows && t.flows[id].Marked?
    ensures Inv(OnRelease(t, id))
  {
    var t' := OnRelease(t, id);
    Alone(t, id);
    assert t'.flows == map[];
    LogKept(t, t');
    forall x | x in t'.alive ensures x in t'.turns && Waited(t', x) { assert Waited(t, x); }
  }

  lemma CrashKeepsInv(t: Task, kept: bool)
    requires Inv(t)
    ensures Inv(OnCrash(t, kept))
  {
    if id :| id in t.flows && Launched(t.flows[id]) { assert LaunchInv(t, t.flows[id]); }
    R.ReopenKeepsWriter(t.writer, kept);
    LogKept(t, OnCrash(t, kept));
  }

  lemma ControlKeepsInv(t: Task, e: Event)
    requires Inv(t) && Enabled(t, e) && (e.Control? || e.ControlDone?)
    ensures Inv(Step(t, e))
  {
    var t' := Step(t, e);
    if e.Control? {
      var id :| id in t.flows && t.flows[id] == Live(e.turn);
      assert LaunchInv(t, t.flows[id]);
      CalmKeepsControl(t, t');
    } else {
      CalmReceipt(t, t');
    }
    LogKept(t, t');
    forall x | x in t'.alive ensures x in t'.turns && Waited(t', x) { assert Waited(t, x); }
  }

  predicate MovesFlows(e: Event) { e.Start? || e.Creation? || e.Created? || e.ProviderEnded? || e.Settle? || e.Release? || e.Crash? }

  lemma FlowStepKeepsInv(t: Task, e: Event)
    requires Inv(t) && Enabled(t, e) && MovesFlows(e)
    ensures Inv(Step(t, e))
  {
    match e
    case Start(id, acknowledged, admitted) => StartKeepsInv(t, id, acknowledged, admitted);
    case Creation(id, entry, fate) => CreationKeepsInv(t, id, entry, fate);
    case Created(id, saved, turn, allowed) => CreatedKeepsInv(t, id, saved, turn, allowed);
    case ProviderEnded(id, ok, saved) =>
      EndedKeepsControl(t, id, ok, saved);
      EndedKeepsQueues(t, id, ok, saved);
    case Settle(id, saved, retried) =>
      SettleKeepsControl(t, id, saved, retried);
      SettleKeepsLog(t, id, saved, retried);
      SettleKeepsQueues(t, id, saved, retried);
    case Release(id) => ReleaseKeepsInv(t, id);
    case Crash(kept) => CrashKeepsInv(t, kept);
  }

  lemma CalmStepKeepsInv(t: Task, e: Event)
    requires Inv(t) && Enabled(t, e) && !MovesFlows(e)
    ensures Inv(Step(t, e))
  {
    match e
    case Emit(id, entry) => EmitKeepsInv(t, id, entry);
    case Append(turn, fate, saved) => AppendKeepsInv(t, turn, fate, saved);
    case Control(_) => ControlKeepsInv(t, e);
    case Reply(entry) => ReplyKeepsInv(t, entry);
    case ControlDone => ControlKeepsInv(t, e);
    case Other(name, entry, fate) => OtherKeepsInv(t, name, entry, fate);
    case LogRepair(id, name, entry, fate) => LogRepairKeepsInv(t, id, name, entry, fate);
    case StartRepair(_) => RepairStepKeepsInv(t, e);
    case FinishRepair(_, _) => RepairStepKeepsInv(t, e);
    case _ => MarkerStepKeepsInv(t, e);
  }

  lemma ReplyKeepsInv(t: Task, entry: R.Entry)
    requires Inv(t) && Enabled(t, Reply(entry))
    ensures Inv(OnReply(t, t.receipt.value.turn, entry))
  {
    var turn := t.receipt.value.turn;
    SubmitKeeps(t, turn, entry, Some(Queued(turn, |t.turns[turn].run.submitted|)));
  }

  lemma RepairStepKeepsInv(t: Task, e: Event)
    requires Inv(t) && Enabled(t, e) && (e.StartRepair? || e.FinishRepair?)
    ensures Inv(Step(t, e))
  {
    match e
    case StartRepair(id) => MarkerMoves(t, OnStartRepair(t, id));
    case FinishRepair(id, ok) => MarkerMoves(t, OnFinishRepair(t, id, t.repairs[id].was, ok));
  }

  lemma MarkerStepKeepsInv(t: Task, e: Event)
    requires Inv(t) && Enabled(t, e) && (e.Touch? || e.OwnerRecovered? || e.Close?)
    ensures Inv(Step(t, e))
  {
    match e
    case Touch(id) => MarkerMoves(t, t.(marker := Own(t.flows[id].turn, t.turns[t.flows[id].turn].spoiled)));
    case OwnerRecovered => MarkerMoves(t, OnOwnerRecovered(t));
    case Close => MarkerMoves(t, t.(closed := true));
  }

  lemma StepKeepsInv(t: Task, e: Event)
    requires Inv(t) && Enabled(t, e)
    ensures Inv(Step(t, e))
  {
    if MovesFlows(e) { FlowStepKeepsInv(t, e); } else { CalmStepKeepsInv(t, e); }
  }

  lemma {:induction false} RunKeepsInv(t: Task, events: seq<Event>)
    requires Inv(t) && Runs(t, events)
    ensures Inv(Run(t, events))
    decreases |events|
  {
    if events != [] {
      StepKeepsInv(t, events[0]);
      RunKeepsInv(Step(t, events[0]), events[1..]);
    }
  }

  // ---- the claims over every run ----

  /** At most one activation runs or has run a provider without having released the task, and while its
      provider runs or its appends drain the durable marker says that the outcome is unknown, so a crash at
      any moment finds it so. */
  lemma OneSessionAtATime(events: seq<Event>, f: ActivationId, g: ActivationId)
    requires Runs(INITIAL, events) && f in Run(INITIAL, events).flows && g in Run(INITIAL, events).flows
    ensures f == g && (Launched(Run(INITIAL, events).flows[f]) ==> Unknown(Run(INITIAL, events).marker))
  {
    InitialInv();
    RunKeepsInv(INITIAL, events);
    assert LaunchInv(Run(INITIAL, events), Run(INITIAL, events).flows[f]);
  }

  lemma InitialInv()
    ensures Inv(INITIAL)
  {
  }

  /** Between any two turns given to a provider, either the first's end was saved or a person acknowledged
      that it is not known; and while it is not, the marker says so. */
  lemma NothingResumesSilently(events: seq<Event>, k: nat)
    requires Runs(INITIAL, events) && k + 1 < |Run(INITIAL, events).launches|
    ensures var t := Run(INITIAL, events);
      && (t.launches[k].turn in t.finished || t.launches[k + 1].acknowledged)
      && (t.uncertain ==> Unknown(t.marker))
  {
    InitialInv();
    RunKeepsInv(INITIAL, events);
  }

  /** A terminal marker means that everything the turn submitted while its provider ran is in the log, in
      order, and nothing that happens later takes it away; receipts that arrived after that may or may not
      follow. */
  lemma TerminalMeansWritten(events: seq<Event>)
    requires Runs(INITIAL, events) && Run(INITIAL, events).marker.Terminal?
    ensures var t := Run(INITIAL, events);
      && t.marker.turn in t.turns
      && var turn := t.turns[t.marker.turn];
         turn.drain <= |turn.run.submitted| && InLog(t.writer.log, turn)
         && exists carried: seq<R.Entry>, after: seq<R.Entry> ::
              && |carried| <= 1 && turn.run.submitted[..turn.drain] + after <= turn.run.submitted
              && R.RunEntries(t.writer.log[turn.run.start..turn.end]) == carried + turn.run.submitted[..turn.drain] + after
  {
    InitialInv();
    RunKeepsInv(INITIAL, events);
    var t := Run(INITIAL, events);
    var turn := t.turns[t.marker.turn];
    var carried: seq<R.Entry> :| |carried| <= 1 && R.RunEntries(t.writer.log[turn.run.start..turn.end]) == carried + turn.settled;
    var after := turn.settled[turn.drain..];
    assert turn.settled == turn.run.submitted[..turn.drain] + after;
    assert carried + turn.settled == carried + turn.run.submitted[..turn.drain] + after;
  }

  // ---- calls one after another ----

  /** The host makes its calls one after another: it polls its tasks in turn, applying controls first. So a
      turn starts and a repair begins only when no repair is under way and nothing is being created, and a turn
      that acknowledges an unknown end starts after a reconcile that has logged it. */
  predicate InOrder(t: Task, e: Event) {
    match e
    case Start(_, _, _) => t.repairs == map[] && NoneCreating(t) && (t.marker.Recovery? ==> t.marker.logged)
    case StartRepair(_) => t.repairs == map[] && NoneCreating(t) && t.receipt.None?
    case _ => true
  }

  predicate NoneCreating(t: Task) { forall id :: id in t.flows ==> !t.flows[id].Creating? }

  predicate RunsInOrder(t: Task, events: seq<Event>)
    decreases |events|
  {
    events == [] || (Enabled(t, events[0]) && InOrder(t, events[0]) && RunsInOrder(Step(t, events[0]), events[1..]))
  }

  lemma {:induction false} InOrderRuns(t: Task, events: seq<Event>)
    requires RunsInOrder(t, events)
    ensures Runs(t, events)
    decreases |events|
  {
    if events != [] { InOrderRuns(Step(t, events[0]), events[1..]); }
  }

  predicate HoldsRun(w: R.Writer) { R.HeldRecord(w).Some? }

  /** A run's record is held only while the log is still empty, or under a marker from which nothing starts
      before reconcile has written to the log, or after a save that would have set such a marker was lost. */
  ghost predicate HeldInv(t: Task) {
    && (HoldsRun(t.writer) && !t.late ==> t.writer.log == [] || Guards(t.marker))
    && (t.writer.log == [] && t.writer.pending.Some? ==> t.writer.pending.value.id == R.RunId(1))
  }

  /** A launched turn's run found nothing held, and holds something only after it failed. */
  ghost predicate CleanInv(t: Task) {
    !t.late ==>
      && (forall turn :: turn in t.alive && turn in t.turns ==> t.turns[turn].run.carried.None?)
      && (forall id :: id in t.flows && !t.flows[id].Creating? && t.flows[id].turn in t.turns ==>
            !t.turns[t.flows[id].turn].run.failed ==> !HoldsRun(t.writer))
      && (forall id :: id in t.flows && t.flows[id].Creating? ==> HoldsRun(t.writer) ==> t.writer.log == [])
  }

  /** While a repair is under way nothing else of the task is; once it has logged, nothing of a run is held. */
  ghost predicate RepairsAlone(t: Task) {
    t.repairs != map[] ==>
      && t.active.None? && t.receipt.None? && NoneCreating(t)
      && (forall turn :: turn in t.alive && turn in t.turns ==> !R.CanAppend(t.turns[turn].run))
      && (forall id :: id in t.repairs && t.repairs[id].logged ==> !HoldsRun(t.writer))
  }

  /** While something of a run may still be appended, the marker is one from which nothing starts, or the
      turn's end was saved. */
  ghost predicate Settling(t: Task) {
    (exists turn :: turn in t.alive && turn in t.turns && R.CanAppend(t.turns[turn].run)) || t.receipt.Some? || (exists id :: id in t.flows && t.flows[id].Live?) ==>
      Guards(t.marker) || t.marker.Terminal?
  }

  /** A turn whose provider was never reached has nothing to append. */
  ghost predicate RefusedInv(t: Task) {
    t.active.None? ==> forall id :: id in t.flows && !t.flows[id].Creating? && t.flows[id].turn in t.turns ==>
      t.receipt.None? && t.turns[t.flows[id].turn].run.submitted == []
  }

  ghost predicate Ordered(t: Task) { HeldInv(t) && CleanInv(t) && RepairsAlone(t) && Settling(t) && RefusedInv(t) }

  lemma IdleAppendsNothing(t: Task, turn: TurnId)
    requires Inv(t) && RefusedInv(t) && t.receipt.None? && t.active.None? && turn in t.alive
    ensures turn in t.turns && !R.CanAppend(t.turns[turn].run)
  {
    assert Waited(t, turn);
    if id :| id in t.flows && t.flows[id] == Live(turn) { assert FlowInv(t, t.flows[id]); }
  }

  /** While something is being created nothing can be appended and nothing repaired. */
  lemma CreatingAlone(t: Task, id: ActivationId)
    requires Inv(t) && Ordered(t) && id in t.flows && t.flows[id].Creating?
    ensures t.repairs == map[] && t.receipt.None? && (forall f :: f in t.flows ==> f == id)
    ensures forall turn :: turn in t.alive ==> turn in t.turns && !R.CanAppend(t.turns[turn].run)
  {
    Alone(t, id);
    assert FlowInv(t, t.flows[id]);
    forall turn | turn in t.alive ensures turn in t.turns && !R.CanAppend(t.turns[turn].run) { assert Waited(t, turn); }
  }

  lemma StartKeepsOrder(t: Task, id: ActivationId, acknowledged: bool, admitted: bool)
    requires Inv(t) && Ordered(t) && Enabled(t, Start(id, acknowledged, admitted)) && InOrder(t, Start(id, acknowledged, admitted))
    ensures Ordered(OnStart(t, id, acknowledged, admitted))
  {
    var t' := OnStart(t, id, acknowledged, admitted);
    if t' != t { assert t.flows == map[]; }
  }

  lemma CreationKeepsOrder(t: Task, id: ActivationId, entry: R.Entry, fate: R.Fate)
    requires Inv(t) && Ordered(t) && id in t.flows && t.flows[id].Creating?
    ensures Ordered(OnCreation(t, id, entry, fate))
  {
    CreatingAlone(t, id);
    var t' := OnCreation(t, id, entry, fate);
    if t.writer.log == [] {
      var e := R.Event(R.RunId(1), entry);
      CreatingHolds(t.writer, e, fate);
    }
  }

  /** The writer of an empty log holds nothing but a creating event. */
  lemma CreatingHolds(w: R.Writer, e: R.Event, fate: R.Fate)
    requires w.log == [] && e.id == R.RunId(1) && R.WriterInv(w) && (w.pending.Some? ==> w.pending.value.id == R.RunId(1))
    ensures var (w', ack) := R.Write(w, e, fate);
      (HoldsRun(w') ==> w'.log == [] && ack.Failed?) && (w'.log == [] && w'.pending.Some? ==> w'.pending.value.id == R.RunId(1))
  {
    if w.pending.Some? {
      assert R.Resume(w).log == [w.pending.value] && w.pending.value in R.Resume(w).log;
    }
  }

  lemma CreatedKeepsOrder(t: Task, id: ActivationId, saved: bool, turn: TurnId, allowed: bool)
    requires Inv(t) && Ordered(t) && Enabled(t, Created(id, saved, turn, allowed))
    ensures Ordered(OnCreated(t, id, t.flows[id].acknowledged, saved, turn, allowed))
  {
    CreatingAlone(t, id);
  }

  /** Steps that only submit. */
  lemma SubmitKeepsOrder(t: Task, turn: TurnId, entry: R.Entry, receipt: Option<Receipt>)
    requires Inv(t) && Ordered(t) && turn in t.turns && Last(t, turn)
    requires t.receipt.Some? || exists id :: id in t.flows && t.flows[id] == Live(turn)
    requires receipt == t.receipt || (t.receipt.Some? && receipt.Some?)
    ensures Ordered(WithRun(t, turn, Submitted(t.turns[turn].run, entry)).(receipt := receipt))
  {
    if t.receipt.None? {
      var id :| id in t.flows && t.flows[id] == Live(turn);
      Alone(t, id);
      assert FlowInv(t, t.flows[id]);
    }
  }

  lemma EmitKeepsOrder(t: Task, id: ActivationId, entry: R.Entry)
    requires Inv(t) && Ordered(t) && Enabled(t, Emit(id, entry))
    ensures Ordered(OnEmit(t, t.flows[id].turn, entry))
  {
    var turn := t.flows[id].turn;
    assert LaunchInv(t, t.flows[id]) && t.flows[id] == Live(turn);
    if !t.closed && !t.turns[turn].run.failed {
      SubmitKeepsOrder(t, turn, entry, t.receipt);
      assert WithRun(t, turn, Submitted(t.turns[turn].run, entry)).(receipt := t.receipt) == OnEmit(t, turn, entry);
    }
  }

  /** A success leaves nothing held, a failure leaves a marker that says so or is late. */
  lemma AppendHolds(t: Task, turn: TurnId, fate: R.Fate, saved: bool)
    requires turn in t.turns && R.CanAppend(t.turns[turn].run) && R.WriterInv(t.writer) && t.writer.log != []
    ensures var t' := OnAppend(t, turn, fate, saved);
      && turn in t'.turns && (!t'.turns[turn].run.failed ==> !HoldsRun(t'.writer) && t'.late == t.late && t'.marker == t.marker)
      && (t'.turns[turn].run.failed ==> t'.late || (Guards(t'.marker) && t'.late == t.late)) && t'.writer.log != []
      && (t'.marker == t.marker || Guards(t'.marker)) && (t.late ==> t'.late)
  {
  }

  /** What an append leaves as it was. */
  ghost predicate Appended(t: Task, turn: TurnId, t': Task) {
    && SameFlows(t, t') && t'.receipt == t.receipt && t'.repairs == t.repairs && t'.alive == t.alive
    && turn in t.turns && turn in t'.turns && t'.turns == t.turns[turn := t'.turns[turn]]
    && t'.turns[turn].run.carried == t.turns[turn].run.carried && t'.turns[turn].run.submitted == t.turns[turn].run.submitted
    && R.CanAppend(t.turns[turn].run)
  }

  lemma AppendLeaves(t: Task, turn: TurnId, fate: R.Fate, saved: bool)
    requires turn in t.turns && R.CanAppend(t.turns[turn].run)
    ensures Appended(t, turn, OnAppend(t, turn, fate, saved))
  {
    var run := t.turns[turn].run;
    var (w, r) := R.Append(t.writer, run, run.submitted[|run.wrote|], fate);
    var next := WithRun(t, turn, r).(writer := w);
    assert next.turns == t.turns[turn := t.turns[turn].(run := r)];
    FailureLeaves(next, turn, saved);
  }

  lemma FailureLeaves(t: Task, turn: TurnId, saved: bool)
    requires turn in t.turns
    ensures var t' := OnFailure(t, turn, saved);
      SameFlows(t, t') && (t'.receipt, t'.repairs, t'.alive) == (t.receipt, t.repairs, t.alive)
      && turn in t'.turns && t'.turns == t.turns[turn := t'.turns[turn]] && t'.turns[turn].run == t.turns[turn].run
  {
  }

  lemma NothingIsCreated(t: Task, turn: TurnId)
    requires Inv(t) && turn in t.alive && turn in t.turns && R.CanAppend(t.turns[turn].run)
    ensures NoneCreating(t)
  {
    assert Waited(t, turn);
    forall id | id in t.flows ensures !t.flows[id].Creating? {
      Alone(t, id);
      assert FlowInv(t, t.flows[id]);
    }
  }

  lemma AppendedKeepsOrder(t: Task, turn: TurnId, t': Task)
    requires Inv(t) && Ordered(t) && turn in t.alive && Appended(t, turn, t') && t.writer.log != [] && t'.writer.log != []
    requires !t'.turns[turn].run.failed ==> !HoldsRun(t'.writer) && t'.late == t.late && t'.marker == t.marker
    requires t'.turns[turn].run.failed ==> t'.late || (Guards(t'.marker) && t'.late == t.late)
    requires (t'.marker == t.marker || Guards(t'.marker)) && (t.late ==> t'.late)
    ensures Ordered(t')
  {
    NothingIsCreated(t, turn);
    assert t.repairs == map[];
    AppendedClean(t, turn, t');
  }

  lemma AppendedClean(t: Task, turn: TurnId, t': Task)
    requires Inv(t) && CleanInv(t) && turn in t.alive && Appended(t, turn, t') && NoneCreating(t)
    requires !t'.turns[turn].run.failed ==> !HoldsRun(t'.writer)
    requires t.late ==> t'.late
    ensures CleanInv(t')
  {
    forall id | id in t'.flows && t'.flows[id].turn in t'.turns && !t'.late && !t'.turns[t'.flows[id].turn].run.failed ensures !HoldsRun(t'.writer) {
      AppendKeepsRunInv(t, turn, R.Written);
      assert LaunchInv(t, t.flows[id]);
    }
  }

  lemma AppendKeepsOrder(t: Task, turn: TurnId, fate: R.Fate, saved: bool)
    requires Inv(t) && Ordered(t) && Enabled(t, Append(turn, fate, saved))
    ensures Ordered(OnAppend(t, turn, fate, saved))
  {
    AppendKeepsRunInv(t, turn, fate);
    AppendHolds(t, turn, fate, saved);
    AppendLeaves(t, turn, fate, saved);
    AppendedKeepsOrder(t, turn, OnAppend(t, turn, fate, saved));
  }

  lemma EndedKeepsOrder(t: Task, id: ActivationId, ok: bool, saved: bool)
    requires Inv(t) && Ordered(t) && Enabled(t, ProviderEnded(id, ok, saved))
    ensures Ordered(Step(t, ProviderEnded(id, ok, saved)))
  {
    Alone(t, id);
    assert FlowInv(t, t.flows[id]) && t.repairs == map[];
  }

  /** What saving an end leaves: the flow marked, and a marker that was saved or is the one before. */
  ghost predicate SettledTo(t: Task, id: ActivationId, t': Task) {
    && At(t, id) && t.flows[id].Ended? && t'.flows == t.flows[id := Marked(t.flows[id].turn)]
    && t' == t.(flows := t'.flows, marker := t'.marker, finished := t'.finished, uncertain := t'.uncertain, turns := t'.turns)
    && t'.turns.Keys == t.turns.Keys && (forall turn :: turn in t.turns ==> t'.turns[turn].run == t.turns[turn].run)
    && (t'.marker == t.marker || Guards(t'.marker) || (t'.marker.Terminal? && !t.turns[t.flows[id].turn].run.failed))
  }

  lemma SettleLeaves(t: Task, id: ActivationId, saved: bool, retried: bool)
    requires Enabled(t, Settle(id, saved, retried))
    ensures SettledTo(t, id, Step(t, Settle(id, saved, retried)))
  {
  }

  lemma SettledKeepsOrder(t: Task, id: ActivationId, t': Task)
    requires Inv(t) && Ordered(t) && SettledTo(t, id, t')
    ensures Ordered(t')
  {
    Alone(t, id);
    assert FlowInv(t, t.flows[id]);
  }

  lemma SettleKeepsOrder(t: Task, id: ActivationId, saved: bool, retried: bool)
    requires Inv(t) && Ordered(t) && Enabled(t, Settle(id, saved, retried))
    ensures Ordered(Step(t, Settle(id, saved, retried)))
  {
    SettleLeaves(t, id, saved, retried);
    SettledKeepsOrder(t, id, Step(t, Settle(id, saved, retried)));
  }

  lemma ReleaseKeepsOrder(t: Task, id: ActivationId)
    requires Inv(t) && Ordered(t) && Enabled(t, Release(id))
    ensures Ordered(OnRelease(t, id))
  {
    Alone(t, id);
  }

  lemma ControlKeepsOrder(t: Task, e: Event)
    requires Inv(t) && Ordered(t) && Enabled(t, e) && (e.Control? || e.ControlDone?)
    ensures Ordered(Step(t, e))
  {
    if e.Control? {
      var id :| id in t.flows && t.flows[id] == Live(e.turn);
      Alone(t, id);
      assert FlowInv(t, t.flows[id]);
    }
  }

  lemma NotedHolds(w: R.Writer, name: nat, entry: R.Entry, fate: R.Fate)
    ensures var (w', ack) := Noted(w, name, entry, fate);
      && w.log <= w'.log && (HoldsRun(w') ==> w' == w) && (!ack.Failed? ==> !HoldsRun(w')) && (w'.log == [] && w'.pending.Some? ==> w' == w)
  {
  }

  lemma NotedKeepsOrder(t: Task, e: Event)
    requires Inv(t) && Ordered(t) && Enabled(t, e) && (e.Other? || e.LogRepair?)
    ensures Ordered(Step(t, e))
  {
    NotedHolds(t.writer, e.name, e.entry, e.fate);
  }

  lemma StartRepairKeepsOrder(t: Task, id: ActivationId)
    requires Inv(t) && Ordered(t) && InOrder(t, StartRepair(id))
    ensures Ordered(OnStartRepair(t, id))
  {
    if t.active.None? {
      forall turn | turn in t.alive ensures turn in t.turns && !R.CanAppend(t.turns[turn].run) { IdleAppendsNothing(t, turn); }
    }
  }

  lemma FinishRepairKeepsOrder(t: Task, id: ActivationId, ok: bool)
    requires Inv(t) && Ordered(t) && Enabled(t, FinishRepair(id, ok))
    ensures Ordered(OnFinishRepair(t, id, t.repairs[id].was, ok))
  {
    forall f | f in t.flows ensures !t.flows[f].Live? { assert FlowInv(t, t.flows[f]); }
  }

  lemma TouchKeepsOrder(t: Task, turn: TurnId, spoiled: bool)
    requires Inv(t) && Ordered(t)
    ensures Ordered(t.(marker := Own(turn, spoiled)))
  {
  }

  lemma MarkerKeepsOrder(t: Task, e: Event)
    requires Inv(t) && Ordered(t) && Enabled(t, e) && (e.Touch? || e.OwnerRecovered? || e.Close?)
    ensures Ordered(Step(t, e))
  {
    match e
    case Touch(id) => TouchKeepsOrder(t, t.flows[id].turn, t.turns[t.flows[id].turn].spoiled);
    case OwnerRecovered => if t.marker.Running? { TouchKeepsOrder(t, t.marker.turn, true); }
    case Close =>
  }

  lemma FlowStepKeepsOrder(t: Task, e: Event)
    requires Inv(t) && Ordered(t) && Enabled(t, e) && InOrder(t, e) && MovesFlows(e)
    ensures Ordered(Step(t, e))
  {
    match e
    case Start(id, acknowledged, admitted) => StartKeepsOrder(t, id, acknowledged, admitted);
    case Creation(id, entry, fate) => CreationKeepsOrder(t, id, entry, fate);
    case Created(id, saved, turn, allowed) => CreatedKeepsOrder(t, id, saved, turn, allowed);
    case ProviderEnded(id, ok, saved) => EndedKeepsOrder(t, id, ok, saved);
    case Settle(id, saved, retried) => SettleKeepsOrder(t, id, saved, retried);
    case Release(id) => ReleaseKeepsOrder(t, id);
    case Crash(kept) =>
  }

  lemma CalmStepKeepsOrder(t: Task, e: Event)
    requires Inv(t) && Ordered(t) && Enabled(t, e) && InOrder(t, e) && !MovesFlows(e)
    ensures Ordered(Step(t, e))
  {
    match e
    case Emit(id, entry) => EmitKeepsOrder(t, id, entry);
    case Append(turn, fate, saved) => AppendKeepsOrder(t, turn, fate, saved);
    case Control(_) => ControlKeepsOrder(t, e);
    case ControlDone => ControlKeepsOrder(t, e);
    case Reply(entry) => SubmitKeepsOrder(t, t.receipt.value.turn, entry, Some(Queued(t.receipt.value.turn, |t.turns[t.receipt.value.turn].run.submitted|)));
    case Other(_, _, _) => NotedKeepsOrder(t, e);
    case LogRepair(_, _, _, _) => NotedKeepsOrder(t, e);
    case StartRepair(id) => StartRepairKeepsOrder(t, id);
    case FinishRepair(id, ok) => FinishRepairKeepsOrder(t, id, ok);
    case _ => MarkerKeepsOrder(t, e);
  }

  lemma {:induction false} OrderKept(t: Task, events: seq<Event>)
    requires Inv(t) && Ordered(t) && RunsInOrder(t, events)
    ensures Runs(t, events) && Inv(Run(t, events)) && Ordered(Run(t, events))
    decreases |events|
  {
    if events != [] {
      StepKeepsInv(t, events[0]);
      if MovesFlows(events[0]) { FlowStepKeepsOrder(t, events[0]); } else { CalmStepKeepsOrder(t, events[0]); }
      OrderKept(Step(t, events[0]), events[1..]);
    }
  }

  // ---- the claims over runs in order ----

  /** With the host's calls one after another, no two events of the log share an id and no run's append meets
      an id already used, so that it fails only for a real failure, unless a marker's save was lost after an
      append had failed. */
  lemma IdsNeverCollide(events: seq<Event>, turn: TurnId, fate: R.Fate, saved: bool)
    requires RunsInOrder(INITIAL, events) && Runs(INITIAL, events) && Enabled(Run(INITIAL, events), Append(turn, fate, saved))
    ensures var t := Run(INITIAL, events);
      && R.DistinctIds(R.Resume(t.writer).log)
      && (!t.late ==>
            && R.RunId(t.turns[turn].run.written + 1) !in R.Ids(R.Resume(t.writer).log)
            && (Step(t, Append(turn, fate, saved)).turns[turn].run.failed <==> !fate.Written?))
  {
    InitialInv();
    OrderKept(INITIAL, events);
    var t := Run(INITIAL, events);
    var run := t.turns[turn].run;
    AppendKeepsRunInv(t, turn, fate);
    assert R.WriterInv(R.Resume(t.writer));
    R.NextIsNewUnlessClash(t.writer, run);
    R.AppendKeepsInv(t.writer, run, run.submitted[|run.wrote|], fate);
    AppendLeavesRun(t, turn, fate, saved);
  }

  lemma AppendLeavesRun(t: Task, turn: TurnId, fate: R.Fate, saved: bool)
    requires turn in t.turns && R.CanAppend(t.turns[turn].run)
    ensures var run := t.turns[turn].run;
      var t' := OnAppend(t, turn, fate, saved);
      turn in t'.turns && t'.turns[turn].run == R.Append(t.writer, run, run.submitted[|run.wrote|], fate).1
  {
  }

  /** That takes a turn whose end had been saved, a receipt for it that arrived after, an append of it that
      failed, and a save of the marker that was lost or came when the host was closing. */
  lemma LateExactly(events: seq<Event>, e: Event)
    requires RunsInOrder(INITIAL, events) && Runs(INITIAL, events) && Enabled(Run(INITIAL, events), e) && InOrder(Run(INITIAL, events), e)
    requires !Run(INITIAL, events).late
    ensures var t := Run(INITIAL, events);
      Step(t, e).late <==>
        e.Append? && t.marker.Terminal? && (!e.saved || t.closed)
        && R.Append(t.writer, t.turns[e.turn].run, t.turns[e.turn].run.submitted[|t.turns[e.turn].run.wrote|], e.fate).1.failed
  {
    InitialInv();
    OrderKept(INITIAL, events);
    if e.Append? { AppendIsLate(Run(INITIAL, events), e.turn, e.fate, e.saved); } else { OnlyAppendsAreLate(Run(INITIAL, events), e); }
  }

  lemma AppendIsLate(t: Task, turn: TurnId, fate: R.Fate, saved: bool)
    requires Settling(t) && turn in t.alive && turn in t.turns && R.CanAppend(t.turns[turn].run) && !t.late
    ensures OnAppend(t, turn, fate, saved).late <==>
      && t.marker.Terminal? && (!saved || t.closed)
      && R.Append(t.writer, t.turns[turn].run, t.turns[turn].run.submitted[|t.turns[turn].run.wrote|], fate).1.failed
  {
  }

  lemma OnlyAppendsAreLate(t: Task, e: Event)
    requires Enabled(t, e) && !e.Append? && !t.late
    ensures !Step(t, e).late
  {
  }

  // ---- the execution object, for one task ----

  class EncryptedExecution {
    var marker: Marker
    var pending: bool
    var active: Option<TurnId>
    var flows: map<ActivationId, Phase>
    var repairs: map<ActivationId, Repair>
    var receipt: Option<Receipt>
    var closed: bool
    var writer: R.Writer
    var turns: map<TurnId, Turn>
    var alive: set<TurnId>
    ghost var launches: seq<Launch>
    ghost var finished: set<TurnId>
    ghost var uncertain: bool
    ghost var late: bool

    ghost function Fields(): Task
      reads this
    {
      Task(marker, pending, active, flows, repairs, receipt, closed, writer, turns, alive, launches, finished, uncertain, late)
    }

    ghost predicate Valid()
      reads this
    {
      Inv(Fields())
    }

    constructor ()
      ensures Fields() == INITIAL && Valid()
    {
      marker, pending, active, flows, repairs, receipt, closed := Absent, false, None, map[], map[], None, false;
      writer, turns, alive := R.Writer([], None), map[], {};
      launches, finished, uncertain, late := [], {}, false, false;
      new;
      InitialInv();
    }

    /** Up to the creating event. */
    method StartTask(id: ActivationId, acknowledged: bool, admitted: bool) returns (started: bool)
      requires Valid() && id !in flows && receipt.None?
      modifies this`pending, this`flows
      ensures Valid() && Fields() == OnStart(old(Fields()), id, acknowledged, admitted) && (started <==> id in flows)
    {
      StartKeepsInv(Fields(), id, acknowledged, admitted);
      if closed { return false; }
      if active.Some? || pending { return false; }
      if !admitted { return false; }
      if marker.Running? { return false; }
      if marker.Recovery? && !acknowledged { return false; }
      pending := true;
      flows := flows[id := Creating(acknowledged)];
      started := true;
    }

    method WriteCreation(id: ActivationId, entry: R.Entry, fate: R.Fate)
      requires id in flows
      modifies this`writer, this`pending, this`flows
      ensures Fields() == OnCreation(old(Fields()), id, entry, fate)
    {
      if writer.log != [] { return; }
      var (w, ack) := R.Write(writer, R.Event(R.RunId(1), entry), fate);
      writer := w;
      if ack.Failed? {
        pending := false;
        flows := flows - {id};
      }
    }

    method EnsureTaskCreated(id: ActivationId, entry: R.Entry, fate: R.Fate) returns (ok: bool)
      requires Valid() && id in flows && flows[id].Creating?
      modifies this`writer, this`pending, this`flows
      ensures Valid() && Fields() == OnCreation(old(Fields()), id, entry, fate) && (ok <==> id in flows)
    {
      CreationKeepsInv(Fields(), id, entry, fate);
      WriteCreation(id, entry, fate);
      ok := id in flows;
    }

    method RecordTurn(turn: TurnId, acknowledged: bool)
      modifies this`marker, this`turns, this`alive, this`launches, this`uncertain
      ensures Fields() == Recorded(old(Fields()), turn, acknowledged)
    {
      marker := Running(turn);
      turns := turns[turn := Turn(R.Begun(writer), false, 0, 0, [])];
      alive := alive + {turn};
      launches := launches + [Launch(turn, acknowledged)];
      uncertain := false;
    }

    method EnterTurn(id: ActivationId, turn: TurnId, allowed: bool)
      modifies this`flows, this`active, this`pending
      ensures Fields() == Entered(old(Fields()), id, turn, allowed)
    {
      flows := flows[id := if allowed then Live(turn) else Ended(turn, false)];
      if allowed {
        active := Some(turn);
        pending := false;
      }
    }

    /** From the creating event to the provider's first await. */
    method RunTurn(id: ActivationId, saved: bool, turn: TurnId, allowed: bool)
      requires Valid() && Enabled(Fields(), Created(id, saved, turn, allowed))
      modifies this
      ensures Valid() && Fields() == OnCreated(old(Fields()), id, old(flows)[id].acknowledged, saved, turn, allowed)
    {
      CreatedKeepsInv(Fields(), id, saved, turn, allowed);
      if closed || !saved {
        pending := false;
        flows := flows - {id};
        return;
      }
      RecordTurn(turn, flows[id].acknowledged);
      EnterTurn(id, turn, allowed);
    }

    method SaveFailure(turn: TurnId, saved: bool)
      requires turn in turns
      modifies this`turns, this`marker, this`late
      ensures Fields() == OnFailure(old(Fields()), turn, saved)
    {
      turns := turns[turn := turns[turn].(spoiled := turns[turn].spoiled || !closed)];
      if !closed && saved { marker := Recovery(turn, false); }
      late := late || !Guards(marker);
    }

    /** onAppendFailure. */
    method NoteFailure(turn: TurnId, saved: bool)
      requires Valid() && turn in turns
      modifies this`turns, this`marker, this`late
      ensures Valid() && Fields() == OnFailure(old(Fields()), turn, saved)
    {
      FailureKeepsInv(Fields(), turn, saved);
      SaveFailure(turn, saved);
    }

    method SaveOutcome(id: ActivationId, turn: TurnId, ok: bool, saved: bool, retried: bool)
      requires turn in turns
      modifies this`marker, this`flows, this`finished, this`uncertain, this`turns
      ensures Fields() == OnSettle(old(Fields()), id, turn, ok, saved, retried)
    {
      var complete := ok && !turns[turn].run.failed;
      flows := flows[id := Marked(turn)];
      if complete && !closed && saved {
        marker := Terminal(turn);
        finished := finished + {turn};
        turns := turns[turn := turns[turn].(end := |writer.log|, settled := turns[turn].run.wrote)];
        return;
      }
      if !(complete && closed) && !closed && retried { marker := Recovery(turn, false); }
      uncertain := true;
    }

    /** The run is over: its outcome becomes the marker, or the marker says that there is none. */
    method Complete(id: ActivationId, saved: bool, retried: bool)
      requires Valid() && Enabled(Fields(), Settle(id, saved, retried))
      modifies this`marker, this`flows, this`finished, this`uncertain, this`turns
      ensures Valid() && Fields() == OnSettle(old(Fields()), id, old(flows)[id].turn, old(flows)[id].ok, saved, retried)
    {
      FlowStepKeepsInv(Fields(), Settle(id, saved, retried));
      SaveOutcome(id, flows[id].turn, flows[id].ok, saved, retried);
    }

    /** The `finally` clause. */
    method Finish(id: ActivationId)
      requires Valid() && id in flows && flows[id].Marked?
      modifies this`active, this`pending, this`flows
      ensures Valid() && Fields() == OnRelease(old(Fields()), id)
    {
      ReleaseKeepsInv(Fields(), id);
      active := None;
      pending := false;
      flows := flows - {id};
    }

    method BeginReconcile(id: ActivationId) returns (needed: bool)
      requires Valid() && id !in repairs
      modifies this`repairs
      ensures Valid() && Fields() == OnStartRepair(old(Fields()), id) && (needed <==> id in repairs)
    {
      RepairStepKeepsInv(Fields(), StartRepair(id));
      if active.Some? { return false; }
      if !(marker.Running? || marker.Recovery?) { return false; }
      if marker.Recovery? && marker.logged { return false; }
      repairs := repairs[id := Repair(marker, false)];
      needed := true;
    }

    method AppendRecovery(id: ActivationId, name: nat, entry: R.Entry, fate: R.Fate)
      requires id in repairs
      modifies this`writer, this`repairs
      ensures Fields() == OnLogRepair(old(Fields()), id, old(repairs)[id].was, name, entry, fate)
    {
      var was := repairs[id].was;
      var (w, ack) := Noted(writer, name, entry, fate);
      writer := w;
      repairs := if ack.Failed? then repairs - {id} else repairs[id := Repair(was, true)];
    }

    /** One of the recovery events. */
    method LogRecovery(id: ActivationId, name: nat, entry: R.Entry, fate: R.Fate) returns (ok: bool)
      requires Valid() && id in repairs
      modifies this`writer, this`repairs
      ensures Valid() && Fields() == OnLogRepair(old(Fields()), id, old(repairs)[id].was, name, entry, fate) && (ok <==> id in repairs)
    {
      LogRepairKeepsInv(Fields(), id, name, entry, fate);
      AppendRecovery(id, name, entry, fate);
      ok := id in repairs;
    }

    method EndReconcile(id: ActivationId, ok: bool)
      requires Valid() && Enabled(Fields(), FinishRepair(id, ok))
      modifies this`repairs, this`marker
      ensures Valid() && Fields() == OnFinishRepair(old(Fields()), id, old(repairs)[id].was, ok)
    {
      RepairStepKeepsInv(Fields(), FinishRepair(id, ok));
      var was := repairs[id].was;
      repairs := repairs - {id};
      if ok { marker := Recovery(was.turn, true); }
    }
  }
}
