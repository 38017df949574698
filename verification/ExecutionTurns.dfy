/** packages/runtime/encrypted-execution.js: what a turn and a repair come to when nothing disturbs them, and
    exactly how a turn may start and end. */
module ExecutionTurns {
  import opened Wrappers
  import opened Execution
  import R = TaskRun

  /** Nothing of the task is under way, and the host is open. */
  predicate Idle(t: Task) {
    t.flows == map[] && t.repairs == map[] && t.receipt.None? && !t.pending && t.active.None? && !t.closed
  }

  /** On an idle task a turn starts if and only if it is admitted and no end is unknown, or a person has
      acknowledged one that was found out; otherwise nothing changes. */
  lemma StartsExactly(t: Task, id: ActivationId, acknowledged: bool, admitted: bool)
    requires Idle(t)
    ensures Step(t, Start(id, acknowledged, admitted)) ==
      (if admitted && (t.marker.Absent? || t.marker.Terminal? || (t.marker.Recovery? && acknowledged))
       then t.(pending := true, flows := map[id := Creating(acknowledged)]) else t)
  {
  }

  /** A turn ends as its marker says: completed if its provider returned, every append succeeded and that could
      be saved; else, as soon as that can be saved, in need of recovery. A closing host saves nothing more. */
  lemma SettlesExactly(t: Task, e: Event)
    requires Inv(t) && Enabled(t, e) && e.Settle?
    ensures var turn, t' := t.flows[e.id].turn, Step(t, e);
      var done := t.flows[e.id].ok && !t.turns[turn].run.failed && !t.closed;
      && t'.marker == (if done && e.saved then Terminal(turn)
                       else if !t.closed && e.retried then Recovery(turn, false) else t.marker)
      && (turn in t'.finished <==> done && e.saved) && (t'.uncertain <==> !(done && e.saved))
      && t'.flows[e.id] == Marked(turn) && t'.writer == t.writer
  {
    assert LaunchInv(t, t.flows[e.id]);
  }

  /** A turn any of whose appends failed needs recovery, as soon as that can be saved, and the record it keeps
      says so too, so that no later save of it takes that back; nothing more of it is written. */
  lemma FailuresAreMarked(t: Task, e: Event)
    requires Enabled(t, e) && e.Append? && !t.closed && Step(t, e).turns[e.turn].run.failed
    ensures var t' := Step(t, e);
      && t'.turns[e.turn].spoiled && (e.saved ==> t'.marker == Recovery(e.turn, false)) && (!e.saved ==> t'.marker == t.marker)
      && !R.CanAppend(t'.turns[e.turn].run)
  {
  }

  /** While a turn runs, every save of it writes that it runs or, once an append of it has failed, that it needs
      recovery. */
  lemma SavesExactly(t: Task, e: Event)
    requires Enabled(t, e) && (e.Touch? || (e.ProviderEnded? && e.ok && !t.closed && e.saved))
    ensures var turn := t.flows[e.id].turn;
      Step(t, e).marker == if t.turns[turn].spoiled then Recovery(turn, false) else Running(turn)
  {
  }

  /** A start whose creating event fails, that finds the host closing, or whose marker cannot be saved is given
      up: the task is free, nothing was given to a provider and the marker is as it was. */
  lemma GivesUpExactly(t: Task, e: Event)
    requires Inv(t) && Enabled(t, e) && (e.Creation? || e.Created?)
    ensures var t' := Step(t, e);
      if (if e.Created? then t.closed || !e.saved
          else t.writer.log == [] && R.Write(t.writer, R.Event(R.RunId(1), e.entry), e.fate).1.Failed?)
      then e.id !in t'.flows && !t'.pending && t'.marker == t.marker && t'.launches == t.launches && t'.active == t.active
      else e.id in t'.flows && (e.Created? ==> t'.marker == Running(e.turn) && t'.launches[|t.launches|].turn == e.turn)
    ensures var w := if e.Creation? && t.writer.log == [] then R.Write(t.writer, R.Event(R.RunId(1), e.entry), e.fate).0 else t.writer;
      Step(t, e).writer == w
  {
  }

  /** What a provider emits is queued unless the host is closing or an append of the turn has failed. */
  lemma EmitsExactly(t: Task, e: Event)
    requires Enabled(t, e) && e.Emit?
    ensures var turn := t.flows[e.id].turn;
      var run, run' := t.turns[turn].run, Step(t, e).turns[turn].run;
      run' == if t.closed || run.failed then run else run.(submitted := run.submitted + [e.entry])
  {
    var turn := t.flows[e.id].turn;
    assert turn in t.turns;
  }

  /** When its provider is done a turn still waits for all it has submitted; it counts as well ended if the
      provider returned and what it had to save could be saved, or no longer had to be. */
  lemma ProviderEndsExactly(t: Task, e: Event)
    requires Enabled(t, e) && e.ProviderEnded?
    ensures var turn, t' := t.flows[e.id].turn, Step(t, e);
      && t'.flows[e.id] == Ended(turn, e.ok && (e.saved || t.closed)) && t'.turns[turn].drain == |t.turns[turn].run.submitted|
      && t'.turns[turn].run == t.turns[turn].run && (!e.ok || t.closed || !e.saved ==> t'.marker == t.marker)
  {
  }

  /** A crash leaves the task idle and its marker and log as they were, with the record that was kept, if any,
      at their end; so the next turn starts as StartsExactly says of that marker, and one that ran is found
      unknown. Owner recovery leaves no marker that says a turn runs. */
  lemma CrashesExactly(t: Task, kept: bool, id: ActivationId, acknowledged: bool)
    requires Inv(t)
    ensures var t' := Step(t, Crash(kept));
      && Idle(t') && t'.marker == t.marker && t'.launches == t.launches && t'.finished == t.finished && !t'.late
      && t'.writer == R.Writer(t.writer.log + (if kept && t.writer.pending.Some? then [t.writer.pending.value] else []), None)
      && ((exists f :: f in t.flows && (t.flows[f].Live? || t.flows[f].Ended?)) ==> (t.marker.Running? || t.marker.Recovery?) && t'.uncertain)
      && (t.marker.Running? ==> Step(t', Start(id, acknowledged, true)) == t')
      && Step(t', OwnerRecovered).marker == (if t.marker.Running? then Recovery(t.marker.turn, false) else t.marker)
  {
    if f :| f in t.flows && (t.flows[f].Live? || t.flows[f].Ended?) { assert LaunchInv(t, t.flows[f]); }
    assert t.writer.log + [] == t.writer.log;
  }

  // ---- a turn that nothing disturbs ----

  lemma {:induction false} RunJoin(t: Task, a: seq<Event>, b: seq<Event>)
    requires Runs(t, a) && Runs(Run(t, a), b)
    ensures Runs(t, a + b) && Run(t, a + b) == Run(Run(t, a), b)
    decreases |a|
  {
    if a == [] {
      assert a + b == b;
    } else {
      assert (a + b)[0] == a[0] && (a + b)[1..] == a[1..] + b;
      RunJoin(Step(t, a[0]), a[1..], b);
    }
  }

  lemma RunFirst(t: Task, e: Event, rest: seq<Event>)
    requires Enabled(t, e) && Runs(Step(t, e), rest)
    ensures Runs(t, [e] + rest) && Run(t, [e] + rest) == Run(Step(t, e), rest)
  {
    assert ([e] + rest)[1..] == rest;
  }

  lemma RunThree(t: Task, e1: Event, e2: Event, e3: Event)
    requires Enabled(t, e1) && Enabled(Step(t, e1), e2) && Enabled(Step(Step(t, e1), e2), e3)
    ensures Runs(t, [e1, e2, e3]) && Run(t, [e1, e2, e3]) == Step(Step(Step(t, e1), e2), e3)
  {
    var t2 := Step(Step(t, e1), e2);
    assert Runs(Step(t2, e3), []);
    RunFirst(t2, e3, []);
    RunFirst(Step(t, e1), e2, [e3] + []);
    RunFirst(t, e1, [e2] + ([e3] + []));
    assert [e1, e2, e3] == [e1] + ([e2] + ([e3] + []));
  }

  function Emits(id: ActivationId, entries: seq<R.Entry>): seq<Event> {
    if entries == [] then [] else [Emit(id, entries[0])] + Emits(id, entries[1..])
  }

  function Appends(turn: TurnId, n: nat): seq<Event> { if n == 0 then [] else [Append(turn, R.Written, true)] + Appends(turn, n - 1) }

  /** The events a run writes, numbered on from `from`. */
  function Numbered(from: nat, entries: seq<R.Entry>): (events: seq<R.Event>)
    ensures |events| == |entries| && forall i :: 0 <= i < |entries| ==> events[i] == R.Event(R.RunId(from + 1 + i), entries[i])
  {
    seq(|entries|, i requires 0 <= i < |entries| => R.Event(R.RunId(from + 1 + i), entries[i]))
  }

  lemma NumberedCons(from: nat, entries: seq<R.Entry>)
    requires entries != []
    ensures Numbered(from, entries) == [R.Event(R.RunId(from + 1), entries[0])] + Numbered(from + 1, entries[1..])
  {
  }

  lemma {:induction false} EmitsAll(t: Task, id: ActivationId, turn: TurnId, entries: seq<R.Entry>)
    requires id in t.flows && t.flows[id] == Live(turn) && turn in t.turns && !t.closed && !t.turns[turn].run.failed
    ensures Runs(t, Emits(id, entries))
    ensures var run := t.turns[turn].run; Run(t, Emits(id, entries)) == WithRun(t, turn, run.(submitted := run.submitted + entries))
    decreases |entries|
  {
    var run := t.turns[turn].run;
    if entries == [] {
      assert run.submitted + [] == run.submitted;
      assert t.turns[turn := t.turns[turn].(run := run)] == t.turns;
    } else {
      var t1 := Step(t, Emit(id, entries[0]));
      EmitsAll(t1, id, turn, entries[1..]);
      RunFirst(t, Emit(id, entries[0]), Emits(id, entries[1..]));
      assert run.submitted + [entries[0]] + entries[1..] == run.submitted + entries;
      WithRunTwice(t, turn, Submitted(run, entries[0]), t.writer, run.(submitted := run.submitted + entries));
    }
  }

  /** Nothing is held, and every number from `from` on is free. */
  ghost predicate Free(w: R.Writer, from: nat) { w.pending.None? && forall e :: e in w.log && e.id.RunId? ==> e.id.seqNo <= from }

  /** The run has written `run.wrote`; `rest` is what is left. */
  ghost predicate Left(run: R.Run, rest: seq<R.Entry>) { !run.failed && run.submitted == run.wrote + rest }

  /** The turn's run and the writer have got this far. */
  function Advanced(t: Task, turn: TurnId, run: R.Run, w: R.Writer): Task
    requires turn in t.turns
  {
    WithRun(t, turn, run).(writer := w)
  }

  function WroteOne(run: R.Run, entry: R.Entry): R.Run { run.(written := run.written + 1, wrote := run.wrote + [entry]) }

  function WroteAll(run: R.Run, n: nat): R.Run { run.(written := run.written + n, wrote := run.submitted) }

  function Holding(w: R.Writer, events: seq<R.Event>): R.Writer { R.Writer(w.log + events, None) }

  lemma AppendsOne(t: Task, turn: TurnId, run: R.Run, rest: seq<R.Entry>)
    requires turn in t.alive && turn in t.turns && run == t.turns[turn].run && Left(run, rest) && rest != [] && Free(t.writer, run.written)
    ensures Enabled(t, Append(turn, R.Written, true))
    ensures var w := Holding(t.writer, [R.Event(R.RunId(run.written + 1), rest[0])]);
      && Step(t, Append(turn, R.Written, true)) == Advanced(t, turn, WroteOne(run, rest[0]), w)
      && Left(WroteOne(run, rest[0]), rest[1..]) && Free(w, run.written + 1)
  {
    assert run.submitted[|run.wrote|] == rest[0];
    assert run.wrote + [rest[0]] + rest[1..] == run.submitted;
    assert R.RunId(run.written + 1) !in R.Ids(t.writer.log);
  }

  lemma AdvancedTwice(t: Task, turn: TurnId, run1: R.Run, w1: R.Writer, run2: R.Run, w2: R.Writer)
    requires turn in t.turns
    ensures Advanced(Advanced(t, turn, run1, w1), turn, run2, w2) == Advanced(t, turn, run2, w2)
  {
    WithRunTwice(t, turn, run1, w1, run2);
  }

  lemma WithRunTwice(t: Task, turn: TurnId, run1: R.Run, w1: R.Writer, run2: R.Run)
    requires turn in t.turns
    ensures WithRun(WithRun(t, turn, run1).(writer := w1), turn, run2) == WithRun(t, turn, run2).(writer := w1)
  {
    var once := t.turns[turn := t.turns[turn].(run := run1)];
    assert once[turn := once[turn].(run := run2)] == t.turns[turn := t.turns[turn].(run := run2)];
  }

  lemma AppendsNone(t: Task, turn: TurnId, run: R.Run)
    requires turn in t.turns && run == t.turns[turn].run && Left(run, []) && t.writer.pending.None?
    ensures t == Advanced(t, turn, WroteAll(run, 0), Holding(t.writer, []))
  {
    assert run.wrote + [] == run.wrote && t.writer.log + [] == t.writer.log;
    assert t.turns[turn := t.turns[turn].(run := run)] == t.turns;
  }

  lemma {:induction false} AppendsAll(t: Task, turn: TurnId, run: R.Run, rest: seq<R.Entry>)
    requires turn in t.alive && turn in t.turns && run == t.turns[turn].run && Left(run, rest) && Free(t.writer, run.written)
    ensures Runs(t, Appends(turn, |rest|))
    ensures Run(t, Appends(turn, |rest|)) == Advanced(t, turn, WroteAll(run, |rest|), Holding(t.writer, Numbered(run.written, rest)))
    decreases |rest|
  {
    if rest == [] {
      AppendsNone(t, turn, run);
    } else {
      AppendsOne(t, turn, run, rest);
      AppendsAll(First(t, turn, run, rest), turn, WroteOne(run, rest[0]), rest[1..]);
      AppendsMore(t, turn, run, rest);
    }
  }

  /** After the first of `rest`. */
  function First(t: Task, turn: TurnId, run: R.Run, rest: seq<R.Entry>): Task
    requires turn in t.turns && rest != []
  {
    Advanced(t, turn, WroteOne(run, rest[0]), Holding(t.writer, [R.Event(R.RunId(run.written + 1), rest[0])]))
  }

  lemma AppendsMore(t: Task, turn: TurnId, run: R.Run, rest: seq<R.Entry>)
    requires turn in t.turns && rest != [] && Enabled(t, Append(turn, R.Written, true))
    requires Step(t, Append(turn, R.Written, true)) == First(t, turn, run, rest)
    requires Runs(First(t, turn, run, rest), Appends(turn, |rest| - 1))
    requires Run(First(t, turn, run, rest), Appends(turn, |rest| - 1)) == Second(t, turn, run, rest)
    ensures Runs(t, Appends(turn, |rest|))
    ensures Run(t, Appends(turn, |rest|)) == Advanced(t, turn, WroteAll(run, |rest|), Holding(t.writer, Numbered(run.written, rest)))
  {
    RunFirst(t, Append(turn, R.Written, true), Appends(turn, |rest| - 1));
    SecondIsAll(t, turn, run, rest);
  }

  /** And after the others. */
  function Second(t: Task, turn: TurnId, run: R.Run, rest: seq<R.Entry>): Task
    requires turn in t.turns && rest != []
  {
    var w1 := Holding(t.writer, [R.Event(R.RunId(run.written + 1), rest[0])]);
    Advanced(Advanced(t, turn, WroteOne(run, rest[0]), w1), turn, WroteAll(WroteOne(run, rest[0]), |rest| - 1),
             Holding(w1, Numbered(run.written + 1, rest[1..])))
  }

  lemma SecondIsAll(t: Task, turn: TurnId, run: R.Run, rest: seq<R.Entry>)
    requires turn in t.turns && rest != []
    ensures Second(t, turn, run, rest) == Advanced(t, turn, WroteAll(run, |rest|), Holding(t.writer, Numbered(run.written, rest)))
  {
    NumberedCons(run.written, rest);
    OneAndMore(t, turn, run, rest[0], |rest| - 1, Numbered(run.written + 1, rest[1..]));
  }

  lemma OneAndMore(t: Task, turn: TurnId, run: R.Run, entry: R.Entry, n: nat, more: seq<R.Event>)
    requires turn in t.turns
    ensures var w1 := Holding(t.writer, [R.Event(R.RunId(run.written + 1), entry)]);
      Advanced(Advanced(t, turn, WroteOne(run, entry), w1), turn, WroteAll(WroteOne(run, entry), n), Holding(w1, more))
      == Advanced(t, turn, WroteAll(run, n + 1), Holding(t.writer, [R.Event(R.RunId(run.written + 1), entry)] + more))
  {
    var e := [R.Event(R.RunId(run.written + 1), entry)];
    assert t.writer.log + e + more == t.writer.log + (e + more);
    AdvancedTwice(t, turn, WroteOne(run, entry), Holding(t.writer, e), WroteAll(run, n + 1), Holding(t.writer, e + more));
  }

  /** Start, the creating event of an empty log, the marker. */
  function Opening(id: ActivationId, turn: TurnId, acknowledged: bool, creating: R.Entry): seq<Event> {
    [Start(id, acknowledged, true), Creation(id, creating, R.Written), Created(id, true, turn, true)]
  }

  function Closing(id: ActivationId): seq<Event> { [ProviderEnded(id, true, true), Settle(id, true, true), Release(id)] }

  /** A whole turn: its provider emits `entries`, and every await succeeds. */
  function WholeTurn(id: ActivationId, turn: TurnId, acknowledged: bool, creating: R.Entry, entries: seq<R.Entry>): seq<Event> {
    Opening(id, turn, acknowledged, creating) + (Emits(id, entries) + (Appends(turn, |entries|) + Closing(id)))
  }

  function CreatedLog(log: seq<R.Event>, creating: R.Entry): seq<R.Event> { if log == [] then [R.Event(R.RunId(1), creating)] else log }

  /** The turn is under way: its marker is saved, its provider runs and its run counts on from the log. */
  ghost predicate Under(t: Task, t': Task, id: ActivationId, turn: TurnId, acknowledged: bool, creating: R.Entry) {
    var log := CreatedLog(t.writer.log, creating);
    t' == t.(marker := Running(turn), active := Some(turn), flows := map[id := Live(turn)], writer := R.Writer(log, None),
             turns := t.turns[turn := Turn(R.Run(|log|, |log|, false, [], [], None), false, 0, 0, [])], alive := t.alive + {turn},
             launches := t.launches + [Launch(turn, acknowledged)], uncertain := false)
  }

  lemma Opens(t: Task, id: ActivationId, turn: TurnId, acknowledged: bool, creating: R.Entry)
    requires Idle(t) && t.writer.pending.None? && turn !in t.turns && !t.marker.Running? && (t.marker.Recovery? ==> acknowledged)
    ensures Runs(t, Opening(id, turn, acknowledged, creating))
    ensures Under(t, Run(t, Opening(id, turn, acknowledged, creating)), id, turn, acknowledged, creating)
  {
    var e1, e2, e3 := Start(id, acknowledged, true), Creation(id, creating, R.Written), Created(id, true, turn, true);
    StartsExactly(t, id, acknowledged, true);
    var t1 := Step(t, e1);
    var t2 := Step(t1, e2);
    assert t2 == t1.(writer := R.Writer(CreatedLog(t.writer.log, creating), None)) by {
      assert [] + [R.Event(R.RunId(1), creating)] == [R.Event(R.RunId(1), creating)];
      assert R.Ids([]) == {};
    }
    RunThree(t, e1, e2, e3);
    assert t2.flows[id := Live(turn)] == map[id := Live(turn)];
  }

  lemma Closes(t: Task, id: ActivationId, turn: TurnId)
    requires t.flows == map[id := Live(turn)] && turn in t.turns && !t.closed
    requires var run := t.turns[turn].run; !run.failed && run.wrote == run.submitted
    ensures Runs(t, Closing(id))
    ensures var t' := Run(t, Closing(id));
      && t'.marker == Terminal(turn) && t'.finished == t.finished + {turn} && t'.flows == map[] && !t'.pending && t'.active.None?
      && t'.writer == t.writer && t'.launches == t.launches && t'.uncertain == t.uncertain && t'.turns.Keys == t.turns.Keys
      && t'.repairs == t.repairs && t'.receipt == t.receipt && t'.closed == t.closed && t'.late == t.late
  {
    var e1, e2, e3 := ProviderEnded(id, true, true), Settle(id, true, true), Release(id);
    var t1 := Step(t, e1);
    assert t1.flows[id] == Ended(turn, true) && t1.turns[turn].run == t.turns[turn].run;
    RunThree(t, e1, e2, e3);
  }

  /** A turn that nothing disturbs, started where one may be, runs to its end: its marker says that it is
      complete, the log has gained exactly what its provider emitted, in order, numbered on from what was there
      (after the creating event, if it was empty), and the task is idle again. */
  lemma TurnCompletes(t: Task, id: ActivationId, turn: TurnId, acknowledged: bool, creating: R.Entry, entries: seq<R.Entry>)
    requires Inv(t) && Idle(t) && t.writer.pending.None? && turn !in t.turns && !t.marker.Running? && (t.marker.Recovery? ==> acknowledged)
    ensures var whole := WholeTurn(id, turn, acknowledged, creating, entries);
      && Runs(t, whole)
      && var t', log := Run(t, whole), CreatedLog(t.writer.log, creating);
         && Idle(t') && t'.marker == Terminal(turn) && t'.writer == R.Writer(log + Numbered(|log|, entries), None)
         && t'.finished == t.finished + {turn} && t'.launches == t.launches + [Launch(turn, acknowledged)] && !t'.uncertain
  {
    var opening, emits, appends, closing := Opening(id, turn, acknowledged, creating), Emits(id, entries), Appends(turn, |entries|), Closing(id);
    Opens(t, id, turn, acknowledged, creating);
    var t3 := Run(t, opening);
    var log := CreatedLog(t.writer.log, creating);
    EmitsAll(t3, id, turn, entries);
    var t4 := Run(t3, emits);
    assert [] + entries == entries;
    assert t4.turns[turn].run == R.Run(|log|, |log|, false, entries, [], None);
    AppendsAll(t4, turn, t4.turns[turn].run, entries);
    var t5 := Run(t4, appends);
    Closes(t5, id, turn);
    RunJoin(t4, appends, closing);
    RunJoin(t3, emits, appends + closing);
    RunJoin(t, opening, emits + (appends + closing));
  }

  // ---- a repair that nothing disturbs ----

  function WholeRepair(id: ActivationId, name: nat, entry: R.Entry): seq<Event> {
    [StartRepair(id), LogRepair(id, name, entry, R.Written), FinishRepair(id, true)]
  }

  /** The unknown end is in the log, and the marker says so. */
  function Repaired(t: Task, name: nat, entry: R.Entry): Task
    requires Unknown(t.marker)
  {
    t.(marker := Recovery(t.marker.turn, true), writer := Holding(t.writer, [R.Event(R.OtherId(name), entry)]))
  }

  lemma RepairLogs(t: Task, id: ActivationId, name: nat, entry: R.Entry)
    requires Idle(t) && Unknown(t.marker) && (t.marker.Recovery? ==> !t.marker.logged) && t.writer.pending.None? && t.writer.log != []
    requires forall e :: e in t.writer.log ==> e.id != R.OtherId(name)
    ensures Runs(t, WholeRepair(id, name, entry)) && Run(t, WholeRepair(id, name, entry)) == Repaired(t, name, entry)
  {
    var e1, e2, e3 := StartRepair(id), LogRepair(id, name, entry, R.Written), FinishRepair(id, true);
    assert R.OtherId(name) !in R.Ids(t.writer.log);
    var t2 := Step(Step(t, e1), e2);
    assert t2.repairs == map[id := Repair(t.marker, true)];
    RunThree(t, e1, e2, e3);
    assert t2.repairs - {id} == map[];
  }

  /** An unknown end that was not yet logged is logged, exactly once, and then a turn may start again, but only
      if that is acknowledged. */
  lemma RepairCompletes(t: Task, id: ActivationId, name: nat, entry: R.Entry, again: ActivationId, acknowledged: bool)
    requires Idle(t) && Unknown(t.marker) && (t.marker.Recovery? ==> !t.marker.logged) && t.writer.pending.None? && t.writer.log != []
    requires forall e :: e in t.writer.log ==> e.id != R.OtherId(name)
    ensures var t' := Repaired(t, name, entry);
      && Runs(t, WholeRepair(id, name, entry)) && Run(t, WholeRepair(id, name, entry)) == t'
      && (again in Step(t', Start(again, acknowledged, true)).flows <==> acknowledged)
      && Step(t', StartRepair(id)) == t'
  {
    RepairLogs(t, id, name, entry);
    StartsExactly(Repaired(t, name, entry), again, acknowledged, true);
  }

  /** Repairs are begun exactly for an unknown end that is not logged yet, with no session; one that could not
      log leaves the marker as it was; and one that did writes what it read, as logged. */
  lemma RepairsExactly(t: Task, e: Event)
    requires Enabled(t, e)
    ensures e.StartRepair? ==>
      Step(t, e) == (if t.active.None? && (t.marker.Running? || (t.marker.Recovery? && !t.marker.logged))
                     then t.(repairs := t.repairs[e.id := Repair(t.marker, false)]) else t)
    ensures e.LogRepair? ==> Step(t, e).marker == t.marker && (e.id in Step(t, e).repairs ==> Step(t, e).repairs[e.id] == Repair(t.repairs[e.id].was, true))
    ensures e.FinishRepair? ==>
      Step(t, e) == t.(repairs := t.repairs - {e.id}, marker := if e.ok then Recovery(t.repairs[e.id].was.turn, true) else t.marker)
  {
  }
}
