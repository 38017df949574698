/** packages/runtime/encrypted-run.js (EncryptedTaskRun) over packages/e2ee/task-log.mjs
    (EncryptedTaskWriter): what a turn writes to its task's log, turn after turn.

    The host is the log's only writer. An event id is a hash of what it names, so it is represented by
    what it names. */
module TaskRun {
  import opened Wrappers

  type Entry = nat

  /** `eventId(task, seq)`, and the ids of every event that is not a run's. */
  datatype EventId = RunId(seqNo: nat) | OtherId(name: nat)

  datatype Event = Event(id: EventId, entry: Entry)

  /** `log`: the events the writer's reader has replayed. `pending`: saved before it was sent, and not yet
      known to have arrived. */
  datatype Writer = Writer(log: seq<Event>, pending: Option<Event>)

  /** How an append ends: the one before cannot be completed; it fails before anything is saved; it fails
      with the record saved, whether or not the relay has it; it succeeds. */
  datatype Fate = Stuck | Lost | Held | Written

  datatype Ack = Failed | Duplicate | Appended

  /** One turn's run. `submitted` is everything ever passed to `append`, of which the first `|wrote|` were
      written; the rest waits, or was refused once `failed`. `carried` is the record of an earlier run that
      the writer was still holding when this one began. */
  datatype Run = Run(start: nat, written: nat, failed: bool, submitted: seq<Entry>, wrote: seq<Entry>, carried: Option<Event>)

  datatype Task = Task(writer: Writer, run: Option<Run>)

  const INITIAL: Task := Task(Writer([], None), None)

  // ---- the writer ----

  function Ids(log: seq<Event>): set<EventId> { set e | e in log :: e.id }

  function Resume(w: Writer): Writer {
    if w.pending.Some? then Writer(w.log + [w.pending.value], None) else w
  }

  /** Every write first completes the one before. */
  function Write(w: Writer, e: Event, fate: Fate): (Writer, Ack) {
    var r := Resume(w);
    if fate.Stuck? then (w, Failed)
    else if e.id in Ids(r.log) then (r, if e in r.log then Duplicate else Failed)
    else if fate.Lost? then (r, Failed)
    else if fate.Held? then (Writer(r.log, Some(e)), Failed)
    else (Writer(r.log + [e], None), Appended)
  }

  /** The process is gone. A record whose saving itself had failed is gone with it; any other is completed
      when the task is opened again. */
  function Reopened(w: Writer, kept: bool): Writer { if kept then Resume(w) else Writer(w.log, None) }

  // ---- the run ----

  function HeldRecord(w: Writer): Option<Event> {
    if w.pending.Some? && w.pending.value.id.RunId? then w.pending else None
  }

  function Begun(w: Writer): Run { Run(|w.log|, |w.log|, false, [], [], HeldRecord(w)) }

  /** The queue's next piece of work. */
  function Append(w: Writer, r: Run, entry: Entry, fate: Fate): (Writer, Run) {
    var (w', ack) := Write(w, Event(RunId(r.written + 1), entry), fate);
    (w', r.(written := r.written + 1, failed := ack.Failed?, wrote := if ack.Failed? then r.wrote else r.wrote + [entry]))
  }

  predicate CanAppend(r: Run) { |r.wrote| < |r.submitted| && !r.failed }

  datatype Step =
    | Begin
    | Submit(entry: Entry)
    | Next(fate: Fate)
    | Create(entry: Entry, fate: Fate)
    | Control(name: nat, entry: Entry, fate: Fate)
    | Reopen(kept: bool)
    | End

  /** A run may begin whatever the writer holds. The creating event is written outside a run, and only to an
      empty log, under the first run id. */
  predicate Enabled(t: Task, step: Step) {
    match step
    case Begin => t.run.None?
    case Submit(_) => t.run.Some?
    case Next(_) => t.run.Some? && CanAppend(t.run.value)
    case Create(_, _) => t.run.None? && t.writer.log == []
    case End => t.run.Some?
    case _ => true
  }

  function Do(t: Task, step: Step): Task
    requires Enabled(t, step)
  {
    match step
    case Begin => t.(run := Some(Begun(t.writer)))
    case Submit(entry) => t.(run := Some(t.run.value.(submitted := t.run.value.submitted + [entry])))
    case Next(fate) =>
      var (w, r) := Append(t.writer, t.run.value, t.run.value.submitted[|t.run.value.wrote|], fate);
      Task(w, Some(r))
    case Create(entry, fate) => t.(writer := Write(t.writer, Event(RunId(1), entry), fate).0)
    case Control(name, entry, fate) => t.(writer := Write(t.writer, Event(OtherId(name), entry), fate).0)
    case Reopen(kept) => Task(Reopened(t.writer, kept), None)
    case End => t.(run := None)
  }

  predicate Runs(t: Task, steps: seq<Step>)
    decreases |steps|
  {
    steps == [] || (Enabled(t, steps[0]) && Runs(Do(t, steps[0]), steps[1..]))
  }

  function DoAll(t: Task, steps: seq<Step>): Task
    requires Runs(t, steps)
    decreases |steps|
  {
    if steps == [] then t else DoAll(Do(t, steps[0]), steps[1..])
  }

  // ---- what every step keeps ----

  /** The entries of the events that carry run ids, in order. */
  function RunEntries(log: seq<Event>): seq<Entry> {
    if log == [] then []
    else (if log[0].id.RunId? then [log[0].entry] else []) + RunEntries(log[1..])
  }

  predicate DistinctIds(log: seq<Event>) { forall i, j :: 0 <= i < j < |log| ==> log[i].id != log[j].id }

  ghost predicate RunIdsUpTo(log: seq<Event>, n: nat) { forall e :: e in log && e.id.RunId? ==> e.id.seqNo <= n }

  /** No run id in the log is beyond the log's length, nor one saved beyond the place it will take. */
  ghost predicate IdsBounded(w: Writer) {
    && RunIdsUpTo(w.log, |w.log|)
    && (w.pending.Some? ==> w.pending.value.id !in Ids(w.log) && (w.pending.value.id.RunId? ==> w.pending.value.id.seqNo <= |w.log| + 1))
  }

  ghost predicate WriterInv(w: Writer) { DistinctIds(w.log) && IdsBounded(w) }

  /** The log since the run began, with what is saved but not confirmed. */
  function Since(w: Writer, start: nat): seq<Event>
    requires start <= |w.log|
  {
    Resume(w).log[start..]
  }

  /** The run began while the writer held the very id it was going to use first, and has not got past it. */
  predicate Clashes(r: Run) { r.carried.Some? && r.carried.value.id == RunId(r.start + 1) && r.wrote == [] }

  /** What an earlier run left to arrive among this one's events; when the ids are the same, this run's first
      entry was that event. */
  function Carry(r: Run): seq<Entry> {
    if r.carried.None? || (r.carried.value.id == RunId(r.start + 1) && r.wrote != []) then [] else [r.carried.value.entry]
  }

  /** While it has not failed, the run's counter is ahead of every run id used so far, which the log has kept
      up with, unless it clashes; and the log since it began holds, of runs, what was carried and what it
      wrote. */
  ghost predicate RunInv(w: Writer, r: Run) {
    && r.start <= |w.log| && r.wrote <= r.submitted
    && (r.failed ==> |r.wrote| < |r.submitted|)
    && (r.carried.Some? ==> r.carried.value.id.RunId? && r.carried.value.id.seqNo <= r.start + 1)
    && (!r.failed ==>
      && r.written == r.start + |r.wrote| <= |w.log|
      && RunIdsUpTo(Resume(w).log, if Clashes(r) then r.start + 1 else r.written)
      && (Clashes(r) ==> r.carried.value in Resume(w).log)
      && (w.pending.Some? && w.pending.value.id.RunId? ==> w.pending == r.carried && r.wrote == [])
      && RunEntries(Since(w, r.start)) == Carry(r) + r.wrote)
    && (r.failed ==>
      || RunEntries(Since(w, r.start)) == Carry(r) + r.wrote
      || RunEntries(Since(w, r.start)) == Carry(r) + r.submitted[..|r.wrote| + 1])
  }

  ghost predicate Inv(t: Task) { WriterInv(t.writer) && (t.run.Some? ==> RunInv(t.writer, t.run.value)) }

  lemma {:induction false} RunEntriesAppend(log: seq<Event>, e: Event)
    ensures RunEntries(log + [e]) == RunEntries(log) + if e.id.RunId? then [e.entry] else []
    decreases |log|
  {
    if log == [] {
      assert log + [e] == [e] && [e][1..] == [];
      assert RunEntries([]) == [];
    } else {
      var head := if log[0].id.RunId? then [log[0].entry] else [];
      var last := if e.id.RunId? then [e.entry] else [];
      assert (log + [e])[0] == log[0] && (log + [e])[1..] == log[1..] + [e];
      RunEntriesAppend(log[1..], e);
      assert RunEntries(log + [e]) == head + (RunEntries(log[1..]) + last);
      assert head + (RunEntries(log[1..]) + last) == head + RunEntries(log[1..]) + last;
    }
  }

  /** The event reaches the log, now or when the writer next resumes. */
  predicate Lands(w: Writer, e: Event, fate: Fate) { (fate.Held? || fate.Written?) && e.id !in Ids(Resume(w).log) }

  lemma WriteKeepsWriter(w: Writer, e: Event, fate: Fate)
    requires WriterInv(w) && (e.id.RunId? ==> e.id.seqNo <= |Resume(w).log| + 1)
    ensures WriterInv(Write(w, e, fate).0) && |Write(w, e, fate).0.log| >= |w.log|
    ensures Resume(Write(w, e, fate).0).log == if Lands(w, e, fate) then Resume(w).log + [e] else Resume(w).log
  {
    var r := Resume(w);
    assert WriterInv(r);
    if e.id !in Ids(r.log) { assert forall x :: x in r.log ==> x.id != e.id; }
  }

  lemma WriteSince(w: Writer, e: Event, fate: Fate, start: nat)
    requires WriterInv(w) && (e.id.RunId? ==> e.id.seqNo <= |Resume(w).log| + 1) && start <= |w.log|
    ensures start <= |Write(w, e, fate).0.log|
    ensures RunEntries(Since(Write(w, e, fate).0, start)) ==
      RunEntries(Since(w, start)) + if Lands(w, e, fate) && e.id.RunId? then [e.entry] else []
  {
    WriteKeepsWriter(w, e, fate);
    var log := Resume(w).log;
    if Lands(w, e, fate) {
      assert (log + [e])[start..] == log[start..] + [e];
      RunEntriesAppend(log[start..], e);
    }
  }

  /** The next id has been used already exactly when the run clashes. */
  lemma NextIsNewUnlessClash(w: Writer, r: Run)
    requires WriterInv(w) && RunInv(w, r) && !r.failed
    ensures RunId(r.written + 1) in Ids(Resume(w).log) <==> Clashes(r)
    ensures Clashes(r) ==> forall e :: e in Resume(w).log && e.id == RunId(r.written + 1) ==> e == r.carried.value
  {
    if Clashes(r) {
      var log := Resume(w).log;
      assert WriterInv(Resume(w));
      forall e | e in log && e.id == RunId(r.written + 1) ensures e == r.carried.value {
        var i :| 0 <= i < |log| && log[i] == e;
        var j :| 0 <= j < |log| && log[j] == r.carried.value;
      }
    }
  }

  /** The append fails: it was refused, or its id was used for another entry. */
  predicate Fails(r: Run, entry: Entry, fate: Fate) {
    if Clashes(r) then fate.Stuck? || entry != r.carried.value.entry else !fate.Written?
  }

  lemma FreshSuccess(w: Writer, r: Run, w': Writer, e: Event)
    requires WriterInv(w) && RunInv(w, r) && CanAppend(r) && !Clashes(r)
    requires e == Event(RunId(r.written + 1), r.submitted[|r.wrote|]) && w' == Writer(Resume(w).log + [e], None)
    requires r.start <= |w'.log| && RunEntries(Since(w', r.start)) == RunEntries(Since(w, r.start)) + [e.entry]
    ensures RunInv(w', r.(written := r.written + 1, wrote := r.wrote + [e.entry]))
  {
    var r' := r.(written := r.written + 1, wrote := r.wrote + [e.entry]);
    assert Carry(r') == Carry(r) && !Clashes(r');
    assert Carry(r) + r.wrote + [e.entry] == Carry(r) + r'.wrote;
  }

  lemma FreshFailure(w: Writer, r: Run, w': Writer, e: Event)
    requires WriterInv(w) && RunInv(w, r) && CanAppend(r) && !Clashes(r) && r.start <= |w'.log|
    requires e == Event(RunId(r.written + 1), r.submitted[|r.wrote|])
    requires RunEntries(Since(w', r.start)) == RunEntries(Since(w, r.start)) || RunEntries(Since(w', r.start)) == RunEntries(Since(w, r.start)) + [e.entry]
    ensures RunInv(w', r.(written := r.written + 1, failed := true))
  {
    assert r.submitted[..|r.wrote| + 1] == r.wrote + [e.entry];
    assert Carry(r) + r.wrote + [e.entry] == Carry(r) + (r.wrote + [e.entry]);
  }

  lemma FreshAppend(w: Writer, r: Run, fate: Fate)
    requires WriterInv(w) && RunInv(w, r) && CanAppend(r) && !Clashes(r)
    ensures var (w', r') := Append(w, r, r.submitted[|r.wrote|], fate); RunInv(w', r') && (r'.failed <==> !fate.Written?)
  {
    var e := Event(RunId(r.written + 1), r.submitted[|r.wrote|]);
    var w' := Write(w, e, fate).0;
    NextIsNewUnlessClash(w, r);
    WriteSince(w, e, fate, r.start);
    if fate.Written? {
      FreshSuccess(w, r, w', e);
      assert Append(w, r, e.entry, fate) == (w', r.(written := r.written + 1, wrote := r.wrote + [e.entry]));
    } else {
      FreshFailure(w, r, w', e);
      assert Append(w, r, e.entry, fate) == (w', r.(written := r.written + 1, failed := true));
    }
  }

  lemma ClashingAppend(w: Writer, r: Run, fate: Fate)
    requires WriterInv(w) && RunInv(w, r) && CanAppend(r) && Clashes(r)
    ensures var (w', r') := Append(w, r, r.submitted[|r.wrote|], fate); RunInv(w', r') && (r'.failed <==> Fails(r, r.submitted[|r.wrote|], fate))
  {
    var e := Event(RunId(r.written + 1), r.submitted[0]);
    NextIsNewUnlessClash(w, r);
    WriteKeepsWriter(w, e, fate);
    WriteSince(w, e, fate, r.start);
    var (w', r') := Append(w, r, r.submitted[0], fate);
    if !r'.failed {
      assert e in Resume(w).log && e == r.carried.value;
      assert Carry(r) + r.wrote == [e.entry] && Carry(r') + r'.wrote == [e.entry];
    }
  }

  lemma NextKeepsWriter(w: Writer, r: Run, entry: Entry, fate: Fate)
    requires WriterInv(w) && r.written <= |w.log|
    ensures WriterInv(Append(w, r, entry, fate).0) && |Append(w, r, entry, fate).0.log| >= |w.log|
  {
    var e := Event(RunId(r.written + 1), entry);
    WriteKeepsWriter(w, e, fate);
    assert Append(w, r, entry, fate).0 == Write(w, e, fate).0;
  }

  lemma NextKeepsRun(w: Writer, r: Run, fate: Fate)
    requires WriterInv(w) && RunInv(w, r) && CanAppend(r)
    ensures var (w', r') := Append(w, r, r.submitted[|r.wrote|], fate);
      RunInv(w', r') && (r'.failed <==> Fails(r, r.submitted[|r.wrote|], fate))
  {
    if Clashes(r) { ClashingAppend(w, r, fate); } else { FreshAppend(w, r, fate); }
  }

  lemma AppendKeepsInv(w: Writer, r: Run, entry: Entry, fate: Fate)
    requires Inv(Task(w, Some(r))) && CanAppend(r) && entry == r.submitted[|r.wrote|]
    ensures var (w', r') := Append(w, r, entry, fate); Inv(Task(w', Some(r'))) && (r'.failed <==> Fails(r, entry, fate))
  {
    NextKeepsWriter(w, r, entry, fate);
    NextKeepsRun(w, r, fate);
  }

  /** Events of others pass a run by. */
  lemma OtherKeepsRun(w: Writer, name: nat, entry: Entry, fate: Fate, r: Run)
    requires WriterInv(w) && RunInv(w, r)
    ensures RunInv(Write(w, Event(OtherId(name), entry), fate).0, r)
  {
    var e := Event(OtherId(name), entry);
    WriteKeepsWriter(w, e, fate);
    WriteSince(w, e, fate, r.start);
  }

  lemma BeginKeepsRun(w: Writer)
    requires WriterInv(w)
    ensures RunInv(w, Begun(w))
  {
    if w.pending.Some? {
      assert Since(w, |w.log|) == [w.pending.value];
      assert RunEntries([w.pending.value]) == (if w.pending.value.id.RunId? then [w.pending.value.entry] else []) + RunEntries([]);
    } else {
      assert Since(w, |w.log|) == [];
    }
  }

  lemma SubmitKeepsRun(w: Writer, r: Run, entry: Entry)
    requires RunInv(w, r)
    ensures RunInv(w, r.(submitted := r.submitted + [entry]))
  {
    assert r.failed ==> (r.submitted + [entry])[..|r.wrote| + 1] == r.submitted[..|r.wrote| + 1];
  }

  lemma ReopenKeepsWriter(w: Writer, kept: bool)
    requires WriterInv(w)
    ensures WriterInv(Reopened(w, kept)) && Reopened(w, kept).pending.None?
  {
  }

  lemma StepKeepsInv(t: Task, step: Step)
    requires Inv(t) && Enabled(t, step)
    ensures Inv(Do(t, step))
  {
    match step
    case Begin => BeginKeepsRun(t.writer);
    case Submit(entry) => SubmitKeepsRun(t.writer, t.run.value, entry);
    case Next(fate) =>
      NextKeepsWriter(t.writer, t.run.value, t.run.value.submitted[|t.run.value.wrote|], fate);
      NextKeepsRun(t.writer, t.run.value, fate);
    case Create(entry, fate) => WriteKeepsWriter(t.writer, Event(RunId(1), entry), fate);
    case Control(name, entry, fate) =>
      WriteKeepsWriter(t.writer, Event(OtherId(name), entry), fate);
      if t.run.Some? { OtherKeepsRun(t.writer, name, entry, fate, t.run.value); }
    case Reopen(kept) => ReopenKeepsWriter(t.writer, kept);
    case End =>
  }

  lemma {:induction false} RunKeepsInv(t: Task, steps: seq<Step>)
    requires Inv(t) && Runs(t, steps)
    ensures Inv(DoAll(t, steps))
    decreases |steps|
  {
    if steps != [] {
      StepKeepsInv(t, steps[0]);
      RunKeepsInv(Do(t, steps[0]), steps[1..]);
    }
  }

  // ---- the claims ----

  /** The event a step writes, and how that ends. */
  function WrittenBy(t: Task, step: Step): Option<(Event, Fate)>
    requires Enabled(t, step)
  {
    match step
    case Next(fate) => Some((Event(RunId(t.run.value.written + 1), t.run.value.submitted[|t.run.value.wrote|]), fate))
    case Create(entry, fate) => Some((Event(RunId(1), entry), fate))
    case Control(name, entry, fate) => Some((Event(OtherId(name), entry), fate))
    case _ => None
  }

  /** The log gains exactly what is written under a new id and neither stuck nor lost, at once or when the
      writer is next used or opened again, after the one before it; a record is lost only with the process, and
      only if it had not been kept. */
  lemma LogGains(t: Task, step: Step)
    requires Enabled(t, step)
    ensures var w, w' := t.writer, Do(t, step).writer;
      && w.log <= w'.log
      && var all := w.log + if w.pending.Some? then [w.pending.value] else [];
         var all' := w'.log + if w'.pending.Some? then [w'.pending.value] else [];
         match WrittenBy(t, step)
         case Some((e, fate)) =>
           && all' == (if (fate.Held? || fate.Written?) && (forall x :: x in all ==> x.id != e.id) then all + [e] else all)
           && (fate.Written? ==> w'.pending.None?)
         case None => all' == (if step == Reopen(false) then w.log else all) && (step.Reopen? ==> w'.pending.None?)
  {
  }

  /** Over any succession of turns, failures, control events and restarts no two events of the log share an
      id. A run's append meets an id already used if and only if it is the run's first and the run began
      while the writer held, of an earlier run, the record numbered next after the log. */
  lemma CollidesExactly(steps: seq<Step>, fate: Fate)
    requires Runs(INITIAL, steps) && Enabled(DoAll(INITIAL, steps), Next(fate))
    ensures var t := DoAll(INITIAL, steps);
      var r := t.run.value;
      && DistinctIds(Resume(t.writer).log)
      && (RunId(r.written + 1) in Ids(Resume(t.writer).log) <==> r.wrote == [] && r.carried.Some? && r.carried.value.id == RunId(r.start + 1))
      && (Do(t, Next(fate)).run.value.failed <==> Fails(r, r.submitted[|r.wrote|], fate))
  {
    RunKeepsInv(INITIAL, steps);
    var t := DoAll(INITIAL, steps);
    NextIsNewUnlessClash(t.writer, t.run.value);
    NextKeepsRun(t.writer, t.run.value, fate);
    assert WriterInv(Resume(t.writer));
  }

  /** Every run of `steps` began with nothing of an earlier run held. */
  predicate BeginsClean(t: Task, steps: seq<Step>)
    requires Runs(t, steps)
    decreases |steps|
  {
    steps == [] || ((steps[0].Begin? ==> HeldRecord(t.writer).None?) && BeginsClean(Do(t, steps[0]), steps[1..]))
  }

  lemma {:induction false} CleanStaysClean(t: Task, steps: seq<Step>)
    requires Runs(t, steps) && BeginsClean(t, steps) && (t.run.Some? ==> t.run.value.carried.None?)
    ensures DoAll(t, steps).run.Some? ==> DoAll(t, steps).run.value.carried.None?
    decreases |steps|
  {
    if steps != [] { CleanStaysClean(Do(t, steps[0]), steps[1..]); }
  }

  /** So as long as every run begins with nothing held, ids never collide, and an append is refused only by
      a real failure. */
  lemma CleanRunsNeverCollide(steps: seq<Step>, fate: Fate)
    requires Runs(INITIAL, steps) && BeginsClean(INITIAL, steps) && Enabled(DoAll(INITIAL, steps), Next(fate))
    ensures var t := DoAll(INITIAL, steps);
      && RunId(t.run.value.written + 1) !in Ids(Resume(t.writer).log)
      && (Do(t, Next(fate)).run.value.failed <==> !fate.Written?)
  {
    CleanStaysClean(INITIAL, steps);
    CollidesExactly(steps, fate);
  }

  lemma DoCons(t: Task, step: Step, rest: seq<Step>)
    requires Enabled(t, step) && Runs(Do(t, step), rest)
    ensures Runs(t, [step] + rest) && DoAll(t, [step] + rest) == DoAll(Do(t, step), rest)
  {
    assert ([step] + rest)[1..] == rest;
  }

  /** It does happen: a turn's first event is held, the turn ends, and the next turn's first event, which
      nothing stands in the way of, is refused for its id. */
  lemma HeldRecordCollides()
    ensures exists steps :: Runs(INITIAL, steps) && Enabled(DoAll(INITIAL, steps), Next(Written)) && Do(DoAll(INITIAL, steps), Next(Written)).run.value.failed
  {
    var t1 := Do(INITIAL, Begin);
    var t2 := Do(t1, Submit(5));
    var t3 := Do(t2, Next(Held));
    assert t3.writer == Writer([], Some(Event(RunId(1), 5)));
    var t4 := Do(t3, End);
    var t5 := Do(t4, Begin);
    var t6 := Do(t5, Submit(6));
    assert t6.run.value == Run(0, 0, false, [6], [], Some(Event(RunId(1), 5)));
    assert Resume(t6.writer).log == [Event(RunId(1), 5)];
    assert Event(RunId(1), 5) in Resume(t6.writer).log && Event(RunId(1), 6) !in Resume(t6.writer).log;
    assert Runs(t6, []) && DoAll(t6, []) == t6;
    DoCons(t5, Submit(6), []);
    DoCons(t4, Begin, [Submit(6)] + []);
    DoCons(t3, End, [Begin] + ([Submit(6)] + []));
    DoCons(t2, Next(Held), [End] + ([Begin] + ([Submit(6)] + [])));
    DoCons(t1, Submit(5), [Next(Held)] + ([End] + ([Begin] + ([Submit(6)] + []))));
    DoCons(INITIAL, Begin, [Submit(5)] + ([Next(Held)] + ([End] + ([Begin] + ([Submit(6)] + [])))));
  }

  /** What the log holds of a run is what it submitted, in order, cut at the first append that failed; that
      one event may still arrive, and so may one an earlier run left. A run that has not failed and has
      nothing waiting wrote it all. */
  lemma WrittenIsAPrefix(steps: seq<Step>)
    requires Runs(INITIAL, steps) && DoAll(INITIAL, steps).run.Some?
    ensures var t := DoAll(INITIAL, steps);
      var r := t.run.value;
      && r.start <= |t.writer.log|
      && exists n: nat :: n <= |r.submitted| && RunEntries(Since(t.writer, r.start)) == Carry(r) + r.submitted[..n]
           && |r.wrote| <= n <= |r.wrote| + (if r.failed then 1 else 0) && r.wrote == r.submitted[..|r.wrote|]
  {
    RunKeepsInv(INITIAL, steps);
    var t := DoAll(INITIAL, steps);
    var r := t.run.value;
    assert r.wrote == r.submitted[..|r.wrote|];
    if RunEntries(Since(t.writer, r.start)) == Carry(r) + r.wrote {
      assert RunEntries(Since(t.writer, r.start)) == Carry(r) + r.submitted[..|r.wrote|];
    } else {
      assert RunEntries(Since(t.writer, r.start)) == Carry(r) + r.submitted[..|r.wrote| + 1];
    }
  }

  // ---- the run object ----

  class EncryptedTaskRun {
    var writer: Writer
    var start: nat
    var written: nat
    var failed: bool
    var queue: seq<Entry>
    ghost var submitted: seq<Entry>
    ghost var wrote: seq<Entry>
    ghost var carried: Option<Event>

    ghost function Fields(): Run
      reads this
    {
      Run(start, written, failed, submitted, wrote, carried)
    }

    /** The queue is what has been submitted and not written, until a failure empties it. */
    ghost predicate Valid()
      reads this
    {
      && Inv(Task(writer, Some(Fields()))) && |wrote| <= |submitted|
      && queue == if failed then [] else submitted[|wrote|..]
    }

    constructor (writer: Writer)
      requires WriterInv(writer)
      ensures Valid() && this.writer == writer && Fields() == Begun(writer)
    {
      this.writer := writer;
      start, written, failed, queue := |writer.log|, |writer.log|, false, [];
      submitted, wrote, carried := [], [], HeldRecord(writer);
      new;
      BeginKeepsRun(writer);
    }

    /** Nothing is taken after a failure. */
    method Submit(entry: Entry)
      requires Valid()
      modifies this`queue, this`submitted
      ensures Valid() && submitted == old(submitted) + [entry]
      ensures queue == if failed then [] else old(queue) + [entry]
    {
      SubmitKeepsRun(writer, Fields(), entry);
      submitted := submitted + [entry];
      if !failed { queue := queue + [entry]; }
    }

    method WriteEntry(entry: Entry, fate: Fate)
      modifies this`writer, this`written, this`failed, this`wrote
      ensures (writer, Fields()) == Append(old(writer), old(Fields()), entry, fate)
    {
      written := written + 1;
      var (w, ack) := Write(writer, Event(RunId(written), entry), fate);
      writer := w;
      failed := ack.Failed?;
      if !failed { wrote := wrote + [entry]; }
    }

    method AppendNext(fate: Fate) returns (ok: bool)
      requires Valid() && queue != []
      modifies this`writer, this`written, this`failed, this`queue, this`wrote
      ensures Valid() && (writer, Fields()) == Append(old(writer), old(Fields()), old(queue)[0], fate)
      ensures ok == !failed && (failed <==> Fails(old(Fields()), old(queue)[0], fate))
    {
      var entry := queue[0];
      assert !failed && entry == submitted[|wrote|] && queue[1..] == submitted[|wrote| + 1..];
      AppendKeepsInv(writer, Fields(), entry, fate);
      WriteEntry(entry, fate);
      queue := if failed then [] else queue[1..];
      ok := !failed;
    }

    /** `await this.appendQueue`: the queue runs until it is empty or an append fails. */
    method Drain(fates: nat -> Fate) returns (complete: bool)
      requires Valid()
      modifies this`writer, this`written, this`failed, this`queue, this`wrote
      ensures Valid() && queue == [] && (complete <==> !failed)
      ensures complete ==> wrote == submitted && RunEntries(Since(writer, start)) == Carry(Fields()) + submitted
      ensures !complete ==> |wrote| < |submitted|
    {
      ghost var all := submitted;
      while queue != []
        invariant Valid() && submitted == all && start == old(start)
        decreases |queue|
      {
        var ok := AppendNext(fates(written));
      }
      complete := !failed;
    }
  }
}
