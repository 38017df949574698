/** packages/runtime/encrypted-host.js (apply, applyOrdered, performDeletions) over
    packages/runtime/encrypted-task.js (EncryptedTaskState): a control command takes effect at most
    once, through retries, crashes and deletion.

    A durable key such as "control:T:C" is represented by its colon-separated parts, which is the form
    both the save fence and forgetTask look at. */
module TaskControl {
  import opened Wrappers

  type Key = seq<string>
  type Command = seq<string>
  type Fingerprint = nat
  type Code = nat
  type Id = nat

  const TASK_DELETED: Code := 1
  const COMMAND_ID_CONFLICT: Code := 2
  const INVALID_COMMAND_ID: Code := 3

  datatype Claim = Accepted(fingerprint: Fingerprint) | Completed(fingerprint: Fingerprint, result: nat) | Rejected(fingerprint: Fingerprint, code: Code)

  datatype Row = ControlRow(claim: Claim) | FenceRow | OtherRow(value: nat)

  type Table = map<Key, Row>

  // ---- keys ----

  predicate IsHex(c: char) { '0' <= c <= '9' || 'a' <= c <= 'f' }

  predicate Prefixed(prefix: string, p: string) {
    |p| == |prefix| + 32 && p[..|prefix|] == prefix && forall k :: |prefix| <= k < |p| ==> IsHex(p[k])
  }

  /** TASK_ID: "et_" and 32 hexadecimal digits. */
  predicate IsTaskId(p: string) { Prefixed("et_", p) }

  /** The form readTaskControl insists on for a command id: "cmd_" and 32 hexadecimal digits. */
  predicate IsWireCommand(c: Command) { |c| == 1 && Prefixed("cmd_", c[0]) }

  function ControlKey(task: string, command: Command): Key { ["control", task] + command }

  function FenceKey(task: string): Key { ["deleted", task] }

  /** `id.split(':').find(part => TASK_ID.test(part))` */
  function TaskOf(key: Key): Option<string> {
    if key == [] then None else if IsTaskId(key[0]) then Some(key[0]) else TaskOf(key[1..])
  }

  /** The condition under which forgetTask deletes a row of another name. */
  predicate Mentions(key: Key, task: string) { key == [task] || exists i :: 1 <= i < |key| && key[i] == task }

  /** What `save` checks before it writes. */
  predicate MaySave(rows: Table, key: Key) {
    var task := TaskOf(key);
    task.Some? && key != FenceKey(task.value) ==> FenceKey(task.value) !in rows
  }

  function Saved(rows: Table, key: Key, row: Row): Table { if MaySave(rows, key) then rows[key := row] else rows }

  function Forgotten(rows: Table, task: string): Table {
    map k | k in rows && (k == FenceKey(task) || !Mentions(k, task)) :: rows[k]
  }

  predicate Fenced(rows: Table, task: string) { FenceKey(task) in rows }

  lemma FenceKeyTask(task: string)
    requires IsTaskId(task)
    ensures TaskOf(FenceKey(task)) == Some(task)
  {
    assert FenceKey(task)[1..] == [task];
  }

  lemma ControlKeyTask(task: string, command: Command)
    requires IsTaskId(task)
    ensures TaskOf(ControlKey(task, command)) == Some(task)
  {
    assert ControlKey(task, command)[1..] == [task] + command;
  }

  /** No part of the command id is the id of some other task. */
  predicate Safe(task: string, command: Command) { forall p :: p in command && IsTaskId(p) ==> p == task }

  /** Every command id that arrives over the wire is safe with every task. */
  lemma WireCommandsAreSafe(task: string, command: Command)
    requires IsWireCommand(command)
    ensures Safe(task, command) && command != [""]
  {
    assert command[0][0] == 'c';
  }

  /** Deleting a task forgets exactly its own claims and those whose command id names it. */
  lemma ForgetReaches(task: string, command: Command, other: string)
    requires IsTaskId(task) && IsTaskId(other)
    ensures Mentions(ControlKey(task, command), other) <==> other == task || other in command
  {
    var key := ControlKey(task, command);
    if other in command {
      var i :| 0 <= i < |command| && command[i] == other;
      assert key[i + 2] == other;
    }
    if other == task { assert key[1] == other; }
  }

  // ---- the calls ----

  /** How the action takes effect: through the execution engine, through the log writer, or, for a
      history handoff, after more awaits. */
  datatype Kind = Engine | Log | History

  datatype Phase = Preparing | Claimed | Dispatched

  datatype Frame = Frame(task: string, command: Command, fingerprint: Fingerprint, kind: Kind, phase: Phase)

  datatype Effect = Effect(task: string, command: Command, fingerprint: Fingerprint)

  /** The durable table, the deletions observed in memory, and every effect ever dispatched. */
  datatype Desk = Desk(rows: Table, observed: set<string>, effects: seq<Effect>)

  datatype Turn = Turn(desk: Desk, frame: Option<Frame>)

  predicate Live(d: Desk, task: string) { !Fenced(d.rows, task) && task !in d.observed }

  /** The catch clause of apply: a coded refusal settles a claim that is still accepted. */
  function Refused(d: Desk, f: Frame, code: Option<Code>): Turn {
    var key := ControlKey(f.task, f.command);
    if code.Some? && key in d.rows && d.rows[key].ControlRow? && d.rows[key].claim.Accepted?
    then Turn(d.(rows := Saved(d.rows, key, ControlRow(Rejected(d.rows[key].claim.fingerprint, code.value)))), None)
    else Turn(d, None)
  }

  /** From the last check of liveness to the dispatch of the action. `invalid` is the code of a payload
      refused after the claim and before any effect. */
  function OnOpened(d: Desk, f: Frame, invalid: Option<Code>): Turn {
    var key := ControlKey(f.task, f.command);
    if !Live(d, f.task) then Refused(d, f, Some(TASK_DELETED))
    else if key in d.rows && d.rows[key].ControlRow? then
      if d.rows[key].claim.fingerprint != f.fingerprint then Refused(d, f, Some(COMMAND_ID_CONFLICT)) else Turn(d, None)
    else if f.command == [""] then Refused(d, f, Some(INVALID_COMMAND_ID))
    else
      var claimed := d.(rows := Saved(d.rows, key, ControlRow(Accepted(f.fingerprint))));
      if invalid.Some? then Refused(claimed, f, invalid)
      else if f.kind.History? then Turn(claimed, Some(f.(phase := Claimed)))
      else Turn(Dispatching(claimed, f), Some(f.(phase := Dispatched)))
  }

  function Dispatching(d: Desk, f: Frame): Desk { d.(effects := d.effects + [Effect(f.task, f.command, f.fingerprint)]) }

  /** A history handoff checks again before it hands anything over. */
  function OnSealed(d: Desk, f: Frame): Turn {
    if !Live(d, f.task) then Refused(d, f, Some(TASK_DELETED))
    else Turn(Dispatching(d, f), Some(f.(phase := Dispatched)))
  }

  function OnFinished(d: Desk, f: Frame, result: nat): Turn {
    var key := ControlKey(f.task, f.command);
    if (f.kind.Engine? && !Live(d, f.task)) || !MaySave(d.rows, key) then Refused(d, f, Some(TASK_DELETED))
    else Turn(d.(rows := Saved(d.rows, key, ControlRow(Completed(f.fingerprint, result)))), None)
  }

  // ---- runs ----

  datatype State = State(desk: Desk, frames: map<Id, Frame>)

  datatype Event =
    | Call(id: Id, task: string, command: Command, fingerprint: Fingerprint, kind: Kind)
    | Fail(id: Id, code: Option<Code>)
    | Opened(id: Id, invalid: Option<Code>)
    | Sealed(id: Id)
    | Finished(id: Id, result: nat)
    | Observe(task: string)
    | Fence(task: string)
    | Forget(task: string)
    | SaveOther(key: Key, value: nat)
    | Crash

  /** The per-task queue lets one call in at a time; deletion drops the queue once the fence is saved. */
  predicate MayStart(s: State, task: string) {
    Fenced(s.desk.rows, task) || forall id :: id in s.frames ==> s.frames[id].task != task
  }

  function Put(s: State, id: Id, t: Turn): State {
    State(t.desk, if t.frame.Some? then s.frames[id := t.frame.value] else s.frames - {id})
  }

  function Step(s: State, e: Event): State {
    match e
    case Call(id, task, command, fingerprint, kind) =>
      if id in s.frames || !IsTaskId(task) || command == [] || !MayStart(s, task) then s
      else s.(frames := s.frames[id := Frame(task, command, fingerprint, kind, Preparing)])
    case Fail(id, code) => if id in s.frames then Put(s, id, Refused(s.desk, s.frames[id], code)) else s
    case Opened(id, invalid) =>
      if id in s.frames && s.frames[id].phase.Preparing? then Put(s, id, OnOpened(s.desk, s.frames[id], invalid)) else s
    case Sealed(id) => if id in s.frames && s.frames[id].phase.Claimed? then Put(s, id, OnSealed(s.desk, s.frames[id])) else s
    case Finished(id, result) =>
      if id in s.frames && s.frames[id].phase.Dispatched? then Put(s, id, OnFinished(s.desk, s.frames[id], result)) else s
    case Observe(task) => s.(desk := s.desk.(observed := s.desk.observed + {task}))
    case Fence(task) => if IsTaskId(task) then s.(desk := s.desk.(rows := Saved(s.desk.rows, FenceKey(task), FenceRow))) else s
    case Forget(task) =>
      if IsTaskId(task) && Fenced(s.desk.rows, task) then s.(desk := s.desk.(rows := Forgotten(s.desk.rows, task))) else s
    case SaveOther(key, value) =>
      if key == [] || key[0] == "control" || key[0] == "deleted" then s
      else s.(desk := s.desk.(rows := Saved(s.desk.rows, key, OtherRow(value))))
    case Crash => State(s.desk.(observed := {}), map[])
  }

  function Run(s: State, events: seq<Event>): State
    decreases |events|
  {
    if events == [] then s else Run(Step(s, events[0]), events[1..])
  }

  const INITIAL: State := State(Desk(map[], {}, []), map[])

  function Dispatches(effects: seq<Effect>, task: string, command: Command): nat {
    if effects == [] then 0
    else Dispatches(effects[..|effects| - 1], task, command)
         + (if effects[|effects| - 1].task == task && effects[|effects| - 1].command == command then 1 else 0)
  }

  // ---- the invariant, for one safe command ----

  ghost predicate ClaimIs(d: Desk, task: string, command: Command, fingerprint: Fingerprint) {
    var key := ControlKey(task, command);
    key in d.rows && d.rows[key].ControlRow? && d.rows[key].claim.fingerprint == fingerprint
  }

  /** Every effect of the command is backed by a claim with its fingerprint, unless the task is fenced. */
  ghost predicate Backed(d: Desk, task: string, command: Command) {
    && Dispatches(d.effects, task, command) <= 1
    && (!Fenced(d.rows, task) ==>
          forall e :: e in d.effects && e.task == task && e.command == command ==> ClaimIs(d, task, command, e.fingerprint))
  }

  /** A call past its claim holds an accepted claim; before its dispatch the command has had no effect. */
  ghost predicate Holding(d: Desk, f: Frame) {
    var key := ControlKey(f.task, f.command);
    && (f.phase.Claimed? || f.phase.Dispatched? ==> key in d.rows && d.rows[key] == ControlRow(Accepted(f.fingerprint)))
    && (f.phase.Claimed? ==> Dispatches(d.effects, f.task, f.command) == 0)
  }

  ghost predicate OneAtATime(s: State) {
    forall i, j :: i in s.frames && j in s.frames && s.frames[i].task == s.frames[j].task && !Fenced(s.desk.rows, s.frames[i].task) ==> i == j
  }

  ghost predicate WellKeyed(rows: Table) {
    && (forall k :: k in rows && rows[k].ControlRow? ==> k != [] && k[0] == "control")
    && (forall k :: k in rows && k != [] && k[0] == "control" ==> rows[k].ControlRow?)
  }

  ghost predicate Inv(s: State, task: string, command: Command) {
    && OneAtATime(s) && WellKeyed(s.desk.rows) && Backed(s.desk, task, command)
    && (forall i :: i in s.frames ==> IsTaskId(s.frames[i].task))
    && (forall i :: i in s.frames && s.frames[i].task == task && s.frames[i].command == command && !Fenced(s.desk.rows, task) ==>
          Holding(s.desk, s.frames[i]))
  }

  lemma SaveControl(d: Desk, task: string, command: Command, claim: Claim)
    requires IsTaskId(task) && WellKeyed(d.rows)
    ensures var rows := Saved(d.rows, ControlKey(task, command), ControlRow(claim));
      && WellKeyed(rows) && (forall t :: Fenced(rows, t) <==> Fenced(d.rows, t))
      && (Fenced(d.rows, task) ==> rows == d.rows)
      && (!Fenced(d.rows, task) ==> rows == d.rows[ControlKey(task, command) := ControlRow(claim)])
  {
    ControlKeyTask(task, command);
    assert ControlKey(task, command)[0] == "control";
    forall t ensures FenceKey(t) != ControlKey(task, command) { assert FenceKey(t)[0] == "deleted"; }
  }

  lemma KeysDiffer(t1: string, c1: Command, t2: string, c2: Command)
    ensures ControlKey(t1, c1) == ControlKey(t2, c2) ==> t1 == t2 && c1 == c2
  {
    assert ControlKey(t1, c1)[1] == t1 && ControlKey(t2, c2)[1] == t2;
    assert ControlKey(t1, c1)[2..] == c1 && ControlKey(t2, c2)[2..] == c2;
  }

  // ---- every step keeps it ----

  /** What a stretch of code run by call `id` may do to the table and the effects. */
  ghost predicate Confined(s: State, f: Frame, t: Turn) {
    && WellKeyed(t.desk.rows)
    && (forall k :: k != ControlKey(f.task, f.command) ==> (k in t.desk.rows <==> k in s.desk.rows) && (k in s.desk.rows ==> t.desk.rows[k] == s.desk.rows[k]))
    && (t.desk.effects == s.desk.effects || t.desk.effects == s.desk.effects + [Effect(f.task, f.command, f.fingerprint)])
    && (t.frame.Some? ==> t.frame.value == f.(phase := t.frame.value.phase))
  }

  lemma FencesStay(s: State, f: Frame, t: Turn, task: string)
    requires Confined(s, f, t)
    ensures Fenced(t.desk.rows, task) <==> Fenced(s.desk.rows, task)
  {
    assert FenceKey(task)[0] != ControlKey(f.task, f.command)[0];
  }

  lemma OthersDispatch(effects: seq<Effect>, e: Effect, task: string, command: Command)
    ensures Dispatches(effects + [e], task, command)
         == Dispatches(effects, task, command) + (if e.task == task && e.command == command then 1 else 0)
  {
    assert (effects + [e])[..|effects|] == effects;
  }

  lemma PutKeepsInv(s: State, id: Id, t: Turn, task: string, command: Command)
    requires id in s.frames && Inv(s, task, command) && Confined(s, s.frames[id], t)
    requires Backed(t.desk, task, command)
    requires var f := s.frames[id];
      f.task == task && f.command == command && t.frame.Some? && !Fenced(t.desk.rows, task) ==> Holding(t.desk, t.frame.value)
    ensures Inv(Put(s, id, t), task, command)
  {
    var f, s' := s.frames[id], Put(s, id, t);
    forall x ensures Fenced(t.desk.rows, x) <==> Fenced(s.desk.rows, x) { FencesStay(s, f, t, x); }
    forall i | i in s'.frames && s'.frames[i].task == task && s'.frames[i].command == command && !Fenced(s'.desk.rows, task)
      ensures Holding(s'.desk, s'.frames[i])
    {
      if i != id {
        assert f.task != task;
        KeysDiffer(task, command, f.task, f.command);
        OthersDispatch(s.desk.effects, Effect(f.task, f.command, f.fingerprint), task, command);
        assert Holding(s.desk, s.frames[i]);
      }
    }
  }

  /** Changing only the state of an existing claim, or a claim of another command, keeps `Backed`. */
  lemma BackedByOthers(d: Desk, d': Desk, f: Frame, task: string, command: Command)
    requires Backed(d, task, command) && d'.effects == d.effects && (Fenced(d'.rows, task) <==> Fenced(d.rows, task))
    requires forall k :: k != ControlKey(f.task, f.command) && k in d.rows ==> k in d'.rows && d'.rows[k] == d.rows[k]
    requires var key := ControlKey(f.task, f.command); key in d.rows && d.rows[key].ControlRow? ==>
               key in d'.rows && d'.rows[key].ControlRow? && d'.rows[key].claim.fingerprint == d.rows[key].claim.fingerprint
    ensures Backed(d', task, command)
  {
    if !Fenced(d'.rows, task) {
      forall e | e in d'.effects && e.task == task && e.command == command ensures ClaimIs(d', task, command, e.fingerprint) {
        assert ClaimIs(d, task, command, e.fingerprint);
      }
    }
  }

  lemma RefusedKeepsInv(s: State, id: Id, code: Option<Code>, task: string, command: Command)
    requires id in s.frames && Inv(s, task, command)
    ensures Inv(Put(s, id, Refused(s.desk, s.frames[id], code)), task, command)
  {
    var f, t := s.frames[id], Refused(s.desk, s.frames[id], code);
    var key := ControlKey(f.task, f.command);
    if t.desk != s.desk { SaveControl(s.desk, f.task, f.command, Rejected(s.desk.rows[key].claim.fingerprint, code.value)); }
    FencesStay(s, f, t, task);
    BackedByOthers(s.desk, t.desk, f, task, command);
    PutKeepsInv(s, id, t, task, command);
  }

  /** An unfenced command with no row yet has had no effect. */
  lemma NoRowNoEffect(d: Desk, task: string, command: Command)
    requires Backed(d, task, command) && !Fenced(d.rows, task) && ControlKey(task, command) !in d.rows
    ensures Dispatches(d.effects, task, command) == 0
  {
    assert forall e :: e in d.effects && e.task == task && e.command == command ==> ClaimIs(d, task, command, e.fingerprint);
    NoneMeansZero(d.effects, task, command);
  }

  lemma {:induction false} NoneMeansZero(effects: seq<Effect>, task: string, command: Command)
    requires forall e :: e in effects ==> !(e.task == task && e.command == command)
    ensures Dispatches(effects, task, command) == 0
  {
    if effects != [] { NoneMeansZero(effects[..|effects| - 1], task, command); }
  }

  lemma {:induction false} ZeroMeansNone(effects: seq<Effect>, task: string, command: Command)
    requires Dispatches(effects, task, command) == 0
    ensures forall e :: e in effects ==> !(e.task == task && e.command == command)
  {
    if effects != [] {
      ZeroMeansNone(effects[..|effects| - 1], task, command);
      assert effects == effects[..|effects| - 1] + [effects[|effects| - 1]];
    }
  }

  /** The step that claims a fresh command: the row, then perhaps a refusal, a wait, or the effect. */
  lemma ClaimedRow(s: State, f: Frame, claimed: Desk, task: string, command: Command)
    requires Inv(s, task, command) && IsTaskId(f.task) && Live(s.desk, f.task) && ControlKey(f.task, f.command) !in s.desk.rows
    requires claimed == s.desk.(rows := Saved(s.desk.rows, ControlKey(f.task, f.command), ControlRow(Accepted(f.fingerprint))))
    ensures claimed.rows == s.desk.rows[ControlKey(f.task, f.command) := ControlRow(Accepted(f.fingerprint))]
    ensures Confined(s, f, Turn(claimed, None)) && Backed(claimed, task, command)
    ensures f.task == task && f.command == command ==> Dispatches(s.desk.effects, task, command) == 0
  {
    SaveControl(s.desk, f.task, f.command, Accepted(f.fingerprint));
    FencesStay(s, f, Turn(claimed, None), task);
    BackedByOthers(s.desk, claimed, f, task, command);
    if f.task == task && f.command == command { NoRowNoEffect(s.desk, task, command); }
  }

  /** The one place an effect happens: its command is claimed with its fingerprint and had none before. */
  lemma DispatchBacked(d: Desk, f: Frame, task: string, command: Command)
    requires Backed(d, task, command)
    requires f.task == task && f.command == command ==> Dispatches(d.effects, task, command) == 0 && ClaimIs(d, task, command, f.fingerprint)
    ensures Backed(Dispatching(d, f), task, command)
  {
    OthersDispatch(d.effects, Effect(f.task, f.command, f.fingerprint), task, command);
    if f.task == task && f.command == command { ZeroMeansNone(d.effects, task, command); }
  }

  lemma OpenedKeepsInv(s: State, id: Id, invalid: Option<Code>, task: string, command: Command)
    requires id in s.frames && s.frames[id].phase.Preparing? && Inv(s, task, command)
    ensures Inv(Put(s, id, OnOpened(s.desk, s.frames[id], invalid)), task, command)
  {
    var f := s.frames[id];
    var key := ControlKey(f.task, f.command);
    assert key[0] == "control";
    if !Live(s.desk, f.task) || key in s.desk.rows || f.command == [""] {
      RefusedKeepsInv(s, id, Some(TASK_DELETED), task, command);
      RefusedKeepsInv(s, id, Some(COMMAND_ID_CONFLICT), task, command);
      RefusedKeepsInv(s, id, Some(INVALID_COMMAND_ID), task, command);
      RefusedKeepsInv(s, id, None, task, command);
    } else {
      var claimed := s.desk.(rows := Saved(s.desk.rows, key, ControlRow(Accepted(f.fingerprint))));
      ClaimedRow(s, f, claimed, task, command);
      if invalid.Some? {
        RejectAtOnce(s, id, claimed, invalid.value, task, command);
      } else if f.kind.History? {
        PutKeepsInv(s, id, Turn(claimed, Some(f.(phase := Claimed))), task, command);
      } else {
        DispatchBacked(claimed, f, task, command);
        PutKeepsInv(s, id, Turn(Dispatching(claimed, f), Some(f.(phase := Dispatched))), task, command);
      }
    }
  }

  lemma RejectAtOnce(s: State, id: Id, claimed: Desk, code: Code, task: string, command: Command)
    requires id in s.frames && Inv(s, task, command) && Live(s.desk, s.frames[id].task)
    requires Confined(s, s.frames[id], Turn(claimed, None)) && Backed(claimed, task, command) && claimed.effects == s.desk.effects
    requires claimed.rows == s.desk.rows[ControlKey(s.frames[id].task, s.frames[id].command) := ControlRow(Accepted(s.frames[id].fingerprint))]
    ensures Inv(Put(s, id, Refused(claimed, s.frames[id], Some(code))), task, command)
  {
    var f, t := s.frames[id], Refused(claimed, s.frames[id], Some(code));
    SaveControl(claimed, f.task, f.command, Rejected(f.fingerprint, code));
    FencesStay(s, f, Turn(claimed, None), f.task);
    FencesStay(s, f, Turn(claimed, None), task);
    FencesStay(s, f, t, task);
    BackedByOthers(claimed, t.desk, f, task, command);
    PutKeepsInv(s, id, t, task, command);
  }

  lemma SealedKeepsInv(s: State, id: Id, task: string, command: Command)
    requires id in s.frames && s.frames[id].phase.Claimed? && Inv(s, task, command)
    ensures Inv(Put(s, id, OnSealed(s.desk, s.frames[id])), task, command)
  {
    var f := s.frames[id];
    if !Live(s.desk, f.task) {
      RefusedKeepsInv(s, id, Some(TASK_DELETED), task, command);
    } else {
      DispatchBacked(s.desk, f, task, command);
      PutKeepsInv(s, id, OnSealed(s.desk, f), task, command);
    }
  }

  lemma FinishedKeepsInv(s: State, id: Id, result: nat, task: string, command: Command)
    requires id in s.frames && s.frames[id].phase.Dispatched? && Inv(s, task, command)
    ensures Inv(Put(s, id, OnFinished(s.desk, s.frames[id], result)), task, command)
  {
    var f := s.frames[id];
    var t := OnFinished(s.desk, f, result);
    if (f.kind.Engine? && !Live(s.desk, f.task)) || !MaySave(s.desk.rows, ControlKey(f.task, f.command)) {
      RefusedKeepsInv(s, id, Some(TASK_DELETED), task, command);
    } else {
      SaveControl(s.desk, f.task, f.command, Completed(f.fingerprint, result));
      FencesStay(s, f, t, task);
      if f.task == task && f.command == command {
        if !Fenced(s.desk.rows, task) { assert Holding(s.desk, f); }
        FinishBacked(s.desk, t.desk, f, task, command);
      } else {
        KeysDiffer(task, command, f.task, f.command);
        ElsewhereBacked(s.desk, t.desk, task, command);
      }
      PutKeepsInv(s, id, t, task, command);
    }
  }

  lemma FinishBacked(d: Desk, d': Desk, f: Frame, task: string, command: Command)
    requires Backed(d, task, command) && d'.effects == d.effects && (Fenced(d'.rows, task) <==> Fenced(d.rows, task))
    requires !Fenced(d.rows, task) ==> ClaimIs(d, task, command, f.fingerprint) && ClaimIs(d', task, command, f.fingerprint)
    ensures Backed(d', task, command)
  {
    if !Fenced(d.rows, task) {
      forall e | e in d.effects && e.task == task && e.command == command ensures ClaimIs(d', task, command, e.fingerprint) {
        assert ClaimIs(d, task, command, e.fingerprint);
      }
    }
  }

  lemma ElsewhereBacked(d: Desk, d': Desk, task: string, command: Command)
    requires Backed(d, task, command) && d'.effects == d.effects && (Fenced(d.rows, task) ==> Fenced(d'.rows, task))
    requires var key := ControlKey(task, command); key in d.rows ==> key in d'.rows && d'.rows[key] == d.rows[key]
    ensures Backed(d', task, command)
  {
    if !Fenced(d'.rows, task) {
      forall e | e in d.effects && e.task == task && e.command == command ensures ClaimIs(d', task, command, e.fingerprint) {
        assert ClaimIs(d, task, command, e.fingerprint);
      }
    }
  }

  /** Steps outside the calls: fencing, forgetting, other saves, crashes. */
  lemma TableKeepsInv(s: State, rows: Table, task: string, command: Command)
    requires Inv(s, task, command) && WellKeyed(rows)
    requires forall t :: Fenced(s.desk.rows, t) ==> Fenced(rows, t)
    requires var key := ControlKey(task, command); !Fenced(rows, task) && key in s.desk.rows ==> key in rows && rows[key] == s.desk.rows[key]
    ensures Inv(s.(desk := s.desk.(rows := rows)), task, command)
  {
    var s' := s.(desk := s.desk.(rows := rows));
    if !Fenced(rows, task) {
      ElsewhereBacked(s.desk, s'.desk, task, command);
      forall i | i in s'.frames && s'.frames[i].task == task && s'.frames[i].command == command ensures Holding(s'.desk, s'.frames[i]) {
        assert Holding(s.desk, s.frames[i]);
      }
    }
  }

  lemma FenceKeepsInv(s: State, fenced: string, task: string, command: Command)
    requires Inv(s, task, command) && IsTaskId(fenced)
    ensures Inv(Step(s, Fence(fenced)), task, command) && Fenced(Step(s, Fence(fenced)).desk.rows, fenced)
  {
    FenceKeyTask(fenced);
    var rows := Saved(s.desk.rows, FenceKey(fenced), FenceRow);
    assert FenceKey(fenced)[0] == "deleted" && ControlKey(task, command)[0] == "control";
    TableKeepsInv(s, rows, task, command);
  }

  lemma FencesAreKept(rows: Table, task: string, t: string)
    requires Fenced(rows, t)
    ensures Fenced(Forgotten(rows, task), t)
  {
    if Mentions(FenceKey(t), task) {
      var i :| 1 <= i < |FenceKey(t)| && FenceKey(t)[i] == task;
      assert t == task;
    }
  }

  lemma ForgetKeepsInv(s: State, gone: string, task: string, command: Command)
    requires Inv(s, task, command) && IsTaskId(task) && Safe(task, command)
    ensures Inv(Step(s, Forget(gone)), task, command)
  {
    if IsTaskId(gone) && Fenced(s.desk.rows, gone) {
      var rows := Forgotten(s.desk.rows, gone);
      forall t | Fenced(s.desk.rows, t) ensures Fenced(rows, t) { FencesAreKept(s.desk.rows, gone, t); }
      ForgetReaches(task, command, gone);
      TableKeepsInv(s, rows, task, command);
    }
  }

  lemma SaveOtherKeepsInv(s: State, key: Key, value: nat, task: string, command: Command)
    requires Inv(s, task, command)
    ensures Inv(Step(s, SaveOther(key, value)), task, command)
  {
    if key != [] && key[0] != "control" && key[0] != "deleted" {
      var rows := Saved(s.desk.rows, key, OtherRow(value));
      assert ControlKey(task, command)[0] == "control";
      forall t ensures FenceKey(t) != key { assert FenceKey(t)[0] == "deleted"; }
      TableKeepsInv(s, rows, task, command);
    }
  }

  lemma StepKeepsInv(s: State, e: Event, task: string, command: Command)
    requires Inv(s, task, command) && IsTaskId(task) && Safe(task, command)
    ensures Inv(Step(s, e), task, command)
  {
    match e
    case Fail(id, code) => if id in s.frames { RefusedKeepsInv(s, id, code, task, command); }
    case Opened(id, invalid) => if id in s.frames && s.frames[id].phase.Preparing? { OpenedKeepsInv(s, id, invalid, task, command); }
    case Sealed(id) => if id in s.frames && s.frames[id].phase.Claimed? { SealedKeepsInv(s, id, task, command); }
    case Finished(id, result) => if id in s.frames && s.frames[id].phase.Dispatched? { FinishedKeepsInv(s, id, result, task, command); }
    case Fence(fenced) => if IsTaskId(fenced) { FenceKeepsInv(s, fenced, task, command); }
    case Forget(gone) => ForgetKeepsInv(s, gone, task, command);
    case SaveOther(key, value) => SaveOtherKeepsInv(s, key, value, task, command);
    case _ =>
  }

  lemma {:induction false} RunKeepsInv(s: State, events: seq<Event>, task: string, command: Command)
    requires Inv(s, task, command) && IsTaskId(task) && Safe(task, command)
    ensures Inv(Run(s, events), task, command)
    decreases |events|
  {
    if events != [] {
      StepKeepsInv(s, events[0], task, command);
      RunKeepsInv(Step(s, events[0]), events[1..], task, command);
    }
  }

  // ---- at most once ----

  /** Over every run, with crashes, retries, deletions and concurrent calls, a command takes effect at
      most once, exactly if its id names no other task. */
  lemma AtMostOnce(task: string, command: Command)
    requires IsTaskId(task) && command != [] && command != [""]
    ensures (forall events :: Dispatches(Run(INITIAL, events).desk.effects, task, command) <= 1) <==> Safe(task, command)
  {
    if Safe(task, command) {
      forall events ensures Dispatches(Run(INITIAL, events).desk.effects, task, command) <= 1 {
        RunKeepsInv(INITIAL, events, task, command);
      }
    } else {
      var other :| other in command && IsTaskId(other) && other != task;
      RunsTwice(task, command, other);
    }
  }

  /** In particular every command that arrives over the wire takes effect at most once. */
  lemma WireCommandsRunOnce(task: string, command: Command, events: seq<Event>)
    requires IsTaskId(task) && IsWireCommand(command)
    ensures Dispatches(Run(INITIAL, events).desk.effects, task, command) <= 1
  {
    WireCommandsAreSafe(task, command);
    AtMostOnce(task, command);
  }

  /** A first call of a command on an idle desk claims it and takes effect. */
  lemma FirstCallRuns(s: State, task: string, command: Command)
    requires IsTaskId(task) && command != [] && command != [""] && s.frames == map[]
    requires Live(s.desk, task) && ControlKey(task, command) !in s.desk.rows
    ensures Run(s, [Call(0, task, command, 7, Engine), Opened(0, None)])
         == State(Desk(s.desk.rows[ControlKey(task, command) := ControlRow(Accepted(7))], s.desk.observed,
                       s.desk.effects + [Effect(task, command, 7)]),
                  map[0 := Frame(task, command, 7, Engine, Dispatched)])
  {
    ControlKeyTask(task, command);
    RunTwo(s, Call(0, task, command, 7, Engine), Opened(0, None));
  }

  lemma RunTwo(s: State, e1: Event, e2: Event)
    ensures Run(s, [e1, e2]) == Step(Step(s, e1), e2)
  {
    var es := [e1, e2];
    assert es[1..] == [e2] && [e2][1..] == [];
    assert Run(s, es) == Run(Step(s, es[0]), es[1..]);
    assert Run(Step(s, e1), [e2]) == Run(Step(Step(s, e1), e2), []);
  }

  /** Deleting another task named in the command id forgets the completed claim. */
  lemma DeletionForgets(s: State, task: string, command: Command, other: string)
    requires IsTaskId(task) && IsTaskId(other) && other != task && other in command && !Fenced(s.desk.rows, task)
    ensures Run(s, [Fence(other), Forget(other)]) == s.(desk := s.desk.(rows := Forgotten(Saved(s.desk.rows, FenceKey(other), FenceRow), other)))
    ensures var rows := Forgotten(Saved(s.desk.rows, FenceKey(other), FenceRow), other);
      ControlKey(task, command) !in rows && !Fenced(rows, task)
  {
    FenceKeyTask(other);
    ForgetReaches(task, command, other);
    assert FenceKey(other)[0] != ControlKey(task, command)[0];
    assert FenceKey(other)[1] != FenceKey(task)[1];
    var fenced := Saved(s.desk.rows, FenceKey(other), FenceRow);
    assert Fenced(fenced, other) && !Fenced(fenced, task);
    assert Step(s, Fence(other)) == s.(desk := s.desk.(rows := fenced));
    assert Step(Step(s, Fence(other)), Forget(other)) == s.(desk := s.desk.(rows := Forgotten(fenced, other)));
    RunTwo(s, Fence(other), Forget(other));
  }

  /** A call, and then the process ends. */
  lemma RunsOnceAndCrashes(task: string, command: Command) returns (s: State)
    requires IsTaskId(task) && command != [] && command != [""]
    ensures s == Run(INITIAL, [Call(0, task, command, 7, Engine), Opened(0, None)] + [Crash])
    ensures s.frames == map[] && s.desk.effects == [Effect(task, command, 7)] && s.desk.observed == {} && !Fenced(s.desk.rows, task)
  {
    var go := [Call(0, task, command, 7, Engine), Opened(0, None)];
    FirstCallRuns(INITIAL, task, command);
    RunAppend(INITIAL, go, [Crash]);
    s := Step(Run(INITIAL, go), Crash);
    assert FenceKey(task)[0] != ControlKey(task, command)[0];
  }

  /** A deletion of the other task, and the call again. */
  lemma RunsAgain(s: State, task: string, command: Command, other: string)
    requires IsTaskId(task) && IsTaskId(other) && other != task && other in command && command != [""]
    requires s.frames == map[] && s.desk.effects == [Effect(task, command, 7)] && s.desk.observed == {} && !Fenced(s.desk.rows, task)
    ensures Run(s, [Fence(other), Forget(other)] + [Call(0, task, command, 7, Engine), Opened(0, None)]).desk.effects
         == [Effect(task, command, 7)] + [Effect(task, command, 7)]
  {
    var deletion, go := [Fence(other), Forget(other)], [Call(0, task, command, 7, Engine), Opened(0, None)];
    DeletionForgets(s, task, command, other);
    FirstCallRuns(Run(s, deletion), task, command);
    RunAppend(s, deletion, go);
  }

  /** Deleting a task whose id is part of the command id forgets the claim; the retry runs again. */
  lemma RunsTwice(task: string, command: Command, other: string)
    requires IsTaskId(task) && IsTaskId(other) && other != task && other in command && command != [""]
    ensures exists events :: Dispatches(Run(INITIAL, events).desk.effects, task, command) == 2
  {
    var go, deletion := [Call(0, task, command, 7, Engine), Opened(0, None)], [Fence(other), Forget(other)];
    var s := RunsOnceAndCrashes(task, command);
    RunsAgain(s, task, command, other);
    RunAppend(INITIAL, go + [Crash], deletion + go);
    OthersDispatch([], Effect(task, command, 7), task, command);
    OthersDispatch([Effect(task, command, 7)], Effect(task, command, 7), task, command);
    assert [] + [Effect(task, command, 7)] == [Effect(task, command, 7)];
    assert Dispatches(Run(INITIAL, (go + [Crash]) + (deletion + go)).desk.effects, task, command) == 2;
  }

  lemma {:induction false} RunAppend(s: State, first: seq<Event>, second: seq<Event>)
    ensures Run(s, first + second) == Run(Run(s, first), second)
    decreases |first|
  {
    if first == [] {
      assert first + second == second;
    } else {
      assert (first + second)[1..] == first[1..] + second;
      RunAppend(Step(s, first[0]), first[1..], second);
    }
  }

  /** While the task lives, an effect and the claim on record always carry the same fingerprint. */
  lemma EffectMatchesClaim(events: seq<Event>, task: string, command: Command, e: Effect)
    requires IsTaskId(task) && Safe(task, command)
    requires var d := Run(INITIAL, events).desk; e in d.effects && e.task == task && e.command == command && !Fenced(d.rows, task)
    ensures ClaimIs(Run(INITIAL, events).desk, task, command, e.fingerprint)
  {
    RunKeepsInv(INITIAL, events, task, command);
  }

  predicate Settled(c: Claim) { c.Completed? || c.Rejected? }

  /** A completed or rejected claim never changes while the task lives. */
  lemma SettledStays(s: State, e: Event, task: string, command: Command)
    requires Inv(s, task, command) && IsTaskId(task) && Safe(task, command)
    requires ControlKey(task, command) in s.desk.rows && Settled(s.desk.rows[ControlKey(task, command)].claim)
    requires s.desk.rows[ControlKey(task, command)].ControlRow?
    requires !Fenced(Step(s, e).desk.rows, task)
    ensures var key := ControlKey(task, command); key in Step(s, e).desk.rows && Step(s, e).desk.rows[key] == s.desk.rows[key]
  {
    var key := ControlKey(task, command);
    assert key[0] == "control";
    if e.Forget? && IsTaskId(e.task) {
      ForgetReaches(task, command, e.task);
      if Fenced(s.desk.rows, task) { FencesAreKept(s.desk.rows, e.task, task); }
    } else if e.Fence? {
      assert FenceKey(e.task)[0] == "deleted";
    } else if e.Fail? || e.Opened? || e.Sealed? || e.Finished? {
      CallKeepsSettled(s, e, task, command);
    }
  }

  lemma CallKeepsSettled(s: State, e: Event, task: string, command: Command)
    requires Inv(s, task, command) && (e.Fail? || e.Opened? || e.Sealed? || e.Finished?)
    requires ControlKey(task, command) in s.desk.rows && s.desk.rows[ControlKey(task, command)].ControlRow?
    requires Settled(s.desk.rows[ControlKey(task, command)].claim)
    requires !Fenced(Step(s, e).desk.rows, task)
    ensures var key := ControlKey(task, command); key in Step(s, e).desk.rows && Step(s, e).desk.rows[key] == s.desk.rows[key]
  {
    if e.id in s.frames {
      var f := s.frames[e.id];
      KeysDiffer(f.task, f.command, task, command);
      assert FenceKey(task)[0] != ControlKey(f.task, f.command)[0];
      if f.task == task && f.command == command {
        if !Fenced(s.desk.rows, task) { assert Holding(s.desk, f); }
      }
    }
  }

  // ---- what a claim on record says ----

  /** A finished action is recorded as completed, with its own fingerprint and exactly its result, unless its
      task is being deleted: fenced, nothing is recorded; a deletion only observed turns what an engine did
      into a refusal. */
  lemma FinishedExactly(s: State, id: Id, result: nat)
    requires id in s.frames && s.frames[id].phase.Dispatched? && IsTaskId(s.frames[id].task) && WellKeyed(s.desk.rows)
    ensures var f, s' := s.frames[id], Step(s, Finished(id, result));
      var key := ControlKey(f.task, f.command);
      && s'.frames == s.frames - {id} && s'.desk.effects == s.desk.effects && s'.desk.observed == s.desk.observed
      && (Fenced(s.desk.rows, f.task) ==> s'.desk.rows == s.desk.rows)
      && (!Fenced(s.desk.rows, f.task) && (f.task !in s.desk.observed || !f.kind.Engine?) ==>
            s'.desk.rows == s.desk.rows[key := ControlRow(Completed(f.fingerprint, result))])
      && (!Fenced(s.desk.rows, f.task) && f.task in s.desk.observed && f.kind.Engine? && key in s.desk.rows ==>
            s'.desk.rows[key] == if s.desk.rows[key].claim.Accepted? then ControlRow(Rejected(s.desk.rows[key].claim.fingerprint, TASK_DELETED))
                                 else s.desk.rows[key])
  {
    var f := s.frames[id];
    ControlKeyTask(f.task, f.command);
    SaveControl(s.desk, f.task, f.command, Completed(f.fingerprint, result));
    assert ControlKey(f.task, f.command)[0] == "control" && FenceKey(f.task)[0] == "deleted";
  }

  /** The result of a finished action is what its claim says for as long as the task lives. */
  lemma ResultIsRecorded(events: seq<Event>, id: Id, result: nat, after: seq<Event>)
    requires var s := Run(INITIAL, events);
      && id in s.frames && s.frames[id].phase.Dispatched? && Safe(s.frames[id].task, s.frames[id].command) && Live(s.desk, s.frames[id].task)
      && !Fenced(Run(Step(s, Finished(id, result)), after).desk.rows, s.frames[id].task)
    ensures var s := Run(INITIAL, events);
      var f, rows := s.frames[id], Run(Step(s, Finished(id, result)), after).desk.rows;
      ControlKey(f.task, f.command) in rows && rows[ControlKey(f.task, f.command)] == ControlRow(Completed(f.fingerprint, result))
  {
    var s := Run(INITIAL, events);
    var f := s.frames[id];
    FramesAreOfTasks(INITIAL, events);
    RunKeepsInv(INITIAL, events, f.task, f.command);
    FinishedExactly(s, id, result);
    StepKeepsInv(s, Finished(id, result), f.task, f.command);
    SettledThroughout(Step(s, Finished(id, result)), after, f.task, f.command);
  }

  lemma {:induction false} FramesAreOfTasks(s: State, events: seq<Event>)
    requires forall i :: i in s.frames ==> IsTaskId(s.frames[i].task)
    ensures forall i :: i in Run(s, events).frames ==> IsTaskId(Run(s, events).frames[i].task)
    decreases |events|
  {
    if events != [] { FramesAreOfTasks(Step(s, events[0]), events[1..]); }
  }

  /** A settled claim is the same at the end of any run in which the task still lives then. */
  lemma {:induction false} SettledThroughout(s: State, events: seq<Event>, task: string, command: Command)
    requires Inv(s, task, command) && IsTaskId(task) && Safe(task, command)
    requires ControlKey(task, command) in s.desk.rows && s.desk.rows[ControlKey(task, command)].ControlRow?
    requires Settled(s.desk.rows[ControlKey(task, command)].claim) && !Fenced(Run(s, events).desk.rows, task)
    ensures var key := ControlKey(task, command); key in Run(s, events).desk.rows && Run(s, events).desk.rows[key] == s.desk.rows[key]
    decreases |events|
  {
    if events != [] {
      var s' := Step(s, events[0]);
      if Fenced(s'.desk.rows, task) { NoEffectAfterFence(s', events[1..], task, command); }
      SettledStays(s, events[0], task, command);
      StepKeepsInv(s, events[0], task, command);
      SettledThroughout(s', events[1..], task, command);
    }
  }

  /** A call of this command, in this phase, that a stretch of code is about to run. */
  ghost predicate Runs(s: State, id: Id, task: string, command: Command, phase: Phase) {
    id in s.frames && s.frames[id].task == task && s.frames[id].command == command && s.frames[id].phase == phase
  }

  /** The step claims the command with this fingerprint: it had no claim and its task lives. */
  ghost predicate Claims(s: State, e: Event, task: string, command: Command, fingerprint: Fingerprint) {
    e.Opened? && Runs(s, e.id, task, command, Preparing) && s.frames[e.id].fingerprint == fingerprint
    && Live(s.desk, task) && ControlKey(task, command) !in s.desk.rows && command != [""]
  }

  /** The step is the end of the action of this command, dispatched under this fingerprint, with this result. */
  ghost predicate Finishes(s: State, e: Event, task: string, command: Command, fingerprint: Fingerprint, result: nat) {
    e.Finished? && e.result == result && Runs(s, e.id, task, command, Dispatched) && s.frames[e.id].fingerprint == fingerprint
  }

  /** The step refuses the command for this reason. */
  ghost predicate Refuses(s: State, e: Event, task: string, command: Command, code: Code) {
    match e
    case Fail(id, c) => id in s.frames && Runs(s, id, task, command, s.frames[id].phase) && c == Some(code)
    case Opened(id, invalid) =>
      Runs(s, id, task, command, Preparing)
      && (invalid == Some(code) || (code == TASK_DELETED && !Live(s.desk, task))
          || (code == COMMAND_ID_CONFLICT && ControlKey(task, command) in s.desk.rows && s.desk.rows[ControlKey(task, command)].ControlRow?
              && s.desk.rows[ControlKey(task, command)].claim.fingerprint != s.frames[id].fingerprint))
    case Sealed(id) => Runs(s, id, task, command, Claimed) && code == TASK_DELETED && !Live(s.desk, task)
    case Finished(id, _) => Runs(s, id, task, command, Dispatched) && code == TASK_DELETED && !Live(s.desk, task)
    case _ => false
  }

  ghost predicate ClaimedBefore(events: seq<Event>, task: string, command: Command, fingerprint: Fingerprint) {
    exists k :: 0 <= k < |events| && Claims(Run(INITIAL, events[..k]), events[k], task, command, fingerprint)
  }

  ghost predicate FinishedBefore(events: seq<Event>, task: string, command: Command, fingerprint: Fingerprint, result: nat) {
    exists k :: 0 <= k < |events| && Finishes(Run(INITIAL, events[..k]), events[k], task, command, fingerprint, result)
  }

  ghost predicate RefusedBefore(events: seq<Event>, task: string, command: Command, code: Code) {
    exists k :: 0 <= k < |events| && Refuses(Run(INITIAL, events[..k]), events[k], task, command, code)
  }

  /** What is on record about a command happened: the claim was made, the result was returned by its action,
      the refusal was given. */
  ghost predicate Happened(events: seq<Event>, task: string, command: Command, claim: Claim) {
    match claim
    case Accepted(fingerprint) => ClaimedBefore(events, task, command, fingerprint)
    case Completed(fingerprint, result) => FinishedBefore(events, task, command, fingerprint, result)
    case Rejected(fingerprint, code) => ClaimedBefore(events, task, command, fingerprint) && RefusedBefore(events, task, command, code)
  }

  lemma StillHappened(events: seq<Event>, e: Event, task: string, command: Command, claim: Claim)
    requires Happened(events, task, command, claim)
    ensures Happened(events + [e], task, command, claim)
  {
    if !claim.Completed? { StillClaimed(events, e, task, command, claim.fingerprint); }
    if claim.Completed? {
      var k :| 0 <= k < |events| && Finishes(Run(INITIAL, events[..k]), events[k], task, command, claim.fingerprint, claim.result);
      assert (events + [e])[..k] == events[..k] && (events + [e])[k] == events[k];
    }
    if claim.Rejected? {
      var k :| 0 <= k < |events| && Refuses(Run(INITIAL, events[..k]), events[k], task, command, claim.code);
      assert (events + [e])[..k] == events[..k] && (events + [e])[k] == events[k];
    }
  }

  lemma StillClaimed(events: seq<Event>, e: Event, task: string, command: Command, fingerprint: Fingerprint)
    requires ClaimedBefore(events, task, command, fingerprint)
    ensures ClaimedBefore(events + [e], task, command, fingerprint)
  {
    var k :| 0 <= k < |events| && Claims(Run(INITIAL, events[..k]), events[k], task, command, fingerprint);
    assert (events + [e])[..k] == events[..k] && (events + [e])[k] == events[k];
  }

  /** What one step does to the claim of a command. */
  lemma ClaimMoves(s: State, e: Event, task: string, command: Command)
    requires WellKeyed(s.desk.rows) && IsTaskId(task) && (forall i :: i in s.frames ==> IsTaskId(s.frames[i].task))
    requires ControlKey(task, command) in Step(s, e).desk.rows && Step(s, e).desk.rows[ControlKey(task, command)].ControlRow?
    ensures var key := ControlKey(task, command);
      var now := Step(s, e).desk.rows[key].claim;
      || (key in s.desk.rows && s.desk.rows[key] == ControlRow(now))
      || (now.Accepted? && Claims(s, e, task, command, now.fingerprint))
      || (now.Completed? && Finishes(s, e, task, command, now.fingerprint, now.result))
      || (now.Rejected? && Refuses(s, e, task, command, now.code)
          && ((key in s.desk.rows && s.desk.rows[key] == ControlRow(Accepted(now.fingerprint))) || Claims(s, e, task, command, now.fingerprint)))
  {
    var key := ControlKey(task, command);
    assert key[0] == "control";
    if e.Fail? || e.Opened? || e.Sealed? || e.Finished? {
      if e.id in s.frames { KeysDiffer(task, command, s.frames[e.id].task, s.frames[e.id].command); }
    } else if e.Fence? {
      assert FenceKey(e.task)[0] == "deleted";
    }
  }

  lemma StepKeepsKeys(s: State, e: Event)
    requires WellKeyed(s.desk.rows) && (forall i :: i in s.frames ==> IsTaskId(s.frames[i].task))
    ensures WellKeyed(Step(s, e).desk.rows)
  {
    match e
    case Fence(task) => assert FenceKey(task)[0] == "deleted";
    case Fail(id, _) => CallKeepsKeys(s, e);
    case Opened(id, _) => CallKeepsKeys(s, e);
    case Sealed(id) => CallKeepsKeys(s, e);
    case Finished(id, _) => CallKeepsKeys(s, e);
    case _ =>
  }

  lemma CallKeepsKeys(s: State, e: Event)
    requires WellKeyed(s.desk.rows) && (e.Fail? || e.Opened? || e.Sealed? || e.Finished?)
    ensures WellKeyed(Step(s, e).desk.rows)
  {
    if e.id in s.frames { assert ControlKey(s.frames[e.id].task, s.frames[e.id].command)[0] == "control"; }
  }

  /** Every claim on record says what happened: an accepted one was made by a call of this command when it had
      none, a completed one holds the result its own action returned, a rejected one the reason of a refusal. */
  lemma {:induction false} RecordsAreTrue(events: seq<Event>, task: string, command: Command)
    requires IsTaskId(task)
    ensures var s := Run(INITIAL, events);
      && WellKeyed(s.desk.rows) && (forall i :: i in s.frames ==> IsTaskId(s.frames[i].task))
      && var key := ControlKey(task, command);
         (key in s.desk.rows && s.desk.rows[key].ControlRow? ==> Happened(events, task, command, s.desk.rows[key].claim))
    decreases |events|
  {
    if events != [] {
      var n := |events| - 1;
      RecordsAreTrue(events[..n], task, command);
      RecordStaysTrue(events[..n], events[n], task, command);
      assert events[..n] + [events[n]] == events;
    }
  }

  lemma RecordStaysTrue(events: seq<Event>, e: Event, task: string, command: Command)
    requires IsTaskId(task)
    requires var s := Run(INITIAL, events);
      && WellKeyed(s.desk.rows) && (forall i :: i in s.frames ==> IsTaskId(s.frames[i].task))
      && var key := ControlKey(task, command);
         (key in s.desk.rows && s.desk.rows[key].ControlRow? ==> Happened(events, task, command, s.desk.rows[key].claim))
    ensures var s := Run(INITIAL, events + [e]);
      && WellKeyed(s.desk.rows) && (forall i :: i in s.frames ==> IsTaskId(s.frames[i].task))
      && var key := ControlKey(task, command);
         (key in s.desk.rows && s.desk.rows[key].ControlRow? ==> Happened(events + [e], task, command, s.desk.rows[key].claim))
  {
    var s, key := Run(INITIAL, events), ControlKey(task, command);
    var s' := Step(s, e);
    RunAppend(INITIAL, events, [e]);
    RunOne(s, e);
    StepKeepsKeys(s, e);
    if key in s'.desk.rows && s'.desk.rows[key].ControlRow? {
      ClaimMoves(s, e, task, command);
      MovedHappened(events, e, task, command, s, s'.desk.rows[key].claim);
    }
  }

  lemma RunOne(s: State, e: Event)
    ensures Run(s, [e]) == Step(s, e)
  {
    assert [e][1..] == [];
  }

  lemma MovedHappened(events: seq<Event>, e: Event, task: string, command: Command, s: State, now: Claim)
    requires s == Run(INITIAL, events)
    requires var key := ControlKey(task, command); key in s.desk.rows && s.desk.rows[key].ControlRow? ==> Happened(events, task, command, s.desk.rows[key].claim)
    requires var key := ControlKey(task, command);
      || (key in s.desk.rows && s.desk.rows[key] == ControlRow(now))
      || (now.Accepted? && Claims(s, e, task, command, now.fingerprint))
      || (now.Completed? && Finishes(s, e, task, command, now.fingerprint, now.result))
      || (now.Rejected? && Refuses(s, e, task, command, now.code)
          && ((key in s.desk.rows && s.desk.rows[key] == ControlRow(Accepted(now.fingerprint))) || Claims(s, e, task, command, now.fingerprint)))
    ensures Happened(events + [e], task, command, now)
  {
    var key, all := ControlKey(task, command), events + [e];
    assert all[..|events|] == events && all[|events|] == e;
    if key in s.desk.rows && s.desk.rows[key] == ControlRow(now) {
      StillHappened(events, e, task, command, now);
    } else if now.Rejected? {
      if Claims(s, e, task, command, now.fingerprint) {
        assert ClaimedBefore(all, task, command, now.fingerprint);
      } else {
        StillClaimed(events, e, task, command, now.fingerprint);
      }
      assert RefusedBefore(all, task, command, now.code);
    }
  }

  /** Nothing takes effect before its claim is durable: at the very step that dispatches an action, the claim
      of its command, with its fingerprint, is accepted on record and the task lives. */
  lemma ClaimedBeforeEffect(events: seq<Event>, e: Event, task: string, command: Command)
    requires IsTaskId(task) && Safe(task, command)
    requires var s := Run(INITIAL, events); Dispatches(Step(s, e).desk.effects, task, command) != Dispatches(s.desk.effects, task, command)
    ensures var s, d := Run(INITIAL, events), Step(Run(INITIAL, events), e).desk;
      && (e.Opened? || e.Sealed?) && e.id in s.frames && s.frames[e.id].task == task && s.frames[e.id].command == command
      && d.effects == s.desk.effects + [Effect(task, command, s.frames[e.id].fingerprint)]
      && Live(s.desk, task) && ControlKey(task, command) in d.rows
      && d.rows[ControlKey(task, command)] == ControlRow(Accepted(s.frames[e.id].fingerprint))
  {
    var s := Run(INITIAL, events);
    RunKeepsInv(INITIAL, events, task, command);
    OwnDispatch(s, e, task, command);
    if e.Opened? {
      OpenedDispatches(s, e.id, e.invalid);
    } else {
      assert s.frames[e.id].phase == Claimed;
      SealedDispatches(s, e.id, task, command);
    }
  }

  /** Only two stretches of code dispatch, and only their own call's command. */
  lemma OwnDispatch(s: State, e: Event, task: string, command: Command)
    requires Dispatches(Step(s, e).desk.effects, task, command) != Dispatches(s.desk.effects, task, command)
    ensures (e.Opened? || e.Sealed?) && e.id in s.frames && s.frames[e.id].task == task && s.frames[e.id].command == command
    ensures Step(s, e).desk.effects == s.desk.effects + [Effect(task, command, s.frames[e.id].fingerprint)]
  {
    if (e.Opened? || e.Sealed?) && e.id in s.frames {
      var f := s.frames[e.id];
      OthersDispatch(s.desk.effects, Effect(f.task, f.command, f.fingerprint), task, command);
    }
  }

  lemma SealedDispatches(s: State, id: Id, task: string, command: Command)
    requires Inv(s, task, command) && Runs(s, id, task, command, Claimed)
    ensures var f, d := s.frames[id], Step(s, Sealed(id)).desk;
      d.effects != s.desk.effects ==>
        && Live(s.desk, f.task) && ControlKey(f.task, f.command) in d.rows
        && d.rows[ControlKey(f.task, f.command)] == ControlRow(Accepted(f.fingerprint))
  {
    if !Fenced(s.desk.rows, task) { assert Holding(s.desk, s.frames[id]); }
  }

  lemma OpenedDispatches(s: State, id: Id, invalid: Option<Code>)
    requires id in s.frames && IsTaskId(s.frames[id].task) && WellKeyed(s.desk.rows)
    ensures var f, d := s.frames[id], Step(s, Opened(id, invalid)).desk;
      d.effects != s.desk.effects ==>
        && Live(s.desk, f.task) && ControlKey(f.task, f.command) in d.rows
        && d.rows[ControlKey(f.task, f.command)] == ControlRow(Accepted(f.fingerprint))
  {
    SaveControl(s.desk, s.frames[id].task, s.frames[id].command, Accepted(s.frames[id].fingerprint));
  }

  /** A call that fails is over. A coded refusal settles a claim that is still open, with that code; any other
      failure leaves it open, so that a retry cannot run the action again. */
  lemma FailuresSettle(s: State, id: Id, code: Option<Code>)
    requires id in s.frames && IsTaskId(s.frames[id].task) && WellKeyed(s.desk.rows)
    ensures var f, s' := s.frames[id], Step(s, Fail(id, code));
      var key := ControlKey(f.task, f.command);
      var open := key in s.desk.rows && s.desk.rows[key].ControlRow? && s.desk.rows[key].claim.Accepted? && !Fenced(s.desk.rows, f.task);
      && s'.frames == s.frames - {id} && s'.desk == s.desk.(rows := s'.desk.rows)
      && s'.desk.rows == (if code.Some? && open then s.desk.rows[key := ControlRow(Rejected(s.desk.rows[key].claim.fingerprint, code.value))]
                          else s.desk.rows)
  {
    ControlKeyTask(s.frames[id].task, s.frames[id].command);
    assert ControlKey(s.frames[id].task, s.frames[id].command)[0] == "control";
  }

  /** A deletion that was read ends the life of its task until the process does, and one that was saved for
      good; forgetting then leaves, of what names the task, the fence alone, and everything else as it was. */
  lemma DeletionTakesHold(s: State, task: string)
    requires IsTaskId(task)
    ensures !Live(Step(s, Observe(task)).desk, task)
    ensures var f := Step(s, Fence(task));
      && Fenced(f.desk.rows, task) && f.desk.effects == s.desk.effects
      && (forall k :: k != FenceKey(task) ==> (k in f.desk.rows <==> k in s.desk.rows))
      && (forall k :: k != FenceKey(task) && k in s.desk.rows ==> f.desk.rows[k] == s.desk.rows[k])
      && var g := Step(f, Forget(task));
         && g.desk == f.desk.(rows := g.desk.rows) && Fenced(g.desk.rows, task)
         && (forall k :: k in g.desk.rows <==> k in f.desk.rows && (k == FenceKey(task) || !Mentions(k, task)))
         && (forall k :: k in g.desk.rows ==> g.desk.rows[k] == f.desk.rows[k])
  {
    FenceKeyTask(task);
  }

  // ---- a call that nothing disturbs ----

  /** A call from start to end with nothing in between. */
  function CallThrough(s: State, id: Id, f: Frame, invalid: Option<Code>, result: nat): State {
    Step(Step(Step(Step(s, Call(id, f.task, f.command, f.fingerprint, f.kind)), Opened(id, invalid)), Sealed(id)), Finished(id, result))
  }

  predicate IsNew(d: Desk, f: Frame) { Live(d, f.task) && ControlKey(f.task, f.command) !in d.rows && f.command != [""] }

  /** A call of a command that is new, with a valid payload, takes effect once and is recorded with its result;
      an invalid payload leaves a refused claim and no effect. */
  lemma NewCallRuns(s: State, id: Id, f: Frame, invalid: Option<Code>, result: nat)
    requires WellKeyed(s.desk.rows) && IsTaskId(f.task) && f.command != [] && f.phase.Preparing? && id !in s.frames
    requires (forall i :: i in s.frames ==> s.frames[i].task != f.task) && IsNew(s.desk, f)
    ensures var s', key := CallThrough(s, id, f, invalid, result), ControlKey(f.task, f.command);
      && s'.frames == s.frames
      && s'.desk == if invalid.None?
                    then Desk(s.desk.rows[key := ControlRow(Completed(f.fingerprint, result))], s.desk.observed,
                              s.desk.effects + [Effect(f.task, f.command, f.fingerprint)])
                    else s.desk.(rows := s.desk.rows[key := ControlRow(Rejected(f.fingerprint, invalid.value))])
  {
    var s1 := Step(s, Call(id, f.task, f.command, f.fingerprint, f.kind));
    assert s1 == s.(frames := s.frames[id := f]);
    Claiming(s, f);
    var key := ControlKey(f.task, f.command);
    var claimed := s.desk.(rows := s.desk.rows[key := ControlRow(Accepted(f.fingerprint))]);
    var s2 := Step(s1, Opened(id, invalid));
    if invalid.None? {
      var s3 := Step(s2, Sealed(id));
      assert s3 == State(Dispatching(claimed, f), s.frames[id := f.(phase := Dispatched)]);
    } else {
      assert s2.frames == s.frames;
    }
  }

  /** Any other call takes no effect. At most it closes a claim that was still open: as deleted if the task is
      known to be, as a conflict if this is another request. */
  lemma OtherCallsDoNothing(s: State, id: Id, f: Frame, invalid: Option<Code>, result: nat)
    requires WellKeyed(s.desk.rows) && IsTaskId(f.task) && f.command != [] && f.phase.Preparing? && id !in s.frames
    requires (forall i :: i in s.frames ==> s.frames[i].task != f.task) && !IsNew(s.desk, f)
    ensures var s', key := CallThrough(s, id, f, invalid, result), ControlKey(f.task, f.command);
      var open := key in s.desk.rows && s.desk.rows[key].ControlRow? && s.desk.rows[key].claim.Accepted? && !Fenced(s.desk.rows, f.task);
      && s'.frames == s.frames && s'.desk == s.desk.(rows := s'.desk.rows)
      && (open && f.task in s.desk.observed ==>
            s'.desk.rows == s.desk.rows[key := ControlRow(Rejected(s.desk.rows[key].claim.fingerprint, TASK_DELETED))])
      && (open && f.task !in s.desk.observed && s.desk.rows[key].claim.fingerprint != f.fingerprint ==>
            s'.desk.rows == s.desk.rows[key := ControlRow(Rejected(s.desk.rows[key].claim.fingerprint, COMMAND_ID_CONFLICT))])
      && (!open || (f.task !in s.desk.observed && s.desk.rows[key].claim.fingerprint == f.fingerprint) ==> s'.desk.rows == s.desk.rows)
  {
    var key := ControlKey(f.task, f.command);
    assert key[0] == "control";
    ControlKeyTask(f.task, f.command);
    var s1 := Step(s, Call(id, f.task, f.command, f.fingerprint, f.kind));
    assert s1 == s.(frames := s.frames[id := f]);
    var s2 := Step(s1, Opened(id, invalid));
    assert s2.frames == s.frames;
  }

  lemma Claiming(s: State, f: Frame)
    requires WellKeyed(s.desk.rows) && IsTaskId(f.task) && !Fenced(s.desk.rows, f.task)
    ensures var key := ControlKey(f.task, f.command);
      && TaskOf(key) == Some(f.task) && MaySave(s.desk.rows, key)
      && var rows := s.desk.rows[key := ControlRow(Accepted(f.fingerprint))]; MaySave(rows, key) && !Fenced(rows, f.task)
  {
    var key := ControlKey(f.task, f.command);
    ControlKeyTask(f.task, f.command);
    assert key[0] == "control" && FenceKey(f.task)[0] == "deleted";
  }

  // ---- after the fence ----

  /** Once a task is fenced nothing of it takes effect or is saved again, and the fence stays. */
  lemma FenceHolds(s: State, e: Event, task: string)
    requires IsTaskId(task) && Fenced(s.desk.rows, task)
    ensures var s' := Step(s, e);
      && Fenced(s'.desk.rows, task)
      && (s'.desk.effects == s.desk.effects || s'.desk.effects[|s'.desk.effects| - 1].task != task)
      && (forall k :: k in s'.desk.rows && TaskOf(k) == Some(task) && k != FenceKey(task) ==> k in s.desk.rows && s'.desk.rows[k] == s.desk.rows[k])
  {
    FenceKeyTask(task);
    match e
    case Forget(t) => FencesAreKept(s.desk.rows, t, task);
    case Fence(t) => if IsTaskId(t) { FenceKeyTask(t); }
    case SaveOther(key, _) => if key != [] && key[0] != "deleted" { assert FenceKey(task)[0] == "deleted"; }
    case Fail(id, _) => CallRespectsFence(s, e, task);
    case Opened(id, _) => CallRespectsFence(s, e, task);
    case Sealed(id) => CallRespectsFence(s, e, task);
    case Finished(id, _) => CallRespectsFence(s, e, task);
    case _ =>
  }

  lemma CallRespectsFence(s: State, e: Event, task: string)
    requires IsTaskId(task) && Fenced(s.desk.rows, task) && (e.Fail? || e.Opened? || e.Sealed? || e.Finished?)
    ensures var s' := Step(s, e);
      && Fenced(s'.desk.rows, task)
      && (s'.desk.effects == s.desk.effects || s'.desk.effects[|s'.desk.effects| - 1].task != task)
      && (forall k :: k in s'.desk.rows && TaskOf(k) == Some(task) && k != FenceKey(task) ==> k in s.desk.rows && s'.desk.rows[k] == s.desk.rows[k])
  {
    if e.id in s.frames {
      var f := s.frames[e.id];
      assert ControlKey(f.task, f.command)[0] != FenceKey(task)[0];
    }
  }

  /** No run after the fence adds an effect of the fenced task. */
  lemma {:induction false} NoEffectAfterFence(s: State, events: seq<Event>, task: string, command: Command)
    requires IsTaskId(task) && Fenced(s.desk.rows, task)
    ensures Fenced(Run(s, events).desk.rows, task)
    ensures Dispatches(Run(s, events).desk.effects, task, command) == Dispatches(s.desk.effects, task, command)
    decreases |events|
  {
    if events != [] {
      var s' := Step(s, events[0]);
      FenceHolds(s, events[0], task);
      EffectsGrowByOne(s, events[0]);
      if s'.desk.effects != s.desk.effects { OthersDispatch(s.desk.effects, s'.desk.effects[|s.desk.effects|], task, command); }
      NoEffectAfterFence(s', events[1..], task, command);
    }
  }

  lemma EffectsGrowByOne(s: State, e: Event)
    ensures var d' := Step(s, e).desk;
      d'.effects == s.desk.effects || (|d'.effects| == |s.desk.effects| + 1 && d'.effects == s.desk.effects + [d'.effects[|s.desk.effects|]])
  {
  }

  // ---- the durable table and the calls over it ----

  class EncryptedTaskState {
    var rows: Table
    var observed: set<string>
    ghost var effects: seq<Effect>

    ghost function Fields(): Desk
      reads this
    {
      Desk(rows, observed, effects)
    }

    constructor ()
      ensures Fields() == INITIAL.desk
    {
      rows, observed, effects := map[], {}, [];
    }

    method Save(key: Key, row: Row) returns (ok: bool)
      modifies this`rows
      ensures rows == Saved(old(rows), key, row) && ok == MaySave(old(rows), key)
    {
      var task := TaskOf(key);
      if task.Some? && key != FenceKey(task.value) && FenceKey(task.value) in rows { return false; }
      rows := rows[key := row];
      ok := true;
    }

    /** All the writes or, if any is refused, none of them. */
    method SaveMany(entries: seq<(Key, Row)>) returns (ok: bool)
      modifies this`rows
      ensures ok <==> forall k :: 0 <= k < |entries| ==> MaySave(SavedAll(old(rows), entries[..k]), entries[k].0)
      ensures rows == if ok then SavedAll(old(rows), entries) else old(rows)
    {
      var before := rows;
      for i := 0 to |entries|
        invariant rows == SavedAll(before, entries[..i])
        invariant forall k :: 0 <= k < i ==> MaySave(SavedAll(before, entries[..k]), entries[k].0)
      {
        assert entries[..i + 1][..i] == entries[..i];
        var saved := Save(entries[i].0, entries[i].1);
        if !saved {
          rows := before;
          return false;
        }
      }
      assert entries[..|entries|] == entries;
      ok := true;
    }

    method ForgetTask(task: string)
      requires IsTaskId(task)
      modifies this`rows
      ensures rows == Forgotten(old(rows), task)
    {
      var before := rows;
      var keys := rows.Keys;
      while keys != {}
        invariant keys <= before.Keys
        invariant rows == map k | k in before && (k in keys || k == FenceKey(task) || !Mentions(k, task)) :: before[k]
        decreases keys
      {
        var key :| key in keys;
        if key != FenceKey(task) && Mentions(key, task) { rows := rows - {key}; }
        keys := keys - {key};
      }
    }

    method Refuse(f: Frame, code: Option<Code>)
      modifies this`rows
      ensures Turn(Fields(), None) == Refused(old(Fields()), f, code)
    {
      var key := ControlKey(f.task, f.command);
      if code.Some? && key in rows && rows[key].ControlRow? && rows[key].claim.Accepted? {
        var _ := Save(key, ControlRow(Rejected(rows[key].claim.fingerprint, code.value)));
      }
    }

    method ApplyOpened(f: Frame, invalid: Option<Code>) returns (next: Option<Frame>)
      modifies this`rows, this`effects
      ensures Turn(Fields(), next) == OnOpened(old(Fields()), f, invalid)
    {
      var key := ControlKey(f.task, f.command);
      next := None;
      if FenceKey(f.task) in rows || f.task in observed {
        Refuse(f, Some(TASK_DELETED));
      } else if key in rows && rows[key].ControlRow? {
        if rows[key].claim.fingerprint != f.fingerprint { Refuse(f, Some(COMMAND_ID_CONFLICT)); }
      } else if f.command == [""] {
        Refuse(f, Some(INVALID_COMMAND_ID));
      } else {
        var _ := Save(key, ControlRow(Accepted(f.fingerprint)));
        if invalid.Some? {
          Refuse(f, invalid);
        } else if f.kind.History? {
          next := Some(f.(phase := Claimed));
        } else {
          effects := effects + [Effect(f.task, f.command, f.fingerprint)];
          next := Some(f.(phase := Dispatched));
        }
      }
    }

    method HistorySealed(f: Frame) returns (next: Option<Frame>)
      modifies this`rows, this`effects
      ensures Turn(Fields(), next) == OnSealed(old(Fields()), f)
    {
      if FenceKey(f.task) in rows || f.task in observed {
        Refuse(f, Some(TASK_DELETED));
        return None;
      }
      effects := effects + [Effect(f.task, f.command, f.fingerprint)];
      next := Some(f.(phase := Dispatched));
    }

    method ActionFinished(f: Frame, result: nat)
      modifies this`rows
      ensures Turn(Fields(), None) == OnFinished(old(Fields()), f, result)
    {
      if f.kind.Engine? && (FenceKey(f.task) in rows || f.task in observed) {
        Refuse(f, Some(TASK_DELETED));
      } else {
        var saved := Save(ControlKey(f.task, f.command), ControlRow(Completed(f.fingerprint, result)));
        if !saved { Refuse(f, Some(TASK_DELETED)); }
      }
    }
  }

  function SavedAll(rows: Table, entries: seq<(Key, Row)>): Table {
    if entries == [] then rows
    else Saved(SavedAll(rows, entries[..|entries| - 1]), entries[|entries| - 1].0, entries[|entries| - 1].1)
  }
}
