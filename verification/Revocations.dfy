/** packages/runtime/encrypted-host.js (applyRevocations, queueKeyShare, shareTaskKeys): once the host
    acknowledges a removal, no live task room's current session key is held by the removed device.

    Activations of applyRevocations overlap; every await is a place where another step may come between,
    and a crash keeps only what the host has saved, of which the membership floor may be anything.
    Positions in the team's log stand for its heads. A head is adopted after a fresh proof only if it covers
    the team's log as it stood when the proof was asked for (FreshHost.ReturnCoversTheTruth), and within a
    process never one behind what was read (FreshHost.ObservedOnlyExtends). */
module Revocations {
  import opened Wrappers

  type Room = nat
  type Device = nat
  type ActivationId = nat

  /** The device removed by record `n`, if it removes one, and whether a device is verified at head `n`.
      `grants` are the records that only take a project grant away: they too are listed as revocations. */
  datatype Log = Log(removes: nat -> Option<Device>, grants: nat -> bool, verified: (Device, nat) -> bool)

  /** A removed device is not verified at any later head (SignedLog.RevokedForever). */
  ghost predicate RemovalLasts(log: Log) {
    forall r, d, n :: log.removes(r) == Some(d) && r <= n ==> !log.verified(d, n)
  }

  predicate IsRevocation(log: Log, n: nat) { log.removes(n).Some? || log.grants(n) }

  /** `current.revocations.filter(r => r.seq > through)` at head `head`. */
  function Pending(log: Log, through: nat, head: nat): (p: seq<nat>)
    ensures forall r: nat :: r in p <==> through < r <= head && IsRevocation(log, r)
    decreases head
  {
    if head <= through then []
    else Pending(log, through, head - 1) + (if IsRevocation(log, head) then [head] else [])
  }

  datatype Marker = Marker(through: nat, acks: seq<nat>)

  /** Entered: the membership head is known. Loaded: the marker has been read. Rotated: every known room
      was rotated. Acking: the marker was saved with `all`, of which the first `done` are finished; `sent`
      when the acknowledgement of the next one has been accepted. */
  datatype Phase = Entered | Loaded(saved: Marker) | Rotated(saved: Marker) | Acking(all: seq<nat>, done: nat, sent: bool)

  datatype Act = Act(head: nat, hostOnly: bool, phase: Phase)

  /** What the key share queue is running. */
  datatype Job = Idle | Share(room: Room, members: set<Device>) | Rotation(id: ActivationId, todo: set<Room>)

  /** A history on its way to a device: the session it was exported from, and whether the last check of the
      recipient has passed. */
  datatype Handoff = Handoff(room: Room, device: Device, session: nat, cleared: bool)

  /** `truth`: how long the team's log is. `head`: the membership in memory. `observed`: the longest log this
      process has read. `asked`: how long the team's log was when the current challenge was issued.
      `sessions`: how often each room's session was thrown away. `held`: the pairs (room, device) for which
      the device holds the room's current session key. `acked`: the removals whose acknowledgement the relay
      accepted. */
  datatype Host = Host(
    truth: nat, head: nat, observed: nat, asked: Option<nat>, trusted: bool,
    marker: Marker, durable: set<Room>, deleted: set<Room>, sessions: map<Room, nat>, held: set<(Room, Device)>, acked: set<nat>,
    adapters: set<Room>, job: Job, handoffs: map<nat, Handoff>, acts: map<ActivationId, Act>)

  const INITIAL: Host := Host(0, 0, 0, None, false, Marker(0, []), {}, {}, map[], {}, {}, {}, Idle, map[], map[])

  datatype Event =
    | Grow
    | Read(head: nat)
    | Ask
    | Adopt(head: nat)
    | Disconnect
    | Enter(room: Room)
    | Record(room: Room)
    | Fence(room: Room)
    | Forget(room: Room)
    | Renew(room: Room)
    | Export(id: nat, room: Room, device: Device)
    | Clear(id: nat)
    | Deliver(id: nat)
    | StartShare(room: Room, members: set<Device>)
    | Handed(device: Device)
    | EndShare
    | Begin(id: ActivationId)
    | BeginRemoved(id: ActivationId, head: nat)
    | Load(id: ActivationId)
    | StartRotation(id: ActivationId, owned: set<Room>)
    | RotateRoom(room: Room)
    | EndRotation(id: ActivationId)
    | Save(id: ActivationId)
    | Acknowledge(id: ActivationId)
    | Finish(id: ActivationId)
    | Leave(id: ActivationId)
    | Crash

  // ---- the steps ----

  function Without(held: set<(Room, Device)>, room: Room): set<(Room, Device)> {
    set p | p in held && p.0 != room
  }

  predicate Admissible(log: Log, s: Host, members: set<Device>) {
    s.trusted && forall d :: d in members ==> log.verified(d, s.head)
  }

  function Count(sessions: map<Room, nat>, room: Room): nat { if room in sessions then sessions[room] else 0 }

  function Session(s: Host, room: Room): nat { Count(s.sessions, room) }

  /** The room's session is thrown away: nobody holds the next one yet. */
  function Fresh(s: Host, room: Room): Host {
    s.(held := Without(s.held, room), sessions := s.sessions[room := Session(s, room) + 1])
  }

  function OnLoad(log: Log, s: Host, id: ActivationId, a: Act): Host {
    if Pending(log, s.marker.through, a.head) == [] && s.marker.acks == [] then s.(acts := s.acts - {id})
    else s.(acts := s.acts[id := a.(phase := Loaded(s.marker))])
  }

  /** A history delivered after the session changed does not hold the current key. */
  function OnDeliver(s: Host, id: nat, h: Handoff): Host {
    s.(handoffs := s.handoffs - {id}, held := if h.session == Session(s, h.room) then s.held + {(h.room, h.device)} else s.held)
  }

  /** Rooms are collected when the queue reaches this work, not when it is queued. */
  function OnStartRotation(log: Log, s: Host, id: ActivationId, a: Act, owned: set<Room>): Host {
    if s.trusted || a.hostOnly then s.(job := Rotation(id, owned + s.durable + s.adapters))
    else s.(acts := s.acts - {id})
  }

  /** The marker is written from this activation's own snapshot, whatever others wrote since. */
  function OnSave(log: Log, s: Host, id: ActivationId, a: Act, saved: Marker): Host {
    var all := saved.acks + Pending(log, saved.through, a.head);
    s.(marker := Marker(a.head, all), acts := s.acts[id := a.(phase := Acking(all, 0, false))])
  }

  function OnAcknowledge(log: Log, s: Host, id: ActivationId, a: Act): Host
    requires a.phase.Acking? && a.phase.done < |a.phase.all|
  {
    var r := a.phase.all[a.phase.done];
    s.(acked := if log.removes(r).Some? then s.acked + {r} else s.acked, acts := s.acts[id := a.(phase := a.phase.(sent := true))])
  }

  function OnFinish(s: Host, id: ActivationId, a: Act): Host
    requires a.phase.Acking? && a.phase.done < |a.phase.all|
  {
    var done := a.phase.done + 1;
    s.(marker := Marker(a.head, a.phase.all[done..]), acts := s.acts[id := a.(phase := Acking(a.phase.all, done, false))])
  }

  predicate Enabled(log: Log, s: Host, e: Event) {
    match e
    case Read(head) => s.observed <= head <= s.truth
    case Adopt(head) => s.observed <= head <= s.truth && (s.trusted || (s.asked.Some? && head >= s.asked.value))
    case Record(room) => room !in s.deleted
    case Forget(room) => room in s.deleted
    case StartShare(room, members) => s.job == Idle && room in s.durable + s.deleted && Admissible(log, s, members)
    case Handed(device) => s.job.Share? && device in s.job.members
    case EndShare => s.job.Share?
    case Export(id, room, _) => id !in s.handoffs && room in s.durable + s.deleted
    case Clear(id) => id in s.handoffs && Admissible(log, s, {s.handoffs[id].device})
    case Deliver(id) => id in s.handoffs && s.handoffs[id].cleared
    case Begin(id) => id !in s.acts && s.trusted
    case BeginRemoved(id, head) => id !in s.acts && s.observed <= head <= s.truth
    case Load(id) => id in s.acts && s.acts[id].phase.Entered?
    case StartRotation(id, _) =>
      && s.job == Idle && id in s.acts && s.acts[id].phase.Loaded?
      && Pending(log, s.acts[id].phase.saved.through, s.acts[id].head) != []
    case RotateRoom(room) => s.job.Rotation? && room in s.job.todo
    case EndRotation(id) => s.job == Rotation(id, {}) && id in s.acts && s.acts[id].phase.Loaded?
    case Save(id) =>
      && id in s.acts
      && (s.acts[id].phase.Rotated? || (s.acts[id].phase.Loaded? && Pending(log, s.acts[id].phase.saved.through, s.acts[id].head) == []))
    case Acknowledge(id) => id in s.acts && s.acts[id].phase.Acking? && s.acts[id].phase.done < |s.acts[id].phase.all|
    case Finish(id) =>
      && id in s.acts && s.acts[id].phase.Acking? && s.acts[id].phase.done < |s.acts[id].phase.all|
      && (s.acts[id].phase.sent || log.removes(s.acts[id].phase.all[s.acts[id].phase.done]).None?)
    case Leave(id) => id in s.acts
    case _ => true
  }

  function Step(log: Log, s: Host, e: Event): Host
    requires Enabled(log, s, e)
  {
    match e
    case Grow => s.(truth := s.truth + 1)
    case Read(head) => s.(observed := head)
    case Ask => s.(asked := Some(s.truth), trusted := false)
    case Adopt(head) => s.(head := head, observed := head, trusted := true)
    case Disconnect => s.(trusted := false, asked := None)
    case Enter(room) => s.(adapters := s.adapters + {room})
    case Record(room) => s.(durable := s.durable + {room})
    case Fence(room) => s.(deleted := s.deleted + {room})
    case Forget(room) => Fresh(s, room).(durable := s.durable - {room}, adapters := s.adapters - {room})
    case Renew(room) => Fresh(s, room)
    case Export(id, room, device) => s.(handoffs := s.handoffs[id := Handoff(room, device, Session(s, room), false)])
    case Clear(id) => s.(handoffs := s.handoffs[id := s.handoffs[id].(cleared := true)])
    case Deliver(id) => OnDeliver(s, id, s.handoffs[id])
    case StartShare(room, members) => s.(job := Share(room, members))
    case Handed(device) => s.(held := s.held + {(s.job.room, device)})
    case EndShare => s.(job := Idle)
    case Begin(id) => s.(acts := s.acts[id := Act(s.head, false, Entered)])
    case BeginRemoved(id, head) => s.(head := head, observed := head, acts := s.acts[id := Act(head, true, Entered)])
    case Load(id) => OnLoad(log, s, id, s.acts[id])
    case StartRotation(id, owned) => OnStartRotation(log, s, id, s.acts[id], owned)
    case RotateRoom(room) => Fresh(s, room).(job := Rotation(s.job.id, s.job.todo - {room}))
    case EndRotation(id) => s.(job := Idle, acts := s.acts[id := s.acts[id].(phase := Rotated(s.acts[id].phase.saved))])
    case Save(id) => OnSave(log, s, id, s.acts[id], s.acts[id].phase.saved)
    case Acknowledge(id) => OnAcknowledge(log, s, id, s.acts[id])
    case Finish(id) => OnFinish(s, id, s.acts[id])
    case Leave(id) => s.(job := if s.job.Rotation? && s.job.id == id then Idle else s.job, acts := s.acts - {id})
    case Crash => s.(head := 0, observed := 0, asked := None, trusted := false, adapters := {}, job := Idle, handoffs := map[], acts := map[])
  }

  predicate Runs(log: Log, s: Host, events: seq<Event>)
    decreases |events|
  {
    events == [] || (Enabled(log, s, events[0]) && Runs(log, Step(log, s, events[0]), events[1..]))
  }

  function Run(log: Log, s: Host, events: seq<Event>): Host
    requires Runs(log, s, events)
    decreases |events|
  {
    if events == [] then s else Run(log, Step(log, s, events[0]), events[1..])
  }

  // ---- what every step keeps ----

  /** A device that holds a room's key, or is being handed it. */
  ghost predicate Reaches(s: Host, room: Room, d: Device) {
    || (room, d) in s.held || (s.job.Share? && s.job.room == room && d in s.job.members)
    || exists id :: id in s.handoffs && s.handoffs[id] == Handoff(room, d, Session(s, room), true)
  }

  /** No head is ever admitted from here on that falls short of this. */
  function Gate(s: Host): nat {
    if s.trusted then s.head else if s.asked.Some? then (if s.asked.value > s.observed then s.asked.value else s.observed) else s.truth
  }

  ghost predicate HeadsInv(s: Host) {
    && s.head <= s.truth && s.observed <= s.truth && (s.asked.Some? ==> s.asked.value <= s.truth)
    && (s.trusted ==> s.head <= s.observed)
  }

  /** The removal is behind every head still to come and no room outside `except` is open to the removed device. */
  ghost predicate LockedOut(log: Log, s: Host, r: nat, except: set<Room>) {
    && r <= Gate(s)
    && (log.removes(r).Some? ==> forall room :: Reaches(s, room, log.removes(r).value) ==> room in s.deleted + except)
  }

  ghost predicate AllLockedOut(log: Log, s: Host, rs: seq<nat>) {
    forall r :: r in rs ==> LockedOut(log, s, r, {})
  }

  /** No removal at or below `through` has been lost: acknowledged, or waiting to be. */
  ghost predicate Covered(log: Log, acked: set<nat>, through: nat, acks: seq<nat>) {
    forall r: nat :: 1 <= r <= through && log.removes(r).Some? ==> r in acked || r in acks
  }

  ghost predicate SnapshotInv(log: Log, s: Host, m: Marker) {
    Covered(log, s.acked, m.through, m.acks) && AllLockedOut(log, s, m.acks)
  }

  ghost predicate ActInv(log: Log, s: Host, a: Act) {
    && a.head <= Gate(s)
    && match a.phase
      case Entered => true
      case Loaded(saved) => SnapshotInv(log, s, saved)
      case Rotated(saved) => SnapshotInv(log, s, saved) && AllLockedOut(log, s, Pending(log, saved.through, a.head))
      case Acking(all, done, sent) =>
        && done <= |all| && Covered(log, s.acked, a.head, all[done..]) && AllLockedOut(log, s, all)
        && (sent ==> done < |all| && (log.removes(all[done]).Some? ==> all[done] in s.acked))
  }

  /** A running rotation has already shut the removed devices out of every room not still to do. */
  ghost predicate JobInv(log: Log, s: Host) {
    s.job.Rotation? ==>
      && s.job.id in s.acts && s.acts[s.job.id].phase.Loaded?
      && Pending(log, s.acts[s.job.id].phase.saved.through, s.acts[s.job.id].head) != []
      && forall r :: r in Pending(log, s.acts[s.job.id].phase.saved.through, s.acts[s.job.id].head) ==> LockedOut(log, s, r, s.job.todo)
  }

  ghost predicate RoomsKnown(s: Host) {
    forall room, d :: Reaches(s, room, d) ==> room in s.durable + s.deleted
  }

  ghost predicate HandoffsInv(s: Host) {
    forall id :: id in s.handoffs ==> s.handoffs[id].session <= Session(s, s.handoffs[id].room) && s.handoffs[id].room in s.durable + s.deleted
  }

  ghost predicate Inv(log: Log, s: Host) {
    && HeadsInv(s) && RoomsKnown(s) && HandoffsInv(s)
    && SnapshotInv(log, s, s.marker)
    && (forall r :: r in s.acked ==> LockedOut(log, s, r, {}))
    && (forall id :: id in s.acts ==> ActInv(log, s, s.acts[id]))
    && JobInv(log, s)
  }

  /** `s'` reaches no more devices than `s`, except those admitted at the current head. */
  ghost predicate Tighter(log: Log, s: Host, s': Host) {
    && Gate(s') >= Gate(s) && s'.acked >= s.acked && s'.deleted >= s.deleted
    && forall room, d :: Reaches(s', room, d) ==> Reaches(s, room, d) || (s.trusted && log.verified(d, s.head))
  }

  lemma StillLockedOut(log: Log, s: Host, s': Host, r: nat, except: set<Room>)
    requires RemovalLasts(log) && Tighter(log, s, s') && LockedOut(log, s, r, except)
    ensures LockedOut(log, s', r, except)
  {
    if log.removes(r).Some? {
      var d := log.removes(r).value;
      assert s.trusted ==> !log.verified(d, s.head);
      forall room | Reaches(s', room, d) ensures room in s'.deleted + except { assert Reaches(s, room, d); }
    }
  }

  lemma SnapshotKept(log: Log, s: Host, s': Host, m: Marker)
    requires RemovalLasts(log) && Tighter(log, s, s') && SnapshotInv(log, s, m)
    ensures SnapshotInv(log, s', m)
  {
    forall r | r in m.acks ensures LockedOut(log, s', r, {}) { StillLockedOut(log, s, s', r, {}); }
  }

  lemma AllKept(log: Log, s: Host, s': Host, rs: seq<nat>)
    requires RemovalLasts(log) && Tighter(log, s, s') && AllLockedOut(log, s, rs)
    ensures AllLockedOut(log, s', rs)
  {
    forall r | r in rs ensures LockedOut(log, s', r, {}) { StillLockedOut(log, s, s', r, {}); }
  }

  lemma ActKept(log: Log, s: Host, s': Host, a: Act)
    requires RemovalLasts(log) && Tighter(log, s, s') && ActInv(log, s, a)
    ensures ActInv(log, s', a)
  {
    match a.phase
    case Entered =>
    case Loaded(saved) => SnapshotKept(log, s, s', saved);
    case Rotated(saved) =>
      SnapshotKept(log, s, s', saved);
      AllKept(log, s, s', Pending(log, saved.through, a.head));
    case Acking(all, done, sent) => AllKept(log, s, s', all);
  }

  /** A step that only tightens keeps every clause about removals the step itself does not touch. */
  lemma TighterKeeps(log: Log, s: Host, s': Host)
    requires RemovalLasts(log) && Inv(log, s) && Tighter(log, s, s')
    ensures SnapshotInv(log, s', s.marker)
    ensures forall r :: r in s.acked ==> LockedOut(log, s', r, {})
    ensures forall id :: id in s.acts ==> ActInv(log, s', s.acts[id])
  {
    SnapshotKept(log, s, s', s.marker);
    forall r | r in s.acked ensures LockedOut(log, s', r, {}) { StillLockedOut(log, s, s', r, {}); }
    forall id | id in s.acts ensures ActInv(log, s', s.acts[id]) { ActKept(log, s, s', s.acts[id]); }
  }

  lemma JobKept(log: Log, s: Host, s': Host)
    requires RemovalLasts(log) && JobInv(log, s) && Tighter(log, s, s') && s'.job == s.job
    requires s.job.Rotation? ==> s.job.id in s'.acts && s'.acts[s.job.id] == s.acts[s.job.id]
    ensures JobInv(log, s')
  {
    if s.job.Rotation? {
      var a := s.acts[s.job.id];
      forall r | r in Pending(log, a.phase.saved.through, a.head) ensures LockedOut(log, s', r, s.job.todo) {
        StillLockedOut(log, s, s', r, s.job.todo);
      }
    }
  }

  lemma FreshTightens(s: Host, room: Room)
    requires HandoffsInv(s)
    ensures forall x, d :: Reaches(Fresh(s, room), x, d) ==> (x != room && Reaches(s, x, d)) || (s.job.Share? && s.job.room == x && d in s.job.members)
  {
    var s' := Fresh(s, room);
    forall x, d | Reaches(s', x, d) && !(s.job.Share? && s.job.room == x && d in s.job.members) ensures x != room && Reaches(s, x, d) {
      if (x, d) !in s'.held {
        var id :| id in s'.handoffs && s'.handoffs[id] == Handoff(x, d, Session(s', x), true);
        assert s.handoffs[id] == s'.handoffs[id];
      }
    }
  }

  lemma HandoffTightens(log: Log, s: Host, e: Event)
    requires HandoffsInv(s) && Enabled(log, s, e) && (e.Export? || e.Clear? || e.Deliver?)
    ensures Tighter(log, s, Step(log, s, e))
  {
    var s' := Step(log, s, e);
    forall room: Room, d: Device | Reaches(s', room, d) ensures Reaches(s, room, d) || (s.trusted && log.verified(d, s.head)) {
      if exists id :: id in s'.handoffs && s'.handoffs[id] == Handoff(room, d, Session(s', room), true) {
        var id :| id in s'.handoffs && s'.handoffs[id] == Handoff(room, d, Session(s', room), true);
        assert id in s.handoffs && (s.handoffs[id] == s'.handoffs[id] || e == Clear(id));
      } else if (room, d) in s'.held && (room, d) !in s.held {
        assert s.handoffs[e.id] == Handoff(room, d, Session(s, room), true);
      }
    }
  }

  /** The same handoffs, sessions and keys, and the same job or none. */
  lemma QuietTightens(log: Log, s: Host, s': Host)
    requires (s'.handoffs, s'.sessions) == (s.handoffs, s.sessions) && s'.held <= s.held
    requires s'.job == s.job || !s'.job.Share?
    requires Gate(s') >= Gate(s) && s'.acked >= s.acked && s'.deleted >= s.deleted
    ensures Tighter(log, s, s')
  {
    forall room: Room, d: Device | Reaches(s', room, d) ensures Reaches(s, room, d) {
      assert Session(s', room) == Session(s, room);
    }
  }

  lemma ShareTightens(log: Log, s: Host, e: Event)
    requires Enabled(log, s, e) && (e.StartShare? || e.Handed?)
    ensures Tighter(log, s, Step(log, s, e))
  {
    var s' := Step(log, s, e);
    forall room: Room, d: Device | Reaches(s', room, d) ensures Reaches(s, room, d) || (s.trusted && log.verified(d, s.head)) {
      assert Session(s', room) == Session(s, room);
    }
  }

  lemma StepTightens(log: Log, s: Host, e: Event)
    requires Enabled(log, s, e) && HeadsInv(s) && HandoffsInv(s)
    ensures Tighter(log, s, Step(log, s, e))
  {
    var s' := Step(log, s, e);
    match e
    case Export(_, _, _) => HandoffTightens(log, s, e);
    case Clear(_) => HandoffTightens(log, s, e);
    case Deliver(_) => HandoffTightens(log, s, e);
    case StartShare(_, _) => ShareTightens(log, s, e);
    case Handed(_) => ShareTightens(log, s, e);
    case Forget(room) =>
      FreshTightens(s, room);
      QuietTightens(log, Fresh(s, room), s');
    case Renew(room) => FreshTightens(s, room);
    case RotateRoom(room) =>
      FreshTightens(s, room);
      QuietTightens(log, Fresh(s, room), s');
    case Crash => CrashTightens(log, s);
    case _ => QuietTightens(log, s, s');
  }

  lemma CrashTightens(log: Log, s: Host)
    requires HeadsInv(s)
    ensures Tighter(log, s, Step(log, s, Crash))
  {
  }

  lemma HeadsStay(log: Log, s: Host, e: Event)
    requires Enabled(log, s, e) && HeadsInv(s)
    ensures HeadsInv(Step(log, s, e))
  {
  }

  lemma HandoffsStay(log: Log, s: Host, e: Event)
    requires Enabled(log, s, e) && HandoffsInv(s)
    ensures HandoffsInv(Step(log, s, e))
  {
    SessionsGrow(log, s, e);
  }

  lemma SessionsGrow(log: Log, s: Host, e: Event)
    requires Enabled(log, s, e)
    ensures forall room :: Session(s, room) <= Session(Step(log, s, e), room)
  {
  }

  lemma RoomsStayKnown(log: Log, s: Host, e: Event)
    requires Enabled(log, s, e) && RoomsKnown(s) && HeadsInv(s) && HandoffsInv(s)
    ensures RoomsKnown(Step(log, s, e)) && HeadsInv(Step(log, s, e)) && HandoffsInv(Step(log, s, e))
  {
    HeadsStay(log, s, e);
    HandoffsStay(log, s, e);
    KnownStay(log, s, e);
    var s' := Step(log, s, e);
    forall room: Room, d: Device | Reaches(s', room, d) ensures room in s'.durable + s'.deleted {
      if !Reaches(s, room, d) { NewReachIsKnown(log, s, e, room, d); }
    }
  }

  lemma KnownStay(log: Log, s: Host, e: Event)
    requires Enabled(log, s, e)
    ensures s.durable + s.deleted <= Step(log, s, e).durable + Step(log, s, e).deleted
  {
  }

  lemma NewReachIsKnown(log: Log, s: Host, e: Event, room: Room, d: Device)
    requires Enabled(log, s, e) && HandoffsInv(s) && Reaches(Step(log, s, e), room, d) && !Reaches(s, room, d)
    ensures room in s.durable + s.deleted
  {
    var s' := Step(log, s, e);
    if exists id :: id in s'.handoffs && s'.handoffs[id] == Handoff(room, d, Session(s', room), true) {
      var id :| id in s'.handoffs && s'.handoffs[id] == Handoff(room, d, Session(s', room), true);
      assert e == Clear(id) || s.handoffs[id] == s'.handoffs[id];
    }
  }

  predicate IsPlain(e: Event) {
    || e.Grow? || e.Read? || e.Ask? || e.Adopt? || e.Disconnect? || e.Enter? || e.Record? || e.Fence? || e.Forget? || e.Renew?
    || e.Export? || e.Clear? || e.Deliver? || e.StartShare? || e.Handed? || e.EndShare? || e.Crash?
  }

  /** Everything but the queue and the bookkeeping of the activation itself. */
  lemma OtherStepKeepsInv(log: Log, s: Host, e: Event)
    requires RemovalLasts(log) && Inv(log, s) && Enabled(log, s, e) && IsPlain(e)
    ensures Inv(log, Step(log, s, e))
  {
    var s' := Step(log, s, e);
    StepTightens(log, s, e);
    TighterKeeps(log, s, s');
    RoomsStayKnown(log, s, e);
    if s'.job.Rotation? { JobKept(log, s, s'); }
  }

  lemma BeginKeepsInv(log: Log, s: Host, e: Event)
    requires RemovalLasts(log) && Inv(log, s) && Enabled(log, s, e) && (e.Begin? || e.BeginRemoved?)
    ensures Inv(log, Step(log, s, e))
  {
    var s' := Step(log, s, e);
    StepTightens(log, s, e);
    TighterKeeps(log, s, s');
    RoomsStayKnown(log, s, e);
    if s'.job.Rotation? { JobKept(log, s, s'); }
  }

  lemma LoadKeepsInv(log: Log, s: Host, e: Event)
    requires RemovalLasts(log) && Inv(log, s) && Enabled(log, s, e) && (e.Load? || e.Leave?)
    ensures Inv(log, Step(log, s, e))
  {
    StepTightens(log, s, e);
    TighterKeeps(log, s, Step(log, s, e));
    RoomsStayKnown(log, s, e);
    if e.Load? { LoadedKeeps(log, s, e.id); } else { LeftKeeps(log, s, e.id); }
  }

  /** What entering and leaving leave of the acts and the queue. */
  lemma LoadedKeeps(log: Log, s: Host, id: ActivationId)
    requires RemovalLasts(log) && Inv(log, s) && Enabled(log, s, Load(id)) && Tighter(log, s, Step(log, s, Load(id)))
    requires var s' := Step(log, s, Load(id)); RoomsKnown(s') && HeadsInv(s') && HandoffsInv(s')
    ensures Inv(log, Step(log, s, Load(id)))
  {
    var s' := Step(log, s, Load(id));
    TighterKeeps(log, s, s');
    if s'.job.Rotation? { JobKept(log, s, s'); }
  }

  lemma LeftKeeps(log: Log, s: Host, id: ActivationId)
    requires RemovalLasts(log) && Inv(log, s) && Enabled(log, s, Leave(id)) && Tighter(log, s, Step(log, s, Leave(id)))
    requires var s' := Step(log, s, Leave(id)); RoomsKnown(s') && HeadsInv(s') && HandoffsInv(s')
    ensures Inv(log, Step(log, s, Leave(id)))
  {
    var s' := Step(log, s, Leave(id));
    TighterKeeps(log, s, s');
    if s'.job.Rotation? { JobKept(log, s, s'); }
  }

  /** Before the first room is rotated, whoever holds a key holds that of a known room. */
  lemma StartRotationKeepsInv(log: Log, s: Host, id: ActivationId, owned: set<Room>)
    requires RemovalLasts(log) && Inv(log, s) && Enabled(log, s, StartRotation(id, owned))
    ensures Inv(log, Step(log, s, StartRotation(id, owned)))
  {
    var e := StartRotation(id, owned);
    var s' := Step(log, s, e);
    StepTightens(log, s, e);
    TighterKeeps(log, s, s');
    RoomsStayKnown(log, s, e);
    if s'.job.Rotation? {
      forall r | r in Pending(log, s.acts[id].phase.saved.through, s.acts[id].head) ensures LockedOut(log, s', r, s'.job.todo) {
        assert ActInv(log, s, s.acts[id]);
      }
    }
  }

  lemma RotateRoomKeepsInv(log: Log, s: Host, room: Room)
    requires RemovalLasts(log) && Inv(log, s) && Enabled(log, s, RotateRoom(room))
    ensures Inv(log, Step(log, s, RotateRoom(room)))
  {
    var e := RotateRoom(room);
    var s' := Step(log, s, e);
    StepTightens(log, s, e);
    TighterKeeps(log, s, s');
    RoomsStayKnown(log, s, e);
    var a := s.acts[s.job.id];
    forall r | r in Pending(log, a.phase.saved.through, a.head) ensures LockedOut(log, s', r, s'.job.todo) {
      assert LockedOut(log, s, r, s.job.todo);
      FreshTightens(s, room);
      forall x, d | Reaches(s', x, d) ensures x != room && Reaches(s, x, d) { assert Reaches(Fresh(s, room), x, d); }
    }
  }

  lemma EndRotationKeepsInv(log: Log, s: Host, id: ActivationId)
    requires RemovalLasts(log) && Inv(log, s) && Enabled(log, s, EndRotation(id))
    ensures Inv(log, Step(log, s, EndRotation(id)))
  {
    var e := EndRotation(id);
    var s' := Step(log, s, e);
    StepTightens(log, s, e);
    TighterKeeps(log, s, s');
    RoomsStayKnown(log, s, e);
    var a := s.acts[id];
    var pending := Pending(log, a.phase.saved.through, a.head);
    assert AllLockedOut(log, s, pending);
    AllKept(log, s, s', pending);
  }

  /** Coverage of the marker an activation writes comes from its own snapshot, so it holds even if the
      marker moves backwards. */
  lemma SaveCovers(log: Log, s: Host, a: Act, saved: Marker)
    requires SnapshotInv(log, s, saved) && AllLockedOut(log, s, Pending(log, saved.through, a.head))
    ensures SnapshotInv(log, s, Marker(a.head, saved.acks + Pending(log, saved.through, a.head)))
  {
    var all := saved.acks + Pending(log, saved.through, a.head);
    forall r: nat | 1 <= r <= a.head && log.removes(r).Some? ensures r in s.acked || r in all {
      if r > saved.through { assert r in Pending(log, saved.through, a.head); }
    }
  }

  lemma SaveKeepsInv(log: Log, s: Host, id: ActivationId)
    requires RemovalLasts(log) && Inv(log, s) && Enabled(log, s, Save(id))
    ensures Inv(log, Step(log, s, Save(id)))
  {
    var e := Save(id);
    var s' := Step(log, s, e);
    var a := s.acts[id];
    StepTightens(log, s, e);
    TighterKeeps(log, s, s');
    RoomsStayKnown(log, s, e);
    assert ActInv(log, s', a);
    SaveCovers(log, s', a, a.phase.saved);
    var all := a.phase.saved.acks + Pending(log, a.phase.saved.through, a.head);
    assert all[0..] == all;
    assert ActInv(log, s', s'.acts[id]);
    JobKept(log, s, s');
  }

  lemma AcknowledgeKeepsInv(log: Log, s: Host, id: ActivationId)
    requires RemovalLasts(log) && Inv(log, s) && Enabled(log, s, Acknowledge(id))
    ensures Inv(log, Step(log, s, Acknowledge(id)))
  {
    var e := Acknowledge(id);
    var s' := Step(log, s, e);
    var a := s.acts[id];
    StepTightens(log, s, e);
    TighterKeeps(log, s, s');
    RoomsStayKnown(log, s, e);
    assert ActInv(log, s', a);
    assert a.phase.all[a.phase.done] in a.phase.all;
    assert ActInv(log, s', s'.acts[id]);
    JobKept(log, s, s');
  }

  lemma FinishKeepsInv(log: Log, s: Host, id: ActivationId)
    requires RemovalLasts(log) && Inv(log, s) && Enabled(log, s, Finish(id))
    ensures Inv(log, Step(log, s, Finish(id)))
  {
    var e := Finish(id);
    var s' := Step(log, s, e);
    var a := s.acts[id];
    StepTightens(log, s, e);
    TighterKeeps(log, s, s');
    RoomsStayKnown(log, s, e);
    assert ActInv(log, s', a);
    var all, done := a.phase.all, a.phase.done;
    assert all[done..] == [all[done]] + all[done + 1..];
    assert forall r :: r in all[done + 1..] ==> r in all;
    assert SnapshotInv(log, s', s'.marker);
    assert ActInv(log, s', s'.acts[id]);
    JobKept(log, s, s');
  }

  lemma StepKeepsInv(log: Log, s: Host, e: Event)
    requires RemovalLasts(log) && Inv(log, s) && Enabled(log, s, e)
    ensures Inv(log, Step(log, s, e))
  {
    match e
    case Begin(_) => BeginKeepsInv(log, s, e);
    case BeginRemoved(_, _) => BeginKeepsInv(log, s, e);
    case Load(_) => LoadKeepsInv(log, s, e);
    case Leave(_) => LoadKeepsInv(log, s, e);
    case StartRotation(id, owned) => StartRotationKeepsInv(log, s, id, owned);
    case RotateRoom(room) => RotateRoomKeepsInv(log, s, room);
    case EndRotation(id) => EndRotationKeepsInv(log, s, id);
    case Save(id) => SaveKeepsInv(log, s, id);
    case Acknowledge(id) => AcknowledgeKeepsInv(log, s, id);
    case Finish(id) => FinishKeepsInv(log, s, id);
    case _ => OtherStepKeepsInv(log, s, e);
  }

  lemma {:induction false} RunKeepsInv(log: Log, s: Host, events: seq<Event>)
    requires RemovalLasts(log) && Inv(log, s) && Runs(log, s, events)
    ensures Inv(log, Run(log, s, events))
    decreases |events|
  {
    if events != [] {
      StepKeepsInv(log, s, events[0]);
      RunKeepsInv(log, Step(log, s, events[0]), events[1..]);
    }
  }

  /** Whatever overlaps and wherever the host crashes: an acknowledged removal is final. No room that is
      not deleted has a current session key in the removed device's hands, then or ever after. */
  lemma AcknowledgedMeansLockedOut(log: Log, events: seq<Event>, r: nat, room: Room)
    requires RemovalLasts(log) && Runs(log, INITIAL, events)
    requires r in Run(log, INITIAL, events).acked && log.removes(r).Some?
    requires room !in Run(log, INITIAL, events).deleted
    ensures (room, log.removes(r).value) !in Run(log, INITIAL, events).held
  {
    RunKeepsInv(log, INITIAL, events);
    var s := Run(log, INITIAL, events);
    assert LockedOut(log, s, r, {});
    var d := log.removes(r).value;
    assert (room, d) in s.held ==> Reaches(s, room, d);
  }

  /** No removal at or below the saved marker is forgotten. */
  lemma NoRemovalIsLost(log: Log, events: seq<Event>, r: nat)
    requires RemovalLasts(log) && Runs(log, INITIAL, events)
    requires 1 <= r <= Run(log, INITIAL, events).marker.through && log.removes(r).Some?
    ensures r in Run(log, INITIAL, events).acked || r in Run(log, INITIAL, events).marker.acks
  {
    RunKeepsInv(log, INITIAL, events);
  }

  // ---- one uninterrupted call ----

  lemma {:induction false} RunExtends(log: Log, s: Host, events: seq<Event>, e: Event)
    requires Runs(log, s, events) && Enabled(log, Run(log, s, events), e)
    ensures Runs(log, s, events + [e]) && Run(log, s, events + [e]) == Step(log, Run(log, s, events), e)
    decreases |events|
  {
    if events == [] {
      assert [e][1..] == [];
      assert Run(log, Step(log, s, e), []) == Step(log, s, e);
    } else {
      assert (events + [e])[0] == events[0] && (events + [e])[1..] == events[1..] + [e];
      RunExtends(log, Step(log, s, events[0]), events[1..], e);
    }
  }

  ghost predicate Reachable(log: Log, s: Host) {
    exists events :: Runs(log, INITIAL, events) && Run(log, INITIAL, events) == s
  }

  lemma StepReaches(log: Log, s: Host, e: Event)
    requires Reachable(log, s) && Enabled(log, s, e)
    ensures Reachable(log, Step(log, s, e))
  {
    var events :| Runs(log, INITIAL, events) && Run(log, INITIAL, events) == s;
    RunExtends(log, INITIAL, events, e);
  }

  function Removals(log: Log, rs: seq<nat>): set<nat> { set r | r in rs && log.removes(r).Some? }

  function Outside(held: set<(Room, Device)>, rooms: set<Room>): set<(Room, Device)> { set p | p in held && p.0 !in rooms }

  /** The session of each of `rooms` was thrown away once. */
  ghost predicate Renewed(before: map<Room, nat>, after: map<Room, nat>, rooms: set<Room>) {
    forall room: Room :: Count(after, room) == Count(before, room) + if room in rooms then 1 else 0
  }

  /** What one uninterrupted call at head `head` leaves when `done` of the removals it had to acknowledge were
      taken. */
  ghost predicate Applied(log: Log, s: Host, s': Host, head: nat, owned: set<Room>, done: nat) {
    var pending := Pending(log, s.marker.through, head);
    var all := s.marker.acks + pending;
    var rooms := if pending == [] then {} else owned + s.durable + s.adapters;
    && done <= |all|
    && s'.marker == (if all == [] then s.marker else Marker(head, all[done..]))
    && s'.acked == s.acked + Removals(log, all[..done])
    && s'.held == Outside(s.held, rooms) && Renewed(s.sessions, s'.sessions, rooms)
    && s' == s.(head := head, observed := s'.observed, marker := s'.marker, acked := s'.acked, held := s'.held, sessions := s'.sessions)
  }

  /** The parts of a call, put together. */
  lemma AppliedTogether(log: Log, s: Host, s': Host, head: nat, owned: set<Room>, done: nat, all: seq<nat>, rooms: set<Room>)
    requires all == s.marker.acks + Pending(log, s.marker.through, head) && done <= |all|
    requires rooms == if Pending(log, s.marker.through, head) == [] then {} else owned + s.durable + s.adapters
    requires s'.marker == (if all == [] then s.marker else Marker(head, all[done..])) && s'.acked == s.acked + Removals(log, all[..done])
    requires s'.held == Outside(s.held, rooms) && Renewed(s.sessions, s'.sessions, rooms)
    requires s' == s.(head := head, observed := s'.observed, marker := s'.marker, acked := s'.acked, held := s'.held, sessions := s'.sessions)
    ensures Applied(log, s, s', head, owned, done)
  {
  }

  lemma AppliedBefore(log: Log, s: Host, entered: Host, s': Host, head: nat, owned: set<Room>, done: nat)
    requires entered == s.(head := head, observed := entered.observed) && Applied(log, entered, s', head, owned, done)
    ensures Applied(log, s, s', head, owned, done)
  {
  }

  /** `all` is being acknowledged by `id`, and `done` of it has been since `s`. */
  ghost predicate AckedFrom(log: Log, s: Host, s': Host, id: ActivationId, head: nat, all: seq<nat>, done: nat) {
    && done <= |all|
    && id in s'.acts && s'.acts[id].head == head && s'.acts[id].phase == Acking(all, done, false)
    && s'.marker == Marker(head, all[done..])
    && s'.acked == s.acked + Removals(log, all[..done])
    && s'.acts - {id} == s.acts - {id}
    && s' == s.(marker := s'.marker, acked := s'.acked, acts := s'.acts)
  }

  /** What the two steps for one removal leave, taken together. */
  ghost predicate TakenNext(log: Log, s: Host, s': Host, id: ActivationId, head: nat, all: seq<nat>, done: nat)
    requires done < |all|
  {
    && id in s.acts
    && s' == s.(marker := Marker(head, all[done + 1..]), acts := s.acts[id := s.acts[id].(phase := Acking(all, done + 1, false))],
                acked := if log.removes(all[done]).Some? then s.acked + {all[done]} else s.acked)
  }

  lemma TakenGoesOn(log: Log, s: Host, s1: Host, s2: Host, id: ActivationId, head: nat, all: seq<nat>, done: nat)
    requires AckedFrom(log, s, s1, id, head, all, done) && done < |all| && TakenNext(log, s1, s2, id, head, all, done)
    ensures AckedFrom(log, s, s2, id, head, all, done + 1)
  {
    var r := all[done];
    assert all[..done + 1] == all[..done] + [r];
    assert Removals(log, all[..done + 1]) == Removals(log, all[..done]) + if log.removes(r).Some? then {r} else {};
    assert s2.acts - {id} == s1.acts - {id};
  }

  lemma TakenReaches(log: Log, s: Host, s': Host, id: ActivationId, head: nat, all: seq<nat>, done: nat)
    requires Reachable(log, s) && done < |all| && id in s.acts && s.acts[id].head == head && s.acts[id].phase == Acking(all, done, false)
    requires TakenNext(log, s, s', id, head, all, done)
    ensures Reachable(log, s')
  {
    var sent := Step(log, s, Acknowledge(id));
    StepReaches(log, s, Acknowledge(id));
    StepReaches(log, sent, Finish(id));
    assert s' == Step(log, sent, Finish(id));
  }

  class RevocationHost {
    const log: Log
    var truth: nat
    var head: nat
    var observed: nat
    var asked: Option<nat>
    var trusted: bool
    var marker: Marker
    var durable: set<Room>
    var deleted: set<Room>
    var sessions: map<Room, nat>
    var held: set<(Room, Device)>
    var acked: set<nat>
    var adapters: set<Room>
    var job: Job
    var handoffs: map<nat, Handoff>
    var acts: map<ActivationId, Act>

    ghost function State(): Host
      reads this
    {
      Host(truth, head, observed, asked, trusted, marker, durable, deleted, sessions, held, acked, adapters, job, handoffs, acts)
    }

    /** The fields are the outcome of some run of the steps above. */
    ghost predicate Valid()
      reads this
    {
      Reachable(log, State())
    }

    constructor (log: Log)
      ensures Valid() && State() == INITIAL && this.log == log
    {
      this.log := log;
      truth, head, observed, asked, trusted := 0, 0, 0, None, false;
      marker, durable, deleted, sessions, held, acked := Marker(0, []), {}, {}, map[], {}, {};
      adapters, job, handoffs, acts := {}, Idle, map[], map[];
      new;
      assert Runs(log, INITIAL, []) && Run(log, INITIAL, []) == INITIAL;
    }

    /** Throws away the session of every room in the job. */
    method RotateAll(id: ActivationId)
      requires Valid() && job.Rotation? && job.id == id && id in acts && acts[id].phase.Loaded?
      modifies this`held, this`sessions, this`job, this`acts
      ensures Valid() && job == Idle && acts == old(acts)[id := old(acts)[id].(phase := Rotated(old(acts)[id].phase.saved))]
      ensures held == Outside(old(held), old(job).todo) && Renewed(old(sessions), sessions, old(job).todo)
    {
      while job.todo != {}
        invariant Valid() && job.Rotation? && job.id == id && acts == old(acts) && job.todo <= old(job).todo
        invariant held == Outside(old(held), old(job).todo - job.todo)
        invariant Renewed(old(sessions), sessions, old(job).todo - job.todo)
        decreases job.todo
      {
        var room :| room in job.todo;
        ThrowAway(id, room);
      }
      StepReaches(log, State(), EndRotation(id));
      job := Idle;
      acts := acts[id := acts[id].(phase := Rotated(acts[id].phase.saved))];
    }

    method ThrowAway(id: ActivationId, room: Room)
      requires Valid() && job.Rotation? && job.id == id && room in job.todo
      modifies this`held, this`sessions, this`job
      ensures Valid() && job == Rotation(id, old(job).todo - {room}) && held == Without(old(held), room)
      ensures sessions == old(sessions)[room := Count(old(sessions), room) + 1]
    {
      StepReaches(log, State(), RotateRoom(room));
      held := set p | p in held && p.0 != room;
      sessions := sessions[room := Count(sessions, room) + 1];
      job := Rotation(id, job.todo - {room});
    }

    /** One removal: acknowledged to the relay, then struck from the marker. */
    method AcknowledgeNext(id: ActivationId, ghost head: nat, all: seq<nat>, done: nat)
      requires Valid() && done < |all| && id in acts && acts[id].head == head && acts[id].phase == Acking(all, done, false)
      modifies this`acked, this`marker, this`acts
      ensures Valid() && TakenNext(log, old(State()), State(), id, head, all, done)
    {
      ghost var before := State();
      if log.removes(all[done]).Some? { acked := acked + {all[done]}; }
      marker := Marker(acts[id].head, all[done + 1..]);
      acts := acts[id := acts[id].(phase := Acking(all, done + 1, false))];
      TakenReaches(log, before, State(), id, head, all, done);
    }

    /** Until the relay refuses one. */
    method AcknowledgeAll(id: ActivationId, accepts: nat -> bool) returns (done: nat)
      requires Valid() && id in acts && acts[id].phase.Acking?
      requires AckedFrom(log, State(), State(), id, acts[id].head, acts[id].phase.all, 0)
      modifies this`acked, this`marker, this`acts
      ensures Valid() && AckedFrom(log, old(State()), State(), id, old(acts)[id].head, old(acts)[id].phase.all, done)
      ensures done < |old(acts)[id].phase.all| ==> log.removes(old(acts)[id].phase.all[done]).Some? && !accepts(old(acts)[id].phase.all[done])
    {
      var all, head := acts[id].phase.all, acts[id].head;
      ghost var before := State();
      done := 0;
      while done < |all|
        invariant Valid() && AckedFrom(log, before, State(), id, head, all, done)
      {
        if log.removes(all[done]).Some? && !accepts(all[done]) { return; }
        ghost var was := State();
        AcknowledgeNext(id, head, all, done);
        TakenGoesOn(log, before, was, State(), id, head, all, done);
        done := done + 1;
      }
    }

    /** reconcileMembership returned the membership in memory. */
    method Enter(id: ActivationId)
      requires Valid() && id !in acts && trusted
      modifies this`acts
      ensures Valid() && acts == old(acts)[id := Act(head, false, Entered)]
    {
      StepReaches(log, State(), Begin(id));
      acts := acts[id := Act(head, false, Entered)];
    }

    /** It failed because the signer was removed; the log that says so is applied nevertheless. */
    method EnterRemoved(id: ActivationId, read: nat)
      requires Valid() && id !in acts && observed <= read <= truth
      modifies this`acts, this`head, this`observed
      ensures Valid() && head == observed == read && acts == old(acts)[id := Act(read, true, Entered)]
    {
      StepReaches(log, State(), BeginRemoved(id, read));
      head, observed := read, read;
      acts := acts[id := Act(read, true, Entered)];
    }

    method Leave(id: ActivationId)
      requires Valid() && job == Idle && id in acts
      modifies this`acts
      ensures Valid() && acts == old(acts) - {id}
    {
      StepReaches(log, State(), Event.Leave(id));
      acts := acts - {id};
    }

    /** `work` unless there is nothing to do. */
    method ReadMarker(id: ActivationId) returns (work: bool)
      requires Valid() && id in acts && acts[id].phase.Entered?
      modifies this`acts
      ensures Valid() && (work <==> Pending(log, marker.through, old(acts)[id].head) != [] || marker.acks != [])
      ensures acts == if work then old(acts)[id := old(acts)[id].(phase := Loaded(marker))] else old(acts) - {id}
    {
      StepReaches(log, State(), Load(id));
      var a := acts[id];
      work := Pending(log, marker.through, a.head) != [] || marker.acks != [];
      acts := if work then acts[id := a.(phase := Loaded(marker))] else acts - {id};
    }

    /** The work the queue runs, if it may run at all. */
    method Rotate(id: ActivationId, owned: set<Room>) returns (ok: bool)
      requires Valid() && job == Idle && id in acts && acts[id].phase.Loaded?
      requires Pending(log, acts[id].phase.saved.through, acts[id].head) != []
      modifies this`held, this`sessions, this`job, this`acts
      ensures Valid() && job == Idle && ok == (trusted || old(acts)[id].hostOnly)
      ensures if ok then Renewed(old(sessions), sessions, owned + durable + adapters) else sessions == old(sessions)
      ensures acts == if ok then old(acts)[id := old(acts)[id].(phase := Rotated(old(acts)[id].phase.saved))] else old(acts) - {id}
      ensures held == if ok then Outside(old(held), owned + durable + adapters) else old(held)
    {
      StepReaches(log, State(), StartRotation(id, owned));
      if !trusted && !acts[id].hostOnly {
        acts := acts - {id};
        return false;
      }
      job := Rotation(id, owned + durable + adapters);
      RotateAll(id);
      ok := true;
    }

    method SaveMarker(id: ActivationId, saved: Marker) returns (all: seq<nat>)
      requires Valid() && Enabled(log, State(), Save(id)) && acts[id].phase.saved == saved
      modifies this`marker, this`acts
      ensures Valid() && all == saved.acks + Pending(log, saved.through, old(acts)[id].head)
      ensures marker == Marker(old(acts)[id].head, all) && acts == old(acts)[id := old(acts)[id].(phase := Acking(all, 0, false))]
    {
      StepReaches(log, State(), Save(id));
      var a := acts[id];
      all := saved.acks + Pending(log, saved.through, a.head);
      marker := Marker(a.head, all);
      acts := acts[id := a.(phase := Acking(all, 0, false))];
    }

    /** From reading the marker to the end of the rotation. */
    method Prepare(id: ActivationId, owned: set<Room>) returns (work: bool)
      requires Valid() && job == Idle && id in acts && acts[id].phase.Entered? && (trusted || acts[id].hostOnly)
      modifies this`held, this`sessions, this`job, this`acts
      ensures Valid() && job == Idle && acts - {id} == old(acts) - {id}
      ensures var a := old(acts)[id];
        var pending := Pending(log, marker.through, a.head);
        var rooms := if pending == [] then {} else owned + durable + adapters;
        && work == (pending != [] || marker.acks != [])
        && held == Outside(old(held), rooms) && Renewed(old(sessions), sessions, rooms)
        && (if work then id in acts && acts[id] == a.(phase := if pending == [] then Loaded(marker) else Rotated(marker)) else id !in acts)
    {
      var pending := Pending(log, marker.through, acts[id].head);
      work := ReadMarker(id);
      if pending != [] { var ok := Rotate(id, owned); }
    }

    /** From saving the marker to the end. */
    method Conclude(id: ActivationId, saved: Marker, accepts: nat -> bool) returns (ok: bool, ghost done: nat)
      requires Valid() && job == Idle && id in acts
      requires acts[id].phase == Rotated(saved) || (acts[id].phase == Loaded(saved) && Pending(log, saved.through, acts[id].head) == [])
      modifies this`acts, this`acked, this`marker
      ensures Valid() && acts == old(acts) - {id}
      ensures var all := saved.acks + Pending(log, saved.through, old(acts)[id].head);
        && done <= |all| && (ok <==> done == |all|) && marker == Marker(old(acts)[id].head, all[done..])
        && acked == old(acked) + Removals(log, all[..done])
    {
      var all := SaveMarker(id, saved);
      assert all[0..] == all && all[..0] == [];
      var taken := AcknowledgeAll(id, accepts);
      assert acts - {id} == old(acts) - {id};
      Leave(id);
      ok, done := taken == |all|, taken;
    }

    /** A whole call with nothing in between. It fails, with nothing changed, when membership does not
        reconcile and the signer was not removed. Otherwise every known room's session is gone if there was
        anything new, and what the relay did not take stays in the marker. */
    method ApplyRevocations(id: ActivationId, removed: Option<nat>, owned: set<Room>, accepts: nat -> bool) returns (ok: bool, ghost done: nat)
      requires Valid() && job == Idle && id !in acts && (removed.Some? ==> observed <= removed.value <= truth)
      modifies this`held, this`sessions, this`job, this`acts, this`acked, this`marker, this`head, this`observed
      ensures Valid()
      ensures var at := if removed.Some? then removed.value else old(head);
        if removed.None? && !trusted then !ok && State() == old(State())
        else
          && Applied(log, old(State()), State(), at, owned, done)
          && (ok <==> done == |old(marker).acks + Pending(log, old(marker).through, at)|)
    {
      if removed.None? && !trusted { return false, 0; }
      ghost var was := State();
      if removed.Some? { EnterRemoved(id, removed.value); } else { Enter(id); }
      assert acts - {id} == was.acts;
      ghost var entered := State().(acts := acts - {id});
      ok, done := ApplyAt(id, owned, accepts);
      AppliedBefore(log, was, entered, State(), head, owned, done);
    }

    /** From reading the marker to the end. */
    method ApplyAt(id: ActivationId, owned: set<Room>, accepts: nat -> bool) returns (ok: bool, ghost done: nat)
      requires Valid() && job == Idle && id in acts && acts[id].phase.Entered? && acts[id].head == head && (trusted || acts[id].hostOnly)
      modifies this`held, this`sessions, this`job, this`acts, this`acked, this`marker
      ensures Valid() && Applied(log, old(State()).(acts := old(acts) - {id}), State(), head, owned, done)
      ensures ok <==> done == |old(marker).acks + Pending(log, old(marker).through, head)|
    {
      ok, done := true, 0;
      var saved := marker;
      ghost var before := State().(acts := acts - {id});
      ghost var pending := Pending(log, saved.through, head);
      ghost var all := saved.acks + pending;
      ghost var rooms := if pending == [] then {} else owned + durable + adapters;
      var work := Prepare(id, owned);
      assert acts - {id} == old(acts) - {id};
      if work { ok, done := Conclude(id, saved, accepts); }
      assert acts == old(acts) - {id};
      assert all == [] ==> all[..0] == [];
      AppliedTogether(log, before, State(), head, owned, done, all, rooms);
    }
  }
}
