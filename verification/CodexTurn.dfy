/** packages/runtime/codex-app-server.js (onNotification and the binding of the turn): what a provider
    turn emits does not depend on when the reply to turn/start is seen. */
module CodexTurn {
  import opened Wrappers

  type Id = nat
  type Bytes = nat

  const MAX_BUFFERED := 128
  const MAX_BYTES := 1024 * 1024
  const MAX_ITEMS := 512

  datatype Status = Completed | Failed | Interrupted

  datatype Item = Item(id: Id, content: nat)

  /** TurnDone without a status names none of the three; Progress without an item is one that does not map. */
  datatype Body = TurnDone(status: Option<Status>) | Plan(steps: nat) | Progress(item: Option<Item>, done: bool) | Delta(id: Id, text: nat) | Other

  /** `turn` is params.turnId, `inner` is params.turn.id; absent or empty is None. `size` is its length as JSON. */
  datatype Note = Note(thread: Id, turn: Option<Id>, inner: Option<Id>, body: Body, size: Bytes)

  datatype Emission = PlanUpdated(steps: nat) | ItemStarted(item: Item) | ItemCompleted(item: Item) | ItemDelta(id: Id, text: nat)

  /** `failed`: the connection was failed while a notification was handled, so no more are. */
  datatype Turn = Turn(
    thread: Option<Id>, turn: Option<Id>, started: set<Id>, items: map<Id, nat>, completed: Option<Status>,
    buffered: seq<Note>, bytes: Bytes, emitted: seq<Emission>, failed: bool)

  function Fresh(thread: Id): Turn { Turn(Some(thread), None, {}, map[], None, [], 0, [], false) }

  // ---- what the code does ----

  predicate Names(n: Note, turn: Id) {
    (if n.turn.Some? then n.turn else n.inner) == Some(turn) && (n.inner.None? || n.inner.value == turn)
  }

  function OnItem(s: Turn, item: Item, done: bool): Turn {
    if |s.items| >= MAX_ITEMS && item.id !in s.items then s.(failed := true)
    else
      s.(items := s.items[item.id := item.content], started := s.started + {item.id},
         emitted := s.emitted + (if item.id in s.started then [] else [ItemStarted(item)]) + (if done then [ItemCompleted(item)] else []))
  }

  function OnBody(s: Turn, b: Body): Turn {
    match b
    case TurnDone(status) => if status.None? then s.(failed := true) else s.(completed := status)
    case Plan(steps) => s.(emitted := s.emitted + [PlanUpdated(steps)])
    case Progress(item, done) => if item.None? then s else OnItem(s, item.value, done)
    case Delta(id, text) => s.(emitted := s.emitted + [ItemDelta(id, text)])
    case Other => s
  }

  function OnNotification(s: Turn, n: Note): Turn {
    if s.failed || s.thread != Some(n.thread) || s.completed.Some? then s
    else if s.turn.None? then
      if |s.buffered| >= MAX_BUFFERED || s.bytes + n.size > MAX_BYTES then s.(bytes := s.bytes + n.size, failed := true)
      else s.(bytes := s.bytes + n.size, buffered := s.buffered + [n])
    else if !Names(n, s.turn.value) then s
    else OnBody(s, n.body)
  }

  function OnAll(s: Turn, notes: seq<Note>): Turn
    decreases |notes|
  {
    if notes == [] then s else OnAll(OnNotification(s, notes[0]), notes[1..])
  }

  /** The reply to turn/start is seen: what was buffered is handled now. */
  function Bind(s: Turn, turn: Id): Turn { OnAll(s.(turn := Some(turn)), s.buffered).(buffered := []) }

  // ---- what the reader of the events is promised ----

  /** It names the thread, and this turn: it gives a turn's id, and none but this one. */
  predicate Concerns(n: Note, thread: Id, turn: Id) {
    && n.thread == thread && (n.turn.Some? || n.inner.Some?)
    && (n.turn.Some? ==> n.turn.value == turn) && (n.inner.Some? ==> n.inner.value == turn)
  }

  /** The notifications that concern this turn of this thread. */
  function Matching(notes: seq<Note>, thread: Id, turn: Id): seq<Note>
    decreases |notes|
  {
    if notes == [] then []
    else (if Concerns(notes[0], thread, turn) then [notes[0]] else []) + Matching(notes[1..], thread, turn)
  }

  predicate Final(n: Note) { n.body.TurnDone? }

  /** Up to and including the first that ends the turn. */
  function Cut(notes: seq<Note>): seq<Note>
    decreases |notes|
  {
    if notes == [] then [] else if Final(notes[0]) then [notes[0]] else [notes[0]] + Cut(notes[1..])
  }

  /** What one notification says, when `seen` items have been started. */
  function Says(b: Body, seen: set<Id>): seq<Emission> {
    match b
    case Plan(steps) => [PlanUpdated(steps)]
    case Delta(id, text) => [ItemDelta(id, text)]
    case Progress(item, done) =>
      if item.None? then []
      else (if item.value.id in seen then [] else [ItemStarted(item.value)]) + (if done then [ItemCompleted(item.value)] else [])
    case _ => []
  }

  function Seen(b: Body, seen: set<Id>): set<Id> {
    if b.Progress? && b.item.Some? then seen + {b.item.value.id} else seen
  }

  function Tells(notes: seq<Note>, seen: set<Id>): seq<Emission>
    decreases |notes|
  {
    if notes == [] then [] else Says(notes[0].body, seen) + Tells(notes[1..], Seen(notes[0].body, seen))
  }

  // ---- the code keeps the promise ----

  lemma {:induction false} OnAllAppend(s: Turn, x: seq<Note>, y: seq<Note>)
    ensures OnAll(s, x + y) == OnAll(OnAll(s, x), y)
    decreases |x|
  {
    if x == [] {
      assert x + y == y;
    } else {
      assert (x + y)[1..] == x[1..] + y;
      OnAllAppend(OnNotification(s, x[0]), x[1..], y);
    }
  }

  predicate Aligned(s: Turn) { s.started == s.items.Keys }

  /** A turn that is known and still going. */
  predicate Going(s: Turn) { s.thread.Some? && s.turn.Some? && s.completed.None? && !s.failed && Aligned(s) }

  function Told(s: Turn, notes: seq<Note>): seq<Emission>
    requires s.thread.Some? && s.turn.Some?
  {
    Tells(Cut(Matching(notes, s.thread.value, s.turn.value)), s.started)
  }

  lemma StepTells(s: Turn, n: Note)
    requires Going(s) && n.thread == s.thread.value && Names(n, s.turn.value)
    ensures var s1 := OnNotification(s, n);
      && (s1.failed ==> s1.emitted == s.emitted)
      && (!s1.failed ==> s1.emitted == s.emitted + Says(n.body, s.started) && s1.started == Seen(n.body, s.started))
      && (!s1.failed && !Final(n) ==> Going(s1))
      && (!s1.failed && Final(n) ==> s1.completed.Some?)
      && (s1.thread, s1.turn) == (s.thread, s.turn)
  {
    if n.body.Progress? && n.body.item.Some? {
      var item := n.body.item.value;
      assert s.emitted + (if item.id in s.started then [] else [ItemStarted(item)]) + (if n.body.done then [ItemCompleted(item)] else [])
        == s.emitted + ((if item.id in s.started then [] else [ItemStarted(item)]) + (if n.body.done then [ItemCompleted(item)] else []));
      assert item.id in s.started ==> s.started + {item.id} == s.started;
    }
  }

  lemma ToldStep(s: Turn, notes: seq<Note>)
    requires s.thread.Some? && s.turn.Some? && notes != []
    ensures var n := notes[0];
      var mine := n.thread == s.thread.value && Names(n, s.turn.value);
      && (!mine ==> Told(s, notes) == Told(s, notes[1..]))
      && (mine && Final(n) ==> Told(s, notes) == Says(n.body, s.started))
      && (mine && !Final(n) ==> Told(s, notes) == Says(n.body, s.started) + Told(s.(started := Seen(n.body, s.started)), notes[1..]))
  {
    var n, th, tu := notes[0], s.thread.value, s.turn.value;
    var all, rest := Matching(notes, th, tu), Matching(notes[1..], th, tu);
    if n.thread == th && Names(n, tu) {
      assert all[0] == n && all[1..] == rest;
      var cut := Cut(all);
      assert cut[0] == n && (if Final(n) then cut[1..] == [] else cut[1..] == Cut(rest));
      assert Tells(cut, s.started) == Says(n.body, s.started) + Tells(cut[1..], Seen(n.body, s.started));
      assert Final(n) ==> Tells(cut, s.started) == Says(n.body, s.started) + [];
    } else {
      assert all == rest;
    }
  }

  /** `t` has emitted what it was told since `before`, or a first part of it if the connection failed. */
  ghost predicate Delivered(before: seq<Emission>, t: Turn, told: seq<Emission>) {
    before <= t.emitted && t.emitted <= before + told && (!t.failed ==> t.emitted == before + told)
  }

  lemma DeliveredAfter(before: seq<Emission>, says: seq<Emission>, t: Turn, told: seq<Emission>)
    requires Delivered(before + says, t, told)
    ensures Delivered(before, t, says + told)
  {
    assert before + says + told == before + (says + told);
  }

  /** Once the turn is known, the events are those of the matching notifications, in order, cut at the
      first that ends the turn; unless the connection fails, and then they are the first of those. */
  lemma {:induction false} EmitsWhatItTells(s: Turn, notes: seq<Note>)
    requires Going(s)
    ensures Delivered(s.emitted, OnAll(s, notes), Told(s, notes))
    decreases |notes|, 0
  {
    if notes != [] {
      var n := notes[0];
      var s1 := OnNotification(s, n);
      ToldStep(s, notes);
      assert OnAll(s, notes) == OnAll(s1, notes[1..]);
      if n.thread == s.thread.value && Names(n, s.turn.value) {
        StepTells(s, n);
        EmitsFrom(s, n, s1, notes[1..]);
      } else {
        assert s1 == s;
        EmitsWhatItTells(s, notes[1..]);
      }
    }
  }

  lemma {:induction false} EmitsFrom(s: Turn, n: Note, s1: Turn, rest: seq<Note>)
    requires s.thread.Some? && s.turn.Some? && (s1.thread, s1.turn) == (s.thread, s.turn)
    requires s1.failed ==> s1.emitted == s.emitted
    requires !s1.failed ==> s1.emitted == s.emitted + Says(n.body, s.started) && s1.started == Seen(n.body, s.started)
    requires !s1.failed ==> if Final(n) then s1.completed.Some? else Going(s1)
    ensures Delivered(s.emitted, OnAll(s1, rest), Says(n.body, s.started) + if Final(n) then [] else Told(s.(started := Seen(n.body, s.started)), rest))
    decreases |rest|, 1
  {
    if s1.failed || Final(n) {
      Stopped(s1, rest);
      assert Says(n.body, s.started) + [] == Says(n.body, s.started);
    } else {
      EmitsWhatItTells(s1, rest);
      assert Told(s1, rest) == Told(s.(started := s1.started), rest);
      DeliveredAfter(s.emitted, Says(n.body, s.started), OnAll(s1, rest), Told(s1, rest));
    }
  }

  /** A failed or completed turn takes nothing more. */
  lemma {:induction false} Stopped(s: Turn, notes: seq<Note>)
    requires s.failed || (s.completed.Some? && s.turn.Some?)
    ensures OnAll(s, notes) == s
    decreases |notes|
  {
    if notes != [] { Stopped(s, notes[1..]); }
  }

  // ---- the moment of binding makes no difference ----

  function OfThread(notes: seq<Note>, thread: Id): seq<Note>
    decreases |notes|
  {
    if notes == [] then [] else (if notes[0].thread == thread then [notes[0]] else []) + OfThread(notes[1..], thread)
  }

  function Size(notes: seq<Note>): Bytes
    decreases |notes|
  {
    if notes == [] then 0 else notes[0].size + Size(notes[1..])
  }

  lemma BuffersOne(s: Turn, n: Note)
    requires s.thread == Some(n.thread) && s.turn.None? && s.completed.None? && !s.failed
    ensures var s1 := OnNotification(s, n);
      && (s1.failed <==> |s.buffered| + 1 > MAX_BUFFERED || s.bytes + n.size > MAX_BYTES)
      && (!s1.failed ==> s1 == s.(buffered := s.buffered + [n], bytes := s.bytes + n.size))
  {
  }

  lemma OfThreadStep(notes: seq<Note>, thread: Id)
    requires notes != []
    ensures var mine, rest := OfThread(notes, thread), OfThread(notes[1..], thread);
      if notes[0].thread == thread then mine == [notes[0]] + rest && |mine| == 1 + |rest| && Size(mine) == notes[0].size + Size(rest) else mine == rest
  {
    var mine := OfThread(notes, thread);
    if notes[0].thread == thread { assert mine[0] == notes[0] && mine[1..] == OfThread(notes[1..], thread); }
  }

  /** Before the turn is known, everything of the thread is kept, as long as it fits. */
  lemma {:induction false} Buffers(s: Turn, notes: seq<Note>)
    requires s.thread.Some? && s.turn.None? && s.completed.None? && !s.failed
    ensures var mine := OfThread(notes, s.thread.value);
      var fits := |s.buffered| + |mine| <= MAX_BUFFERED && s.bytes + Size(mine) <= MAX_BYTES;
      && (OnAll(s, notes).failed <==> mine != [] && !fits)
      && (mine == [] || fits ==> OnAll(s, notes) == s.(buffered := s.buffered + mine, bytes := s.bytes + Size(mine)))
    decreases |notes|
  {
    if notes != [] {
      var n, s1 := notes[0], OnNotification(s, notes[0]);
      var rest := OfThread(notes[1..], s.thread.value);
      OfThreadStep(notes, s.thread.value);
      if n.thread == s.thread.value {
        BuffersOne(s, n);
        if s1.failed {
          Stopped(s1, notes[1..]);
        } else {
          Buffers(s1, notes[1..]);
          assert s.buffered + [n] + rest == s.buffered + ([n] + rest);
          assert rest == [] ==> s1.buffered + rest == s1.buffered;
        }
      } else {
        Buffers(s, notes[1..]);
      }
    } else {
      assert s.buffered + [] == s.buffered;
    }
  }

  /** Other threads' notifications never mattered. */
  lemma {:induction false} OnlyTheThread(s: Turn, notes: seq<Note>)
    requires s.thread.Some? && s.turn.Some?
    ensures OnAll(s, OfThread(notes, s.thread.value)) == OnAll(s, notes)
    decreases |notes|
  {
    if notes != [] {
      var mine := OfThread(notes, s.thread.value);
      var s1 := OnNotification(s, notes[0]);
      if notes[0].thread == s.thread.value {
        assert mine[0] == notes[0] && mine[1..] == OfThread(notes[1..], s.thread.value);
        OnlyTheThread(s1, notes[1..]);
      } else {
        assert mine == OfThread(notes[1..], s.thread.value) && s1 == s;
        OnlyTheThread(s, notes[1..]);
      }
    }
  }

  lemma {:induction false} BufferIsUnused(s: Turn, notes: seq<Note>, buffered: seq<Note>, bytes: Bytes)
    requires s.turn.Some?
    ensures OnAll(s.(buffered := buffered, bytes := bytes), notes) == OnAll(s, notes).(buffered := buffered, bytes := bytes)
    ensures OnAll(s, notes).turn == s.turn
    decreases |notes|
  {
    if notes != [] { BufferIsUnused(OnNotification(s, notes[0]), notes[1..], buffered, bytes); }
  }

  predicate Fits(notes: seq<Note>) { |notes| <= MAX_BUFFERED && Size(notes) <= MAX_BYTES }

  /** Wherever the reply falls among the notifications, the turn ends up as if it had been known from the
      start, as long as the buffer holds what comes before; otherwise the connection fails, with nothing
      emitted. */
  lemma BufferingIsTransparent(thread: Id, turn: Id, before: seq<Note>, after: seq<Note>)
    ensures var s := Fresh(thread);
      if Fits(OfThread(before, thread))
      then OnAll(Bind(OnAll(s, before), turn), after).(bytes := 0) == OnAll(s.(turn := Some(turn)), before + after)
      else OnAll(s, before).failed && OnAll(s, before).emitted == []
  {
    var s := Fresh(thread);
    var mine := OfThread(before, thread);
    Buffers(s, before);
    if Fits(mine) {
      var known := s.(turn := Some(turn));
      assert [] + mine == mine;
      BufferIsUnused(known, mine, mine, Size(mine));
      OnlyTheThread(known, before);
      var bound := Bind(OnAll(s, before), turn);
      assert bound == OnAll(known, before).(buffered := [], bytes := Size(mine));
      BufferIsUnused(known, before, [], 0);
      BufferIsUnused(OnAll(known, before), after, [], Size(mine));
      BufferIsUnused(OnAll(known, before), after, [], 0);
      OnAllAppend(known, before, after);
    } else {
      FailsSilently(s, before);
    }
  }

  lemma {:induction false} FailsSilently(s: Turn, notes: seq<Note>)
    requires s.turn.None?
    ensures OnAll(s, notes).emitted == s.emitted
    decreases |notes|
  {
    if notes != [] { FailsSilently(OnNotification(s, notes[0]), notes[1..]); }
  }

  /** The events of a turn, for every position of the reply: the matching notifications of its thread, in
      order of arrival, cut at the first that ends it. */
  lemma EmittedIsMatching(thread: Id, turn: Id, before: seq<Note>, after: seq<Note>)
    requires Fits(OfThread(before, thread))
    ensures var t := OnAll(Bind(OnAll(Fresh(thread), before), turn), after);
      var told := Tells(Cut(Matching(before + after, thread, turn)), {});
      t.emitted <= told && (!t.failed ==> t.emitted == told)
  {
    BufferingIsTransparent(thread, turn, before, after);
    EmitsWhatItTells(Fresh(thread).(turn := Some(turn)), before + after);
    var told := Tells(Cut(Matching(before + after, thread, turn)), {});
    assert [] + told == told;
    assert told == Told(Fresh(thread).(turn := Some(turn)), before + after);
  }

  // ---- how a turn ends ----

  /** A notification that cannot be taken: an end without a status that is one of the three, or an item beyond
      the number a turn may have. */
  predicate Breaks(b: Body, seen: set<Id>) {
    b == TurnDone(None) || (b.Progress? && b.item.Some? && b.item.value.id !in seen && |seen| >= 512)
  }

  /** What comes before the first that cannot be taken. */
  function Whole(notes: seq<Note>, seen: set<Id>): seq<Note>
    decreases |notes|
  {
    if notes == [] || Breaks(notes[0].body, seen) then [] else [notes[0]] + Whole(notes[1..], Seen(notes[0].body, seen))
  }

  /** The content last reported of each item. */
  function Contents(notes: seq<Note>, items: map<Id, nat>): map<Id, nat>
    decreases |notes|
  {
    if notes == [] then items
    else
      var b := notes[0].body;
      Contents(notes[1..], if b.Progress? && b.item.Some? then items[b.item.value.id := b.item.value.content] else items)
  }

  /** The status the turn ended with, if it did. */
  function Ending(notes: seq<Note>): Option<Status> {
    if notes != [] && notes[|notes| - 1].body.TurnDone? then notes[|notes| - 1].body.status else None
  }

  /** The turn took exactly `taken` of what it was sent, and failed exactly if that is not all. */
  ghost predicate Took(s: Turn, t: Turn, taken: seq<Note>, all: bool) {
    && t.emitted == s.emitted + Tells(taken, s.started) && t.items == Contents(taken, s.items)
    && t.completed == Ending(taken) && (t.failed <==> !all)
  }

  lemma TookOneMore(s: Turn, s1: Turn, t: Turn, n: Note, rest: seq<Note>, all: bool)
    requires Took(s1, t, rest, all) && (rest == [] ==> !n.body.TurnDone?)
    requires s1.emitted == s.emitted + Says(n.body, s.started) && s1.started == Seen(n.body, s.started)
    requires s1.items == Contents([n], s.items)
    ensures Took(s, t, [n] + rest, all)
  {
    assert ([n] + rest)[1..] == rest && [n][1..] == [];
    assert s.emitted + Says(n.body, s.started) + Tells(rest, s1.started) == s.emitted + (Says(n.body, s.started) + Tells(rest, s1.started));
    assert Contents([n], s.items) == Contents([], Contents([n], s.items));
    assert rest != [] ==> ([n] + rest)[|rest|] == rest[|rest| - 1];
  }

  /** One notification of the turn: taken, or the turn fails with nothing changed. */
  lemma TakesOne(s: Turn, n: Note)
    requires Going(s) && n.thread == s.thread.value && Names(n, s.turn.value)
    ensures var s1 := OnNotification(s, n);
      && (s1.failed <==> Breaks(n.body, s.started))
      && (s1.failed ==> (s1.emitted, s1.items, s1.completed) == (s.emitted, s.items, None))
      && (!s1.failed ==> s1.items == Contents([n], s.items) && s1.completed == Ending([n]))
  {
    assert [n][1..] == [] && [n][|[n]| - 1] == n;
  }

  /** A known turn takes the notifications that match, in order, cut at the first that ends it, up to the
      first that cannot be taken, where it fails. */
  lemma {:induction false} TakesWhole(s: Turn, notes: seq<Note>)
    requires Going(s)
    ensures var mine := Cut(Matching(notes, s.thread.value, s.turn.value));
      Took(s, OnAll(s, notes), Whole(mine, s.started), Whole(mine, s.started) == mine)
    decreases |notes|
  {
    if notes != [] {
      var n, s1 := notes[0], OnNotification(s, notes[0]);
      var th, tu := s.thread.value, s.turn.value;
      var all, after := Matching(notes, th, tu), Matching(notes[1..], th, tu);
      if n.thread == th && Names(n, tu) {
        assert all[0] == n && all[1..] == after;
        TakesOne(s, n);
        StepTells(s, n);
        if s1.failed {
          Stopped(s1, notes[1..]);
          assert s.emitted + [] == s.emitted;
        } else if Final(n) {
          Stopped(s1, notes[1..]);
          assert Cut(all) == [n] && Whole([n], s.started) == [n] + [];
          assert Tells([n], s.started) == Says(n.body, s.started) + [] == Says(n.body, s.started);
        } else {
          TakesWhole(s1, notes[1..]);
          var rest := Cut(after);
          assert Cut(all) == [n] + rest && ([n] + rest)[1..] == rest;
          var taken := Whole(rest, s1.started);
          assert Whole([n] + rest, s.started) == [n] + taken;
          assert ([n] + taken == [n] + rest) <==> taken == rest by { assert ([n] + taken)[1..] == taken && ([n] + rest)[1..] == rest; }
          TookOneMore(s, s1, OnAll(s1, notes[1..]), n, taken, taken == rest);
        }
      } else {
        assert all == after && s1 == s;
        TakesWhole(s, notes[1..]);
      }
    } else {
      assert s.emitted + [] == s.emitted;
    }
  }

  /** Wherever the reply falls, the turn takes the matching notifications up to the end or to the first that
      cannot be taken: it emits exactly what they tell, holds the last content of each item, ends with the
      status they end with, and fails if and only if there is one that cannot be taken. */
  lemma EndsExactly(thread: Id, turn: Id, before: seq<Note>, after: seq<Note>)
    requires Fits(OfThread(before, thread))
    ensures var mine := Cut(Matching(before + after, thread, turn));
      Took(Fresh(thread), OnAll(Bind(OnAll(Fresh(thread), before), turn), after), Whole(mine, {}), Whole(mine, {}) == mine)
  {
    BufferingIsTransparent(thread, turn, before, after);
    TakesWhole(Fresh(thread).(turn := Some(turn)), before + after);
  }

  // ---- items ----

  /** Each item is started at most once, and completed only after it was started. */
  ghost predicate Orderly(es: seq<Emission>, seen: set<Id>) {
    && (forall i :: 0 <= i < |es| && es[i].ItemStarted? ==> es[i].item.id !in seen)
    && (forall i, j :: 0 <= i < j < |es| && es[i].ItemStarted? && es[j].ItemStarted? ==> es[i].item.id != es[j].item.id)
    && (forall j :: 0 <= j < |es| && es[j].ItemCompleted? ==> es[j].item.id in seen || StartedBefore(es, j, es[j].item.id))
  }

  ghost predicate StartedBefore(es: seq<Emission>, j: nat, id: Id)
    requires j <= |es|
  {
    exists i :: 0 <= i < j && es[i].ItemStarted? && es[i].item.id == id
  }

  lemma OrderlyJoin(x: seq<Emission>, y: seq<Emission>, seen: set<Id>, then_: set<Id>)
    requires Orderly(x, seen) && Orderly(y, then_) && seen <= then_
    requires forall i :: 0 <= i < |x| && x[i].ItemStarted? ==> x[i].item.id in then_
    requires forall id :: id in then_ ==> id in seen || StartedBefore(x, |x|, id)
    ensures Orderly(x + y, seen)
  {
    var es := x + y;
    forall j | 0 <= j < |es| && es[j].ItemCompleted? ensures es[j].item.id in seen || StartedBefore(es, j, es[j].item.id) {
      var id := es[j].item.id;
      if j < |x| {
        if id !in seen {
          var i :| 0 <= i < j && x[i].ItemStarted? && x[i].item.id == id;
          assert es[i] == x[i];
        }
      } else if id in then_ && id !in seen {
        var i :| 0 <= i < |x| && x[i].ItemStarted? && x[i].item.id == id;
        assert es[i] == x[i];
      } else if id !in seen {
        var i :| 0 <= i < j - |x| && y[i].ItemStarted? && y[i].item.id == id;
        assert es[|x| + i] == y[i];
      }
    }
  }

  lemma SaysIsOrderly(b: Body, seen: set<Id>)
    ensures var x := Says(b, seen);
      && Orderly(x, seen)
      && (forall i :: 0 <= i < |x| && x[i].ItemStarted? ==> x[i].item.id in Seen(b, seen))
      && (forall id :: id in Seen(b, seen) ==> id in seen || StartedBefore(x, |x|, id))
  {
    if b.Progress? && b.item.Some? && b.item.value.id !in seen {
      var x := Says(b, seen);
      assert x[0] == ItemStarted(b.item.value);
      assert StartedBefore(x, |x|, b.item.value.id);
      assert b.done ==> StartedBefore(x, 1, b.item.value.id);
    }
  }

  lemma {:induction false} TellsIsOrderly(notes: seq<Note>, seen: set<Id>)
    ensures Orderly(Tells(notes, seen), seen)
    decreases |notes|
  {
    if notes != [] {
      var b := notes[0].body;
      TellsIsOrderly(notes[1..], Seen(b, seen));
      SaysIsOrderly(b, seen);
      OrderlyJoin(Says(b, seen), Tells(notes[1..], Seen(b, seen)), seen, Seen(b, seen));
    }
  }

  /** Whatever the provider sends: an item is reported started once, and never completed before. */
  lemma ItemsStartOnceAndFirst(thread: Id, turn: Id, before: seq<Note>, after: seq<Note>)
    requires Fits(OfThread(before, thread))
    ensures Orderly(OnAll(Bind(OnAll(Fresh(thread), before), turn), after).emitted, {})
  {
    EmittedIsMatching(thread, turn, before, after);
    var told := Tells(Cut(Matching(before + after, thread, turn)), {});
    var emitted := OnAll(Bind(OnAll(Fresh(thread), before), turn), after).emitted;
    TellsIsOrderly(Cut(Matching(before + after, thread, turn)), {});
    forall j | 0 <= j < |emitted| && emitted[j].ItemCompleted? ensures StartedBefore(emitted, j, emitted[j].item.id) {
      assert emitted[j] == told[j];
      var i :| 0 <= i < j && told[i].ItemStarted? && told[i].item.id == told[j].item.id;
      assert emitted[i] == told[i];
    }
  }

  // ---- the backend's state ----

  class TurnState {
    var thread: Option<Id>
    var turn: Option<Id>
    var started: set<Id>
    var items: map<Id, nat>
    var completed: Option<Status>
    var buffered: seq<Note>
    var bytes: Bytes
    var failed: bool
    var emitted: seq<Emission>

    ghost function Fields(): Turn
      reads this
    {
      Turn(thread, turn, started, items, completed, buffered, bytes, emitted, failed)
    }

    constructor (thread: Id)
      ensures Fields() == Fresh(thread)
    {
      this.thread, turn, started, items, completed := Some(thread), None, {}, map[], None;
      buffered, bytes, failed, emitted := [], 0, false, [];
    }

    method Notify(n: Note)
      modifies this
      ensures Fields() == OnNotification(old(Fields()), n)
    {
      if failed || thread != Some(n.thread) || completed.Some? { return; }
      if turn.None? {
        bytes := bytes + n.size;
        if |buffered| >= MAX_BUFFERED || bytes > MAX_BYTES { failed := true; } else { buffered := buffered + [n]; }
        return;
      }
      if !Names(n, turn.value) { return; }
      match n.body
      case TurnDone(status) => if status.None? { failed := true; } else { completed := status; }
      case Plan(steps) => emitted := emitted + [PlanUpdated(steps)];
      case Progress(item, done) => if item.Some? { NotifyItem(item.value, done); }
      case Delta(id, text) => emitted := emitted + [ItemDelta(id, text)];
      case Other =>
    }

    method NotifyItem(item: Item, done: bool)
      modifies this`failed, this`items, this`started, this`emitted
      ensures Fields() == OnItem(old(Fields()), item, done)
    {
      if |items| >= MAX_ITEMS && item.id !in items {
        failed := true;
        return;
      }
      items := items[item.id := item.content];
      if item.id !in started {
        started := started + {item.id};
        emitted := emitted + [ItemStarted(item)];
      }
      assert item.id in started && started + {item.id} == started;
      if done { emitted := emitted + [ItemCompleted(item)]; }
    }

    /** The reply names the turn; everything held back is handled, in order. */
    method BindTurn(id: Id)
      modifies this
      ensures Fields() == Bind(old(Fields()), id)
    {
      turn := Some(id);
      var rest := buffered;
      ghost var goal := OnAll(Fields(), rest);
      while rest != []
        invariant OnAll(Fields(), rest) == goal
        decreases |rest|
      {
        var n := rest[0];
        rest := rest[1..];
        Notify(n);
      }
      buffered := [];
    }
  }
}
