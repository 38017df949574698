/** packages/hub/server.js (onCommand, settleCommand, pruneCommandLog, onClose): a person's command is
    routed to a host at most once while it is remembered, and is settled exactly once.

    The log entry that the source keeps in two maps at once is represented by its number, the order in
    which it was routed. What was said to whom is kept beside the two maps. */
module Routing {
  import opened Wrappers

  type UserId = nat
  type CommandId = nat
  type RuntimeId = nat
  type Socket = nat
  type Fingerprint = nat
  type Ticket = nat

  /** `userId + '/' + id`: a user id holds no slash. */
  datatype Key = Key(user: UserId, id: CommandId)

  datatype Entry = Entry(key: Key, fingerprint: Fingerprint, runtime: RuntimeId, socket: Socket)

  datatype Outcome = Reported(value: nat, from: Socket) | Offline | Unpaired

  datatype Refusal = CommandIdConflict | CommandInProgress | RuntimeAuthentication

  /** `order` is the insertion order of the command log, `made` every entry ever routed. */
  datatype Hub = Hub(
    order: seq<Key>, log: map<Key, Ticket>, pending: map<CommandId, Ticket>, runtimes: map<RuntimeId, Socket>, made: seq<Entry>,
    outcomes: map<Ticket, Outcome>, waiting: set<(Ticket, Socket)>, asked: set<(Ticket, Socket)>, answered: set<(Ticket, Socket)>,
    gone: set<(Ticket, Socket)>)

  const INITIAL: Hub := Hub([], map[], map[], map[], [], map[], {}, {}, {}, {})

  datatype Reply = Nothing | Refused(code: Refusal) | Duplicate(outcome: Outcome) | RuntimeOffline

  // ---- pruning ----

  predicate Settled(log: map<Key, Ticket>, outcomes: map<Ticket, Outcome>, k: Key) { k in log && log[k] in outcomes }

  /** pruneCommandLog: the oldest settled entries go, until `excess` are gone or none is left. */
  function Kept(order: seq<Key>, log: map<Key, Ticket>, outcomes: map<Ticket, Outcome>, excess: int): seq<Key>
    decreases |order|
  {
    if order == [] || excess <= 0 then order
    else if Settled(log, outcomes, order[0]) then Kept(order[1..], log, outcomes, excess - 1)
    else [order[0]] + Kept(order[1..], log, outcomes, excess)
  }

  function Restricted(log: map<Key, Ticket>, keys: seq<Key>): map<Key, Ticket> { map k | k in log && k in keys :: log[k] }

  function PruneBy(s: Hub, excess: int): Hub {
    var kept := Kept(s.order, s.log, s.outcomes, excess);
    s.(order := kept, log := Restricted(s.log, kept))
  }

  predicate Distinct(ks: seq<Key>) { forall i, j :: 0 <= i < j < |ks| ==> ks[i] != ks[j] }

  /** What pruning leaves: nothing unsettled is dropped, and the log is small enough or all unsettled. */
  lemma {:induction false} KeptIsPruned(order: seq<Key>, log: map<Key, Ticket>, outcomes: map<Ticket, Outcome>, excess: int)
    ensures var kept := Kept(order, log, outcomes, excess);
      && (forall k :: k in kept ==> k in order)
      && (forall k :: k in order && !Settled(log, outcomes, k) ==> k in kept)
      && (excess <= 0 ==> kept == order)
      && (|order| - |kept| <= excess || kept == order)
      && (|order| - |kept| >= excess || forall k :: k in kept ==> !Settled(log, outcomes, k))
    decreases |order|
  {
    if order != [] && excess > 0 {
      var settled := Settled(log, outcomes, order[0]);
      KeptIsPruned(order[1..], log, outcomes, if settled then excess - 1 else excess);
      assert order == [order[0]] + order[1..];
    }
  }

  /** Age decides: a kept settled entry is newer than every dropped one. */
  lemma {:induction false} OldestGoFirst(order: seq<Key>, log: map<Key, Ticket>, outcomes: map<Ticket, Outcome>, excess: int, i: nat, j: nat)
    requires Distinct(order) && i < j < |order| && Settled(log, outcomes, order[i])
    requires order[j] !in Kept(order, log, outcomes, excess)
    ensures order[i] !in Kept(order, log, outcomes, excess)
    decreases |order|
  {
    var rest := order[1..];
    var settled := Settled(log, outcomes, order[0]);
    var less := if settled then excess - 1 else excess;
    assert excess > 0;
    KeptIsPruned(rest, log, outcomes, less);
    assert order[j] == rest[j - 1];
    if i == 0 {
      assert order[0] !in rest;
    } else {
      assert order[i] == rest[i - 1] && order[i] != order[0];
      assert Distinct(rest);
      OldestGoFirst(rest, log, outcomes, less, i - 1, j - 1);
    }
  }

  lemma {:induction false} KeptDistinct(order: seq<Key>, log: map<Key, Ticket>, outcomes: map<Ticket, Outcome>, excess: int)
    requires Distinct(order)
    ensures Distinct(Kept(order, log, outcomes, excess))
    decreases |order|
  {
    if order != [] && excess > 0 {
      assert Distinct(order[1..]) && order[0] !in order[1..];
      var less := if Settled(log, outcomes, order[0]) then excess - 1 else excess;
      KeptDistinct(order[1..], log, outcomes, less);
      KeptIsPruned(order[1..], log, outcomes, less);
    }
  }

  // ---- the handlers ----

  /** `ready` says whether the host's socket is open; `max` is the size the log is pruned to. */
  function Command(s: Hub, ws: Socket, key: Key, fingerprint: Fingerprint, runtime: RuntimeId, ready: bool, max: nat): (Hub, Reply) {
    if key in s.log then Repeat(s, ws, s.log[key], fingerprint)
    else if key.id in s.pending then (s, Refused(CommandInProgress))
    else if runtime in s.runtimes && ready then (Route(s, ws, Entry(key, fingerprint, runtime, s.runtimes[runtime]), max), Nothing)
    else (Forgot(PruneBy(Logged(s, key), |s.order| + 1 - max), key), RuntimeOffline)
  }

  function Repeat(s: Hub, ws: Socket, t: Ticket, fingerprint: Fingerprint): (Hub, Reply) {
    if t >= |s.made| || s.made[t].fingerprint != fingerprint then (s, Refused(CommandIdConflict))
    else if t in s.outcomes then (s, Duplicate(s.outcomes[t]))
    else (s.(waiting := s.waiting + {(t, ws)}, asked := s.asked + {(t, ws)}), Nothing)
  }

  function Route(s: Hub, ws: Socket, entry: Entry, max: nat): Hub { PruneBy(Entered(s, ws, entry), |s.order| + 1 - max) }

  function Logged(s: Hub, key: Key): Hub { s.(order := s.order + [key], log := s.log[key := |s.made|]) }

  /** The entry made and in flight, before pruning. */
  function Entered(s: Hub, ws: Socket, entry: Entry): Hub {
    var t: Ticket := |s.made|;
    Logged(s, entry.key).(pending := s.pending[entry.key.id := t], made := s.made + [entry],
                          waiting := s.waiting + {(t, ws)}, asked := s.asked + {(t, ws)})
  }

  /** `commandLog.delete(key)` of the newest entry. */
  function Forgot(s: Hub, key: Key): Hub {
    s.(order := if s.order != [] && s.order[|s.order| - 1] == key then s.order[..|s.order| - 1] else s.order, log := s.log - {key})
  }

  function Tickets(s: Hub, ids: set<CommandId>): set<Ticket> { set id | id in ids && id in s.pending :: s.pending[id] }

  function Of(pairs: set<(Ticket, Socket)>, ts: set<Ticket>): set<(Ticket, Socket)> { set p | p in pairs && p.0 in ts }

  function Recorded(outcomes: map<Ticket, Outcome>, ts: set<Ticket>, outcome: Outcome): map<Ticket, Outcome> {
    outcomes + map t | t in ts :: outcome
  }

  /** settleCommand on each of `ids`. */
  function Settle(s: Hub, ids: set<CommandId>, outcome: Outcome): Hub {
    var ts := Tickets(s, ids);
    s.(pending := s.pending - ids, outcomes := Recorded(s.outcomes, ts, outcome),
       waiting := s.waiting - Of(s.waiting, ts), answered := s.answered + Of(s.waiting, ts))
  }

  /** A socket stops waiting for what is in flight among `ts`. */
  function Dropped(s: Hub, ws: Socket, ts: set<Ticket>): Hub {
    var mine := set p | p in s.waiting && p.1 == ws && p.0 in ts;
    s.(waiting := s.waiting - mine, gone := s.gone + mine)
  }

  function SentTo(pending: map<CommandId, Ticket>, made: seq<Entry>, ws: Socket): set<CommandId> {
    set id | id in pending && pending[id] < |made| && made[pending[id]].socket == ws
  }

  function RunBy(pending: map<CommandId, Ticket>, made: seq<Entry>, runtime: RuntimeId): set<CommandId> {
    set id | id in pending && pending[id] < |made| && made[pending[id]].runtime == runtime
  }

  function Close(s: Hub, ws: Socket): Hub {
    var closed := Settle(Dropped(s, ws, s.pending.Values), SentTo(s.pending, s.made, ws), Offline);
    closed.(runtimes := map r | r in s.runtimes && s.runtimes[r] != ws :: s.runtimes[r])
  }

  function Unpair(s: Hub, runtime: RuntimeId): Hub {
    Settle(s.(runtimes := s.runtimes - {runtime}), RunBy(s.pending, s.made, runtime), Unpaired)
  }

  /** `runtime` is the one the socket `ws` authenticated as. */
  function Result(s: Hub, ws: Socket, runtime: RuntimeId, id: CommandId, value: nat): (Hub, Reply) {
    if runtime !in s.runtimes || s.runtimes[runtime] != ws then (s, Refused(RuntimeAuthentication))
    else if id !in s.pending then (s, Nothing)
    else if s.pending[id] >= |s.made| || s.made[s.pending[id]].runtime != runtime || s.made[s.pending[id]].socket != ws
    then (s, Refused(RuntimeAuthentication))
    else (Settle(s, {id}, Reported(value, ws)), Nothing)
  }

  datatype Event =
    | Commanded(ws: Socket, key: Key, fingerprint: Fingerprint, runtime: RuntimeId, ready: bool, max: nat)
    | Resulted(ws: Socket, runtime: RuntimeId, id: CommandId, value: nat)
    | Closed(ws: Socket)
    | Unpairing(runtime: RuntimeId)
    | Connected(runtime: RuntimeId, ws: Socket)
    | Removed(ws: Socket, ts: set<Ticket>)

  function Step(s: Hub, e: Event): Hub {
    match e
    case Commanded(ws, key, fingerprint, runtime, ready, max) => Command(s, ws, key, fingerprint, runtime, ready, max).0
    case Resulted(ws, runtime, id, value) => Result(s, ws, runtime, id, value).0
    case Closed(ws) => Close(s, ws)
    case Unpairing(runtime) => Unpair(s, runtime)
    case Connected(runtime, ws) => s.(runtimes := s.runtimes[runtime := ws])
    case Removed(ws, ts) => Dropped(s, ws, ts)
  }

  function Run(s: Hub, events: seq<Event>): Hub
    decreases |events|
  {
    if events == [] then s else Run(Step(s, events[0]), events[1..])
  }

  // ---- the invariant ----

  ghost predicate Remembers(s: Hub, k: Key) { k in s.log && s.log[k] < |s.made| && s.made[s.log[k]].key == k }

  ghost predicate LogInv(s: Hub) {
    Distinct(s.order) && (forall k :: k in s.order <==> k in s.log) && forall k {:trigger Remembers(s, k)} :: k in s.log ==> Remembers(s, k)
  }

  /** Id `id` is in flight as ticket `t`, and the log agrees. */
  ghost predicate InFlight(s: Hub, id: CommandId, t: Ticket) {
    && id in s.pending && s.pending[id] == t && t < |s.made| && t !in s.outcomes
    && s.made[t].key.id == id && s.made[t].key in s.log && s.log[s.made[t].key] == t
  }

  /** The two maps agree: the ids in flight are exactly the unsettled entries of the log, one each. */
  ghost predicate Bijection(s: Hub) {
    && (forall id {:trigger InFlight(s, id, s.pending[id])} :: id in s.pending ==> InFlight(s, id, s.pending[id]))
    && (forall t: Ticket {:trigger InFlight(s, s.made[t].key.id, t)} :: t < |s.made| && t !in s.outcomes ==> InFlight(s, s.made[t].key.id, t))
  }

  /** A remembered entry is the last one ever routed under its key, and results come from its own host. */
  ghost predicate Latest(s: Hub) {
    forall k, t: Ticket :: k in s.log && s.log[k] < t < |s.made| ==> s.made[t].key != k
  }

  ghost predicate Honest(s: Hub) {
    forall t :: t in s.outcomes ==> t < |s.made| && (s.outcomes[t].Reported? ==> s.outcomes[t].from == s.made[t].socket)
  }

  ghost predicate Conserved(s: Hub) {
    && s.asked == s.waiting + s.answered + s.gone
    && (forall p :: p in s.waiting ==> p.0 < |s.made| && p.0 !in s.outcomes)
    && (forall p :: p in s.answered ==> p.0 in s.outcomes)
  }

  ghost predicate Inv(s: Hub) { LogInv(s) && Bijection(s) && Latest(s) && Honest(s) && Conserved(s) }

  // ---- settling ----

  lemma SettleFlights(s: Hub, ids: set<CommandId>, outcome: Outcome)
    requires Bijection(s)
    ensures Bijection(Settle(s, ids, outcome))
  {
    var s' := Settle(s, ids, outcome);
    forall id | id in s'.pending ensures InFlight(s', id, s'.pending[id]) {
      assert InFlight(s, id, s.pending[id]);
      forall x | x in ids && x in s.pending ensures s.pending[x] != s.pending[id] { assert InFlight(s, x, s.pending[x]); }
    }
    forall t: Ticket | t < |s'.made| && t !in s'.outcomes ensures InFlight(s', s.made[t].key.id, t) {
      assert InFlight(s, s.made[t].key.id, t);
    }
  }

  lemma SettleConserves(s: Hub, ids: set<CommandId>, outcome: Outcome)
    requires Conserved(s)
    ensures Conserved(Settle(s, ids, outcome))
  {
  }

  lemma SettleKeepsInv(s: Hub, ids: set<CommandId>, outcome: Outcome)
    requires Inv(s)
    requires outcome.Reported? ==> forall id :: id in ids && id in s.pending && s.pending[id] < |s.made| ==> s.made[s.pending[id]].socket == outcome.from
    ensures Inv(Settle(s, ids, outcome))
  {
    SettleFlights(s, ids, outcome);
    SettleConserves(s, ids, outcome);
    var s' := Settle(s, ids, outcome);
    forall k | k in s'.log ensures Remembers(s', k) { assert Remembers(s, k); }
    forall id | id in ids && id in s.pending ensures s.pending[id] < |s.made| { assert InFlight(s, id, s.pending[id]); }
  }

  // ---- pruning ----

  lemma PruneKeepsLog(s: Hub, excess: int)
    requires LogInv(s)
    ensures LogInv(PruneBy(s, excess))
  {
    KeptIsPruned(s.order, s.log, s.outcomes, excess);
    KeptDistinct(s.order, s.log, s.outcomes, excess);
    var p := PruneBy(s, excess);
    forall k | k in p.log ensures Remembers(p, k) { assert Remembers(s, k); }
  }

  /** Pruning never drops a command in flight. */
  lemma PruneSparesFlights(s: Hub, excess: int)
    requires forall k :: k in s.log ==> k in s.order
    ensures forall k :: k in s.log && s.log[k] !in s.outcomes ==> k in PruneBy(s, excess).log && PruneBy(s, excess).log[k] == s.log[k]
  {
    KeptIsPruned(s.order, s.log, s.outcomes, excess);
    forall k | k in s.log && s.log[k] !in s.outcomes ensures k in PruneBy(s, excess).log {
      assert k in s.order && !Settled(s.log, s.outcomes, k);
    }
  }

  /** After pruning the log is small enough, or holds only commands in flight; a log already small enough
      is left alone. */
  lemma PruneBounds(s: Hub, max: nat)
    ensures var p := PruneBy(s, |s.order| - max);
      && (|p.order| <= max || forall k :: k in p.log ==> s.log[k] !in s.outcomes)
      && (|s.order| <= max ==> p.order == s.order)
  {
    KeptIsPruned(s.order, s.log, s.outcomes, |s.order| - max);
    var p := PruneBy(s, |s.order| - max);
    if |p.order| > max {
      forall k | k in p.log ensures s.log[k] !in s.outcomes { assert !Settled(s.log, s.outcomes, k); }
    }
  }

  lemma PruneKeepsInv(s: Hub, excess: int)
    requires Inv(s)
    ensures Inv(PruneBy(s, excess))
  {
    PruneKeepsLog(s, excess);
    PruneSparesFlights(s, excess);
    var p := PruneBy(s, excess);
    forall id | id in p.pending ensures InFlight(p, id, p.pending[id]) { assert InFlight(s, id, s.pending[id]); }
    forall t: Ticket | t < |p.made| && t !in p.outcomes ensures InFlight(p, p.made[t].key.id, t) { assert InFlight(s, s.made[t].key.id, t); }
  }

  // ---- commands ----

  lemma EnterKeepsLog(s: Hub, ws: Socket, entry: Entry)
    requires LogInv(s) && Latest(s) && entry.key !in s.log
    ensures LogInv(Entered(s, ws, entry)) && Latest(Entered(s, ws, entry))
  {
    var e := Entered(s, ws, entry);
    forall k | k in e.log ensures Remembers(e, k) { assert k in s.log ==> Remembers(s, k); }
    assert forall k :: k in s.log ==> Remembers(s, k);
  }

  lemma EnterKeepsFlights(s: Hub, ws: Socket, entry: Entry)
    requires LogInv(s) && Bijection(s) && Honest(s) && entry.key !in s.log && entry.key.id !in s.pending
    ensures Bijection(Entered(s, ws, entry))
  {
    var e := Entered(s, ws, entry);
    forall id | id in e.pending ensures InFlight(e, id, e.pending[id]) { assert id in s.pending ==> InFlight(s, id, s.pending[id]); }
    forall t: Ticket | t < |e.made| && t !in e.outcomes ensures InFlight(e, e.made[t].key.id, t) {
      assert t < |s.made| ==> InFlight(s, s.made[t].key.id, t);
    }
  }

  lemma EnterKeepsInv(s: Hub, ws: Socket, entry: Entry)
    requires Inv(s) && entry.key !in s.log && entry.key.id !in s.pending
    ensures Inv(Entered(s, ws, entry))
  {
    EnterKeepsLog(s, ws, entry);
    EnterKeepsFlights(s, ws, entry);
  }

  /** A newest entry that is not settled makes no difference to what else is kept. */
  lemma {:induction false} KeptAppend(order: seq<Key>, log: map<Key, Ticket>, outcomes: map<Ticket, Outcome>, excess: int, k: Key, t: Ticket)
    requires k !in order && t !in outcomes
    ensures Kept(order + [k], log[k := t], outcomes, excess) == Kept(order, log, outcomes, excess) + [k]
    decreases |order|
  {
    if order != [] && excess > 0 {
      var less := if Settled(log, outcomes, order[0]) then excess - 1 else excess;
      assert (order + [k])[0] == order[0] && (order + [k])[1..] == order[1..] + [k];
      KeptAppend(order[1..], log, outcomes, less, k, t);
    }
  }

  lemma RestrictedForgets(log: map<Key, Ticket>, kept: seq<Key>, key: Key, t: Ticket)
    requires key !in log
    ensures Restricted(log[key := t], kept + [key]) - {key} == Restricted(log, kept)
  {
    var x, y := Restricted(log[key := t], kept + [key]) - {key}, Restricted(log, kept);
    forall k ensures k in x <==> k in y { assert k in kept + [key] <==> k in kept || k == key; }
  }

  lemma ForgotLast(s: Hub, order: seq<Key>, key: Key)
    requires s.order == order + [key]
    ensures Forgot(s, key) == s.(order := order, log := s.log - {key})
  {
    assert (order + [key])[..|order|] == order;
  }

  /** A command that found no host leaves the log as pruning would have, to one entry less. */
  lemma OfflineIsPrune(s: Hub, key: Key, max: nat)
    requires key !in s.order && key !in s.log && |s.made| !in s.outcomes
    ensures Forgot(PruneBy(Logged(s, key), |s.order| + 1 - max), key) == PruneBy(s, |s.order| + 1 - max)
  {
    var excess := |s.order| + 1 - max;
    var kept := Kept(s.order, s.log, s.outcomes, excess);
    KeptAppend(s.order, s.log, s.outcomes, excess, key, |s.made|);
    ForgotLast(PruneBy(Logged(s, key), |s.order| + 1 - max), kept, key);
    RestrictedForgets(s.log, kept, key, |s.made|);
  }

  lemma OfflineKeepsInv(s: Hub, key: Key, max: nat)
    requires Inv(s) && key !in s.log
    ensures Inv(Forgot(PruneBy(Logged(s, key), |s.order| + 1 - max), key))
  {
    var excess := |s.order| + 1 - max;
    assert key !in s.order && |s.made| !in s.outcomes;
    PruneKeepsInv(s, excess);
    OfflineIsPrune(s, key, max);
  }

  lemma RouteKeepsInv(s: Hub, ws: Socket, entry: Entry, max: nat)
    requires Inv(s) && entry.key !in s.log && entry.key.id !in s.pending
    ensures Inv(Route(s, ws, entry, max))
  {
    var e := Entered(s, ws, entry);
    EnterKeepsInv(s, ws, entry);
    PruneKeepsInv(e, |s.order| + 1 - max);
  }

  lemma RepeatKeepsInv(s: Hub, ws: Socket, t: Ticket, fingerprint: Fingerprint)
    requires Inv(s)
    ensures Inv(Repeat(s, ws, t, fingerprint).0)
  {
    FlightsIgnoreTheRest(s, Repeat(s, ws, t, fingerprint).0);
  }

  lemma UnknownCommandKeepsInv(s: Hub, ws: Socket, key: Key, fingerprint: Fingerprint, runtime: RuntimeId, ready: bool, max: nat, next: Hub)
    requires Inv(s) && key !in s.log && next == Command(s, ws, key, fingerprint, runtime, ready, max).0
    ensures Inv(next)
  {
    if key.id in s.pending {
      assert next == s;
    } else if runtime in s.runtimes && ready {
      var entry := Entry(key, fingerprint, runtime, s.runtimes[runtime]);
      assert next == Route(s, ws, entry, max);
      RouteKeepsInv(s, ws, entry, max);
    } else {
      assert next == Forgot(PruneBy(Logged(s, key), |s.order| + 1 - max), key);
      OfflineKeepsInv(s, key, max);
    }
  }

  lemma CommandKeepsInv(s: Hub, ws: Socket, key: Key, fingerprint: Fingerprint, runtime: RuntimeId, ready: bool, max: nat)
    requires Inv(s)
    ensures Inv(Command(s, ws, key, fingerprint, runtime, ready, max).0)
  {
    var next := Command(s, ws, key, fingerprint, runtime, ready, max).0;
    if key in s.log {
      assert next == Repeat(s, ws, s.log[key], fingerprint).0;
      RepeatKeepsInv(s, ws, s.log[key], fingerprint);
    } else {
      UnknownCommandKeepsInv(s, ws, key, fingerprint, runtime, ready, max, next);
    }
  }

  lemma ResultKeepsInv(s: Hub, ws: Socket, runtime: RuntimeId, id: CommandId, value: nat)
    requires Inv(s)
    ensures Inv(Result(s, ws, runtime, id, value).0)
  {
    if id in s.pending && s.pending[id] < |s.made| && s.made[s.pending[id]].socket == ws { SettleKeepsInv(s, {id}, Reported(value, ws)); }
  }

  lemma CloseKeepsInv(s: Hub, ws: Socket)
    requires Inv(s)
    ensures Inv(Close(s, ws))
  {
    DropKeepsInv(s, ws, s.pending.Values);
    var closed := Settle(Dropped(s, ws, s.pending.Values), SentTo(s.pending, s.made, ws), Offline);
    SettleKeepsInv(Dropped(s, ws, s.pending.Values), SentTo(s.pending, s.made, ws), Offline);
    RuntimesAreFree(closed, Close(s, ws).runtimes);
  }

  lemma UnpairKeepsInv(s: Hub, runtime: RuntimeId)
    requires Inv(s)
    ensures Inv(Unpair(s, runtime))
  {
    RuntimesAreFree(s, s.runtimes - {runtime});
    SettleKeepsInv(s.(runtimes := s.runtimes - {runtime}), RunBy(s.pending, s.made, runtime), Unpaired);
  }

  lemma StepKeepsInv(s: Hub, e: Event)
    requires Inv(s)
    ensures Inv(Step(s, e))
  {
    match e
    case Commanded(ws, key, fingerprint, runtime, ready, max) => CommandKeepsInv(s, ws, key, fingerprint, runtime, ready, max);
    case Resulted(ws, runtime, id, value) => ResultKeepsInv(s, ws, runtime, id, value);
    case Closed(ws) => CloseKeepsInv(s, ws);
    case Unpairing(runtime) => UnpairKeepsInv(s, runtime);
    case Connected(runtime, ws) => RuntimesAreFree(s, s.runtimes[runtime := ws]);
    case Removed(ws, ts) => DropKeepsInv(s, ws, ts);
  }

  lemma DropKeepsInv(s: Hub, ws: Socket, ts: set<Ticket>)
    requires Inv(s)
    ensures Inv(Dropped(s, ws, ts))
  {
    FlightsIgnoreTheRest(s, Dropped(s, ws, ts));
  }

  lemma RuntimesAreFree(s: Hub, runtimes: map<RuntimeId, Socket>)
    requires Inv(s)
    ensures Inv(s.(runtimes := runtimes))
  {
    FlightsIgnoreTheRest(s, s.(runtimes := runtimes));
  }

  lemma FlightsIgnoreTheRest(s: Hub, s': Hub)
    requires Bijection(s) && LogInv(s) && (s'.order, s'.log, s'.pending, s'.made, s'.outcomes) == (s.order, s.log, s.pending, s.made, s.outcomes)
    ensures Bijection(s') && LogInv(s')
  {
    forall id | id in s'.pending ensures InFlight(s', id, s'.pending[id]) { assert InFlight(s, id, s.pending[id]); }
    forall t: Ticket | t < |s'.made| && t !in s'.outcomes ensures InFlight(s', s'.made[t].key.id, t) { assert InFlight(s, s.made[t].key.id, t); }
    forall k | k in s'.log ensures Remembers(s', k) { assert Remembers(s, k); }
  }

  lemma {:induction false} RunKeepsInv(s: Hub, events: seq<Event>)
    requires Inv(s)
    ensures Inv(Run(s, events))
    decreases |events|
  {
    if events != [] {
      StepKeepsInv(s, events[0]);
      RunKeepsInv(Step(s, events[0]), events[1..]);
    }
  }

  // ---- the claims ----

  /** A command is routed a second time only after its first routing was settled and forgotten. */
  lemma RoutedOnceWhileRemembered(events: seq<Event>, i: Ticket, j: Ticket)
    requires i < j < |Run(INITIAL, events).made| && Run(INITIAL, events).made[i].key == Run(INITIAL, events).made[j].key
    ensures var s := Run(INITIAL, events);
      i in s.outcomes && (s.made[i].key in s.log ==> s.log[s.made[i].key] >= j)
  {
    RunKeepsInv(INITIAL, events);
    var s := Run(INITIAL, events);
    assert i in s.outcomes || InFlight(s, s.made[i].key.id, i);
  }

  /** At the step that routes it again, every earlier routing of the command has been settled and is no longer
      remembered; no step routes more than one. */
  lemma RoutedAgainOnlyWhenForgotten(events: seq<Event>, e: Event, i: Ticket)
    requires i < |Run(INITIAL, events).made| < |Step(Run(INITIAL, events), e).made|
    requires var s' := Step(Run(INITIAL, events), e); s'.made[i].key == s'.made[|s'.made| - 1].key
    ensures var s := Run(INITIAL, events);
      |Step(s, e).made| == |s.made| + 1 && i in s.outcomes && s.made[i].key !in s.log
  {
    RunKeepsInv(INITIAL, events);
    var s := Run(INITIAL, events);
    assert i in s.outcomes || InFlight(s, s.made[i].key.id, i);
  }

  /** The ids in flight and the unsettled entries of the log correspond one to one. */
  lemma FlightsAreUnsettled(events: seq<Event>, k: Key)
    ensures var s := Run(INITIAL, events);
      (k in s.log && s.log[k] !in s.outcomes) <==> (k.id in s.pending && s.pending[k.id] < |s.made| && s.made[s.pending[k.id]].key == k)
  {
    RunKeepsInv(INITIAL, events);
    var s := Run(INITIAL, events);
    if k in s.log && s.log[k] !in s.outcomes {
      assert Remembers(s, k);
      assert InFlight(s, s.made[s.log[k]].key.id, s.log[k]);
    }
    if k.id in s.pending { assert InFlight(s, k.id, s.pending[k.id]); }
  }

  /** Whoever asked about a settled command was told its outcome, unless its socket closed or its person
      was removed; whoever is not, is still waiting. A reported outcome came from the host it was sent to. */
  lemma EveryAskerIsAnswered(events: seq<Event>, t: Ticket, ws: Socket)
    requires (t, ws) in Run(INITIAL, events).asked
    ensures var s := Run(INITIAL, events);
      && (t in s.outcomes ==> (t, ws) in s.answered || (t, ws) in s.gone)
      && (t !in s.outcomes ==> (t, ws) !in s.answered && ((t, ws) in s.waiting || (t, ws) in s.gone))
      && (t in s.outcomes && s.outcomes[t].Reported? ==> t < |s.made| && s.outcomes[t].from == s.made[t].socket)
  {
    RunKeepsInv(INITIAL, events);
  }

  ghost predicate Stand(s: Hub, s': Hub) {
    forall t :: t in s.outcomes ==> t in s'.outcomes && s'.outcomes[t] == s.outcomes[t]
  }

  lemma SettleStands(s: Hub, ids: set<CommandId>, outcome: Outcome)
    requires Bijection(s)
    ensures Stand(s, Settle(s, ids, outcome))
  {
    forall id | id in ids && id in s.pending ensures s.pending[id] !in s.outcomes { assert InFlight(s, id, s.pending[id]); }
  }

  lemma StepStands(s: Hub, e: Event)
    requires Inv(s)
    ensures Stand(s, Step(s, e))
  {
    match e
    case Resulted(ws, _, id, value) => SettleStands(s, {id}, Reported(value, ws));
    case Closed(ws) =>
      FlightsIgnoreTheRest(s, Dropped(s, ws, s.pending.Values));
      SettleStands(Dropped(s, ws, s.pending.Values), SentTo(s.pending, s.made, ws), Offline);
    case Unpairing(runtime) =>
      FlightsIgnoreTheRest(s, s.(runtimes := s.runtimes - {runtime}));
      SettleStands(s.(runtimes := s.runtimes - {runtime}), RunBy(s.pending, s.made, runtime), Unpaired);
    case _ =>
  }

  /** An outcome once given is never replaced. */
  lemma {:induction false} SettledOnce(s: Hub, events: seq<Event>)
    requires Inv(s)
    ensures Stand(s, Run(s, events))
    decreases |events|
  {
    if events != [] {
      StepStands(s, events[0]);
      StepKeepsInv(s, events[0]);
      SettledOnce(Step(s, events[0]), events[1..]);
    }
  }

  // ---- what each step does, in terms of what was routed ----

  ghost predicate Running(s: Hub, t: Ticket) { t < |s.made| && t !in s.outcomes }

  /** What ends a running command, and how: the report of its own host, over the very connection it was sent
      on, which is still that host's; the loss of that connection; or the host's removal. */
  ghost predicate EndedBy(s: Hub, e: Event, t: Ticket, outcome: Outcome)
    requires t < |s.made|
  {
    match e
    case Resulted(ws, runtime, id, value) =>
      && s.made[t].key.id == id && s.made[t].runtime == runtime && s.made[t].socket == ws
      && runtime in s.runtimes && s.runtimes[runtime] == ws && outcome == Reported(value, ws)
    case Closed(ws) => s.made[t].socket == ws && outcome == Offline
    case Unpairing(runtime) => s.made[t].runtime == runtime && outcome == Unpaired
    case _ => false
  }

  lemma InFlightIsRunning(s: Hub, id: CommandId, t: Ticket)
    requires Bijection(s)
    ensures id in s.pending && s.pending[id] == t <==> Running(s, t) && s.made[t].key.id == id
  {
    if id in s.pending { assert InFlight(s, id, s.pending[id]); }
    if Running(s, t) { assert InFlight(s, s.made[t].key.id, t); }
  }

  lemma SettledAmong(s: Hub, ids: set<CommandId>, outcome: Outcome, t: Ticket)
    requires Bijection(s) && t !in s.outcomes
    ensures t in Settle(s, ids, outcome).outcomes <==> Running(s, t) && s.made[t].key.id in ids
    ensures t in Settle(s, ids, outcome).outcomes ==> Settle(s, ids, outcome).outcomes[t] == outcome
  {
    if t < |s.made| { InFlightIsRunning(s, s.made[t].key.id, t); }
    if t in Tickets(s, ids) {
      var id :| id in ids && id in s.pending && s.pending[id] == t;
      InFlightIsRunning(s, id, t);
    }
  }

  lemma SentToIsRunning(s: Hub, ws: Socket, runtime: RuntimeId, t: Ticket)
    requires Bijection(s) && Running(s, t)
    ensures s.made[t].key.id in SentTo(s.pending, s.made, ws) <==> s.made[t].socket == ws
    ensures s.made[t].key.id in RunBy(s.pending, s.made, runtime) <==> s.made[t].runtime == runtime
  {
    InFlightIsRunning(s, s.made[t].key.id, t);
  }

  /** A command is settled at exactly those steps, with exactly that outcome. */
  lemma SettledExactly(s: Hub, e: Event, t: Ticket, outcome: Outcome)
    requires Inv(s) && t !in s.outcomes
    ensures t in Step(s, e).outcomes && Step(s, e).outcomes[t] == outcome <==> Running(s, t) && EndedBy(s, e, t, outcome)
  {
    match e
    case Resulted(ws, runtime, id, value) =>
      if id in s.pending { InFlightIsRunning(s, id, s.pending[id]); }
      if Running(s, t) { InFlightIsRunning(s, s.made[t].key.id, t); }
      SettledAmong(s, {id}, Reported(value, ws), t);
    case Closed(ws) =>
      var d := Dropped(s, ws, s.pending.Values);
      FlightsIgnoreTheRest(s, d);
      SettledAmong(d, SentTo(s.pending, s.made, ws), Offline, t);
      if Running(s, t) { SentToIsRunning(s, ws, 0, t); }
    case Unpairing(runtime) =>
      var d := s.(runtimes := s.runtimes - {runtime});
      FlightsIgnoreTheRest(s, d);
      SettledAmong(d, RunBy(s.pending, s.made, runtime), Unpaired, t);
      if Running(s, t) { SentToIsRunning(s, 0, runtime, t); }
    case _ =>
  }

  /** A report is refused exactly when it does not come from the current connection of the host it names, or
      is about a running command sent elsewhere; about a command that is not running it is ignored. */
  lemma ResultAnswers(s: Hub, ws: Socket, runtime: RuntimeId, id: CommandId, value: nat)
    requires Inv(s)
    ensures Result(s, ws, runtime, id, value).1 == Refused(RuntimeAuthentication) || Result(s, ws, runtime, id, value).1 == Nothing
    ensures Result(s, ws, runtime, id, value).1.Refused? <==>
      || !(runtime in s.runtimes && s.runtimes[runtime] == ws)
      || exists t: Ticket :: Running(s, t) && s.made[t].key.id == id && (s.made[t].runtime != runtime || s.made[t].socket != ws)
  {
    if id in s.pending { InFlightIsRunning(s, id, s.pending[id]); }
    forall t: Ticket | Running(s, t) && s.made[t].key.id == id ensures id in s.pending && s.pending[id] == t { InFlightIsRunning(s, id, t); }
  }

  /** Nothing remembered has this key, and no running command has its id. */
  ghost predicate IsNew(s: Hub, key: Key) { key !in s.log && forall t: Ticket :: Running(s, t) ==> s.made[t].key.id != key.id }

  lemma NewIsNotPending(s: Hub, key: Key)
    requires Bijection(s)
    ensures IsNew(s, key) <==> key !in s.log && key.id !in s.pending
  {
    if key.id in s.pending { InFlightIsRunning(s, key.id, s.pending[key.id]); }
    forall t: Ticket | Running(s, t) && s.made[t].key.id == key.id ensures key.id in s.pending { InFlightIsRunning(s, key.id, t); }
  }

  /** What a command is answered at once, if at all. A remembered one asked again with the same input is given
      its outcome, with other input refused; a new one whose id is in use is refused; and one for a host that
      is not there is told so. */
  ghost predicate AnsweredAtOnce(s: Hub, key: Key, fingerprint: Fingerprint, runtime: RuntimeId, ready: bool, reply: Reply) {
    var same := key in s.log && s.log[key] < |s.made| && s.made[s.log[key]].fingerprint == fingerprint;
    match reply
    case Duplicate(outcome) => same && s.log[key] in s.outcomes && s.outcomes[s.log[key]] == outcome
    case Refused(code) =>
      if key in s.log then !same && code == CommandIdConflict else !IsNew(s, key) && code == CommandInProgress
    case RuntimeOffline => IsNew(s, key) && !(ready && runtime in s.runtimes)
    case Nothing => (same && s.log[key] !in s.outcomes) || (IsNew(s, key) && ready && runtime in s.runtimes)
  }

  lemma CommandAnswers(s: Hub, ws: Socket, key: Key, fingerprint: Fingerprint, runtime: RuntimeId, ready: bool, max: nat, reply: Reply)
    requires Inv(s)
    ensures Command(s, ws, key, fingerprint, runtime, ready, max).1 == reply <==> AnsweredAtOnce(s, key, fingerprint, runtime, ready, reply)
  {
    NewIsNotPending(s, key);
  }

  /** A command is routed if and only if it is new and its host is there; it is sent to that host's current
      connection, remembered, and whoever sent it waits. No other step routes anything. */
  lemma RoutesExactly(s: Hub, e: Event)
    requires Inv(s)
    ensures var s' := Step(s, e);
      if e.Commanded? && IsNew(s, e.key) && e.ready && e.runtime in s.runtimes
      then && s'.made == s.made + [Entry(e.key, e.fingerprint, e.runtime, s.runtimes[e.runtime])]
           && e.key in s'.log && s'.log[e.key] == |s.made|
           && s'.waiting == s.waiting + {(|s.made|, e.ws)} && s'.asked == s.asked + {(|s.made|, e.ws)}
           && (|s'.order| <= e.max || forall k :: k in s'.log ==> s'.log[k] !in s'.outcomes)
      else s'.made == s.made
  {
    if e.Commanded? {
      NewIsNotPending(s, e.key);
      if IsNew(s, e.key) && e.ready && e.runtime in s.runtimes {
        var entry := Entry(e.key, e.fingerprint, e.runtime, s.runtimes[e.runtime]);
        assert Step(s, e) == Route(s, e.ws, entry, e.max);
        RouteEnters(s, e.ws, entry, e.max);
      }
    }
  }

  lemma RouteEnters(s: Hub, ws: Socket, entry: Entry, max: nat)
    requires LogInv(s) && Honest(s)
    ensures var s' := Route(s, ws, entry, max);
      && s'.made == s.made + [entry] && entry.key in s'.log && s'.log[entry.key] == |s.made|
      && s'.waiting == s.waiting + {(|s.made|, ws)} && s'.asked == s.asked + {(|s.made|, ws)}
      && (|s'.order| <= max || forall k :: k in s'.log ==> s'.log[k] !in s'.outcomes)
  {
    var entered := Entered(s, ws, entry);
    EnteredIsLogged(s, ws, entry);
    PruneKeepsRunning(entered, |s.order| + 1 - max, entry.key);
    PruneWithin(entered, max);
  }

  lemma EnteredIsLogged(s: Hub, ws: Socket, entry: Entry)
    requires LogInv(s) && Honest(s)
    ensures var e := Entered(s, ws, entry);
      && (forall k :: k in e.log ==> k in e.order) && |e.order| == |s.order| + 1
      && e.log[entry.key] == |s.made| && |s.made| !in e.outcomes
  {
  }

  lemma PruneKeepsRunning(s: Hub, excess: int, k: Key)
    requires (forall x :: x in s.log ==> x in s.order) && k in s.log && s.log[k] !in s.outcomes
    ensures var p := PruneBy(s, excess);
      k in p.log && p.log[k] == s.log[k] && p.made == s.made && p.waiting == s.waiting && p.asked == s.asked
  {
    PruneSparesFlights(s, excess);
  }

  lemma PruneWithin(s: Hub, max: nat)
    ensures var p := PruneBy(s, |s.order| - max); |p.order| <= max || forall k :: k in p.log ==> p.log[k] !in p.outcomes
  {
    PruneBounds(s, max);
  }

  /** Nobody else is made to wait but one who repeats a running command with the same input. */
  lemma AsksExactly(s: Hub, e: Event, t: Ticket, ws: Socket)
    requires Inv(s) && t < |s.made|
    ensures (t, ws) in Step(s, e).asked <==>
      || (t, ws) in s.asked
      || (e.Commanded? && e.ws == ws && e.key in s.log && s.log[e.key] == t && s.made[t].fingerprint == e.fingerprint && t !in s.outcomes)
  {
  }

  /** Whoever waits is told at the very step that settles the command, unless it is its own connection that
      closes; and stops waiting untold only then, or when its person is removed. */
  lemma ToldExactly(s: Hub, e: Event, t: Ticket, ws: Socket)
    requires Inv(s) && (t, ws) in s.waiting
    ensures var s' := Step(s, e);
      var leaves := (e.Closed? && e.ws == ws) || (e.Removed? && e.ws == ws && t in e.ts);
      && ((t, ws) in s'.gone <==> leaves || (t, ws) in s.gone)
      && (!leaves ==> ((t, ws) in s'.answered <==> t in s'.outcomes || (t, ws) in s.answered) && ((t, ws) in s'.waiting <==> t !in s'.outcomes))
      && (leaves ==> (t, ws) !in s'.waiting)
  {
    StepKeepsInv(s, e);
    assert Running(s, t) && InFlight(s, s.made[t].key.id, t);
    match e
    case Closed(c) =>
      var d := Dropped(s, c, s.pending.Values);
      assert s.pending[s.made[t].key.id] == t && t in s.pending.Values;
      assert (t, ws) in d.waiting <==> c != ws;
    case _ =>
  }

  /** A host's connection is the last one it opened that has not closed, while it is paired. */
  lemma ConnectedExactly(s: Hub, e: Event, runtime: RuntimeId, ws: Socket)
    ensures runtime in Step(s, e).runtimes && Step(s, e).runtimes[runtime] == ws <==>
      if e.Connected? && e.runtime == runtime then e.ws == ws
      else runtime in s.runtimes && s.runtimes[runtime] == ws && !(e.Closed? && e.ws == ws) && !(e.Unpairing? && e.runtime == runtime)
  {
  }

  /** Only a new command makes the log forget anything, and then only settled ones, oldest first, and none at
      all while it is within its limit. */
  lemma ForgetsOnlySettled(s: Hub, e: Event, k: Key)
    requires Inv(s) && k in s.log && !(k in Step(s, e).log && Step(s, e).log[k] == s.log[k])
    ensures e.Commanded? && IsNew(s, e.key) && s.log[k] in s.outcomes && |s.order| + 1 > e.max
  {
    if e.Commanded? {
      NewIsNotPending(s, e.key);
      if IsNew(s, e.key) { NewForgets(s, e.ws, e.key, e.fingerprint, e.runtime, e.ready, e.max, k); }
    }
  }

  lemma NewForgets(s: Hub, ws: Socket, key: Key, fingerprint: Fingerprint, runtime: RuntimeId, ready: bool, max: nat, k: Key)
    requires Inv(s) && IsNew(s, key) && k in s.log
    ensures var log := Command(s, ws, key, fingerprint, runtime, ready, max).0.log;
      (k in log && log[k] == s.log[k]) || (s.log[k] in s.outcomes && |s.order| + 1 > max)
  {
    NewIsNotPending(s, key);
    if ready && runtime in s.runtimes {
      RouteForgets(s, ws, Entry(key, fingerprint, runtime, s.runtimes[runtime]), max, k);
    } else {
      OfflineForgets(s, key, max, k);
    }
  }

  lemma OfflineForgets(s: Hub, key: Key, max: nat, k: Key)
    requires LogInv(s) && Honest(s) && key !in s.log && k in s.log
    ensures var log := Forgot(PruneBy(Logged(s, key), |s.order| + 1 - max), key).log;
      (k in log && log[k] == s.log[k]) || (s.log[k] in s.outcomes && |s.order| + 1 > max)
  {
    assert |s.made| !in s.outcomes && key !in s.order;
    OfflineIsPrune(s, key, max);
    ForgottenIsSettled(s, |s.order| + 1 - max, k);
  }

  lemma RouteForgets(s: Hub, ws: Socket, entry: Entry, max: nat, k: Key)
    requires LogInv(s) && Latest(s) && entry.key !in s.log && entry.key.id !in s.pending && k in s.log
    ensures var log := Route(s, ws, entry, max).log; (k in log && log[k] == s.log[k]) || (s.log[k] in s.outcomes && |s.order| + 1 > max)
  {
    EnterKeepsLog(s, ws, entry);
    ForgottenIsSettled(Entered(s, ws, entry), |s.order| + 1 - max, k);
  }

  lemma ForgottenIsSettled(s: Hub, excess: int, k: Key)
    requires LogInv(s) && k in s.log
    ensures var p := PruneBy(s, excess); (k in p.log && p.log[k] == s.log[k]) || (s.log[k] in s.outcomes && excess > 0)
  {
    PruneSparesFlights(s, excess);
    KeptIsPruned(s.order, s.log, s.outcomes, excess);
  }

  // ---- the hub ----

  lemma TicketsMore(s: Hub, s1: Hub, ids: set<CommandId>, id: CommandId)
    requires s1.pending == s.pending - ids
    ensures Tickets(s, ids + {id}) == Tickets(s, ids) + Tickets(s1, {id})
  {
    var x, y := Tickets(s, ids + {id}), Tickets(s, ids) + Tickets(s1, {id});
    forall t | t in x ensures t in y {
      var i :| i in ids + {id} && i in s.pending && s.pending[i] == t;
      assert i in ids || (i in s1.pending && s1.pending[i] == t);
    }
    forall t | t in Tickets(s1, {id}) ensures t in x { assert id in s.pending && s.pending[id] == t; }
  }

  lemma RecordedMore(outcomes: map<Ticket, Outcome>, ts: set<Ticket>, more: set<Ticket>, outcome: Outcome)
    ensures Recorded(Recorded(outcomes, ts, outcome), more, outcome) == Recorded(outcomes, ts + more, outcome)
  {
  }

  lemma OfMore(pairs: set<(Ticket, Socket)>, ts: set<Ticket>, more: set<Ticket>)
    ensures pairs - Of(pairs, ts) - Of(pairs - Of(pairs, ts), more) == pairs - Of(pairs, ts + more)
    ensures Of(pairs, ts) + Of(pairs - Of(pairs, ts), more) == Of(pairs, ts + more)
  {
  }

  /** Settling one more. */
  lemma SettleMore(s: Hub, ids: set<CommandId>, id: CommandId, outcome: Outcome)
    ensures Settle(Settle(s, ids, outcome), {id}, outcome) == Settle(s, ids + {id}, outcome)
  {
    var s1 := Settle(s, ids, outcome);
    var ts, more := Tickets(s, ids), Tickets(s1, {id});
    TicketsMore(s, s1, ids, id);
    RecordedMore(s.outcomes, ts, more, outcome);
    OfMore(s.waiting, ts, more);
    assert s.answered + Of(s.waiting, ts) + Of(s1.waiting, more) == s.answered + (Of(s.waiting, ts) + Of(s1.waiting, more));
    assert s.pending - ids - {id} == s.pending - (ids + {id});
  }

  lemma SettleOne(s: Hub, id: CommandId, outcome: Outcome)
    ensures Settle(s, {id}, outcome) ==
      if id !in s.pending then s
      else s.(pending := s.pending - {id}, outcomes := s.outcomes[s.pending[id] := outcome],
              waiting := s.waiting - Of(s.waiting, {s.pending[id]}), answered := s.answered + Of(s.waiting, {s.pending[id]}))
  {
    var ts := if id in s.pending then {s.pending[id]} else {};
    assert Tickets(s, {id}) == ts;
    assert Recorded(s.outcomes, ts, outcome) == if id in s.pending then s.outcomes[s.pending[id] := outcome] else s.outcomes;
    assert id in s.pending || (Of(s.waiting, ts) == {} && s.pending - {id} == s.pending);
  }

  /** The pruning loop has decided on `kept` and not yet on `rest`. */
  ghost predicate Pruning(was: Hub, max: nat, kept: seq<Key>, rest: seq<Key>, log: map<Key, Ticket>) {
    && Distinct(kept + rest) && log == Restricted(was.log, kept + rest)
    && Kept(was.order, was.log, was.outcomes, |was.order| - max) == kept + Kept(rest, was.log, was.outcomes, |kept + rest| - max)
  }

  lemma DropMiddle(a: seq<Key>, k: Key, b: seq<Key>)
    requires Distinct(a + [k] + b)
    ensures Distinct(a + b) && k !in a + b
  {
    var all := a + [k] + b;
    assert forall i :: 0 <= i < |a + b| ==> (a + b)[i] == all[if i < |a| then i else i + 1];
    assert all[|a|] == k;
  }

  lemma RestrictedDrop(log: map<Key, Ticket>, a: seq<Key>, k: Key, b: seq<Key>)
    requires k !in a + b
    ensures Restricted(log, a + [k] + b) - {k} == Restricted(log, a + b)
  {
    forall x ensures x in a + [k] + b <==> x in a + b || x == k { }
  }

  lemma PruneDrops(was: Hub, max: nat, kept: seq<Key>, rest: seq<Key>, log: map<Key, Ticket>)
    requires Pruning(was, max, kept, rest, log) && rest != [] && |kept + rest| > max && Settled(was.log, was.outcomes, rest[0])
    ensures Pruning(was, max, kept, rest[1..], log - {rest[0]})
  {
    var k := rest[0];
    assert kept + rest == kept + [k] + rest[1..];
    DropMiddle(kept, k, rest[1..]);
    RestrictedDrop(was.log, kept, k, rest[1..]);
  }

  lemma PruneKeeps(was: Hub, max: nat, kept: seq<Key>, rest: seq<Key>, log: map<Key, Ticket>)
    requires Pruning(was, max, kept, rest, log) && rest != [] && |kept + rest| > max && !Settled(was.log, was.outcomes, rest[0])
    ensures Pruning(was, max, kept + [rest[0]], rest[1..], log)
  {
    var k := rest[0];
    var more := Kept(rest[1..], was.log, was.outcomes, |kept + rest| - max);
    assert kept + rest == kept + [k] + rest[1..] && kept + ([k] + more) == kept + [k] + more;
  }

  lemma PruneStep(was: Hub, max: nat, kept: seq<Key>, rest: seq<Key>, log: map<Key, Ticket>)
    requires Pruning(was, max, kept, rest, log) && rest != [] && |kept + rest| > max
    ensures if Settled(log, was.outcomes, rest[0]) then Pruning(was, max, kept, rest[1..], log - {rest[0]})
      else Pruning(was, max, kept + [rest[0]], rest[1..], log)
  {
    assert rest[0] in kept + rest;
    if Settled(was.log, was.outcomes, rest[0]) { PruneDrops(was, max, kept, rest, log); } else { PruneKeeps(was, max, kept, rest, log); }
  }

  function PrunedFrom(kept: seq<Key>, rest: seq<Key>, log: map<Key, Ticket>, outcomes: map<Ticket, Outcome>, max: nat): (seq<Key>, map<Key, Ticket>)
    decreases |rest|
  {
    if rest == [] || |kept| + |rest| <= max then (kept + rest, log)
    else if Settled(log, outcomes, rest[0]) then PrunedFrom(kept, rest[1..], log - {rest[0]}, outcomes, max)
    else PrunedFrom(kept + [rest[0]], rest[1..], log, outcomes, max)
  }

  /** Deleting entry by entry while the log is too large is keeping what Kept keeps. */
  lemma {:induction false} PrunedFromIsKept(was: Hub, max: nat, kept: seq<Key>, rest: seq<Key>, log: map<Key, Ticket>)
    requires Pruning(was, max, kept, rest, log)
    ensures PrunedFrom(kept, rest, log, was.outcomes, max) == (PruneBy(was, |was.order| - max).order, PruneBy(was, |was.order| - max).log)
    decreases |rest|
  {
    if rest != [] && |kept + rest| > max {
      PruneStep(was, max, kept, rest, log);
      if Settled(log, was.outcomes, rest[0]) { PrunedFromIsKept(was, max, kept, rest[1..], log - {rest[0]}); }
      else { PrunedFromIsKept(was, max, kept + [rest[0]], rest[1..], log); }
    }
  }

  lemma RestrictedAll(log: map<Key, Ticket>, order: seq<Key>)
    requires forall k :: k in log ==> k in order
    ensures Restricted(log, order) == log
  {
  }

  lemma PruningStarts(s: Hub, max: nat)
    requires Distinct(s.order) && Restricted(s.log, s.order) == s.log
    ensures Pruning(s, max, [], s.order, s.log)
  {
    var kept := Kept(s.order, s.log, s.outcomes, |s.order| - max);
    assert [] + s.order == s.order && [] + kept == kept;
  }

  lemma PruneStart(s: Hub, max: nat, p: Hub)
    requires Distinct(s.order) && Restricted(s.log, s.order) == s.log && p == PruneBy(s, |s.order| - max)
    ensures (p.order, p.log) == PrunedFrom([], s.order, s.log, s.outcomes, max)
  {
    PruningStarts(s, max);
    PrunedFromIsKept(s, max, [], s.order, s.log);
  }

  class Router {
    var order: seq<Key>
    var log: map<Key, Ticket>
    var pending: map<CommandId, Ticket>
    var runtimes: map<RuntimeId, Socket>
    var made: seq<Entry>
    var outcomes: map<Ticket, Outcome>
    var waiting: set<(Ticket, Socket)>
    ghost var asked: set<(Ticket, Socket)>
    ghost var answered: set<(Ticket, Socket)>
    ghost var gone: set<(Ticket, Socket)>

    ghost function State(): Hub
      reads this
    {
      Hub(order, log, pending, runtimes, made, outcomes, waiting, asked, answered, gone)
    }

    constructor ()
      ensures State() == INITIAL
    {
      order, log, pending, runtimes, made, outcomes, waiting := [], map[], map[], map[], [], map[], {};
      asked, answered, gone := {}, {}, {};
    }

    method SettleCommand(id: CommandId, outcome: Outcome)
      modifies this`pending, this`outcomes, this`waiting, this`answered
      ensures State() == Settle(old(State()), {id}, outcome)
    {
      SettleOne(State(), id, outcome);
      if id !in pending { return; }
      var t := pending[id];
      pending := pending - {id};
      outcomes := outcomes[t := outcome];
      answered := answered + Of(waiting, {t});
      waiting := waiting - Of(waiting, {t});
    }

    method SettleEach(ids: set<CommandId>, outcome: Outcome)
      modifies this`pending, this`outcomes, this`waiting, this`answered
      ensures State() == Settle(old(State()), ids, outcome)
    {
      var rest := ids;
      ghost var settled: set<CommandId> := {};
      ghost var before := State();
      assert before == Settle(before, {}, outcome);
      while rest != {}
        invariant settled + rest == ids && State() == Settle(before, settled, outcome)
        decreases rest
      {
        var id :| id in rest;
        SettleMore(before, settled, id, outcome);
        SettleCommand(id, outcome);
        rest, settled := rest - {id}, settled + {id};
      }
      assert settled == ids;
    }

    method PruneCommandLog(max: nat)
      modifies this`order, this`log
      ensures (order, log) == PrunedFrom([], old(order), old(log), outcomes, max)
    {
      var kept: seq<Key>, rest := [], order;
      while rest != [] && |kept| + |rest| > max
        invariant PrunedFrom(kept, rest, log, outcomes, max) == PrunedFrom([], old(order), old(log), outcomes, max)
        decreases |rest|
      {
        var k := rest[0];
        rest := rest[1..];
        if k in log && log[k] in outcomes { log := log - {k}; } else { kept := kept + [k]; }
      }
      order := kept + rest;
    }

    method RepeatCommand(ws: Socket, t: Ticket, fingerprint: Fingerprint) returns (reply: Reply)
      modifies this`waiting, this`asked
      ensures (State(), reply) == Repeat(old(State()), ws, t, fingerprint)
    {
      if t >= |made| || made[t].fingerprint != fingerprint { return Refused(CommandIdConflict); }
      if t in outcomes { return Duplicate(outcomes[t]); }
      waiting, asked := waiting + {(t, ws)}, asked + {(t, ws)};
      reply := Nothing;
    }

    method LogEntry(key: Key, max: nat)
      requires Distinct(order) && (forall k :: k in order <==> k in log) && key !in log
      modifies this`order, this`log
      ensures State() == PruneBy(Logged(old(State()), key), |old(order)| + 1 - max)
    {
      order := order + [key];
      log := log[key := |made|];
      RestrictedAll(log, order);
      PruneStart(State(), max, PruneBy(State(), |order| - max));
      PruneCommandLog(max);
    }

    method ForgetEntry(key: Key)
      modifies this`order, this`log
      ensures State() == Forgot(old(State()), key)
    {
      if order != [] && order[|order| - 1] == key { order := order[..|order| - 1]; }
      log := log - {key};
    }

    /** The entry goes into the log, the log is pruned, and only then is the host looked for. */
    method NewCommand(ws: Socket, entry: Entry, online: bool, max: nat) returns (reply: Reply)
      requires Distinct(order) && (forall k :: k in order <==> k in log) && entry.key !in log && entry.key.id !in pending
      modifies this
      ensures reply == if online then Nothing else RuntimeOffline
      ensures State() == if online then Route(old(State()), ws, entry, max)
        else Forgot(PruneBy(Logged(old(State()), entry.key), |old(order)| + 1 - max), entry.key)
    {
      var t: Ticket := |made|;
      LogEntry(entry.key, max);
      if !online {
        ForgetEntry(entry.key);
        return RuntimeOffline;
      }
      pending := pending[entry.key.id := t];
      made := made + [entry];
      waiting, asked := waiting + {(t, ws)}, asked + {(t, ws)};
      reply := Nothing;
    }

    method OnCommand(ws: Socket, key: Key, fingerprint: Fingerprint, runtime: RuntimeId, ready: bool, max: nat) returns (reply: Reply)
      requires Inv(State())
      modifies this
      ensures (State(), reply) == Command(old(State()), ws, key, fingerprint, runtime, ready, max) && Inv(State())
    {
      CommandKeepsInv(State(), ws, key, fingerprint, runtime, ready, max);
      if key in log {
        reply := RepeatCommand(ws, log[key], fingerprint);
        return;
      }
      if key.id in pending { return Refused(CommandInProgress); }
      var online := runtime in runtimes && ready;
      reply := NewCommand(ws, Entry(key, fingerprint, runtime, if online then runtimes[runtime] else 0), online, max);
    }

    method OnResult(ws: Socket, runtime: RuntimeId, id: CommandId, value: nat) returns (reply: Reply)
      requires Inv(State())
      modifies this`pending, this`outcomes, this`waiting, this`answered
      ensures (State(), reply) == Result(old(State()), ws, runtime, id, value) && Inv(State())
    {
      ResultKeepsInv(State(), ws, runtime, id, value);
      assert id in pending ==> InFlight(State(), id, pending[id]);
      if runtime !in runtimes || runtimes[runtime] != ws { return Refused(RuntimeAuthentication); }
      if id in pending && (made[pending[id]].runtime != runtime || made[pending[id]].socket != ws) { return Refused(RuntimeAuthentication); }
      SettleOne(State(), id, Reported(value, ws));
      SettleCommand(id, Reported(value, ws));
      reply := Nothing;
    }

    method OnClose(ws: Socket)
      requires Inv(State())
      modifies this
      ensures State() == Close(old(State()), ws) && Inv(State())
    {
      CloseKeepsInv(State(), ws);
      var mine := set p | p in waiting && p.1 == ws && p.0 in pending.Values;
      waiting, gone := waiting - mine, gone + mine;
      SettleEach(SentTo(pending, made, ws), Offline);
      runtimes := map r | r in runtimes && runtimes[r] != ws :: runtimes[r];
    }

    method OnUnpair(runtime: RuntimeId)
      requires Inv(State())
      modifies this
      ensures State() == Unpair(old(State()), runtime) && Inv(State())
    {
      UnpairKeepsInv(State(), runtime);
      runtimes := runtimes - {runtime};
      SettleEach(RunBy(pending, made, runtime), Unpaired);
    }
  }
}
