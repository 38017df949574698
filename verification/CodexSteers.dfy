/** packages/runtime/codex-app-server.js (sendSteer, controls) and packages/runtime/session.js (steer):
    what a person adds to a running turn is sent to the provider once, and reported delivered only when the
    provider has acknowledged it for that turn.

    A steer is its sequence number, given in order of acceptance; a session never changes its text. */
module CodexSteers {
  import opened Wrappers

  type Seq = nat
  type TurnId = nat

  /** The piece of work at the head of the chain: Reserved once its number is taken, Called once the call
      to the provider is made. */
  datatype Work = Idle | Reserved(n: Seq) | Called(n: Seq)

  /** `count`: how many were accepted. `queue`: those not reported delivered. `chain`: work not yet begun.
      `early`: accepted before the provider's controls were in place; `between`: accepted after that and
      before the turn was known. `acks`: every acknowledgement, with the turn it named. */
  datatype Steers = Steers(
    installed: bool, ready: bool, turn: Option<TurnId>, completed: bool, interrupted: bool, failed: bool,
    count: nat, queue: seq<Seq>, chain: seq<Seq>, work: Work, taken: seq<Seq>, sent: seq<Seq>, delivered: seq<Seq>,
    acks: seq<(Seq, Option<TurnId>)>, early: nat, between: nat)

  const INITIAL: Steers := Steers(false, false, None, false, false, false, 0, [], [], Idle, [], [], [], [], 0, 0)

  datatype Event =
    | Accept
    | Install
    | Bind(turn: TurnId)
    | Begin
    | Send
    | Acknowledge(named: Option<TurnId>)
    | Complete
    | Interrupt
    | Fail

  function Removed(queue: seq<Seq>, n: Seq): seq<Seq> {
    if queue == [] then [] else if queue[0] == n then queue[1..] else [queue[0]] + Removed(queue[1..], n)
  }

  function OnAccept(s: Steers): Steers {
    var n := s.count + 1;
    var accepted := s.(count := n, queue := s.queue + [n]);
    if !s.installed then accepted.(early := s.early + 1)
    else accepted.(chain := s.chain + [n], between := if s.turn.None? then s.between + 1 else s.between)
  }

  /** Everything still queued is offered again, what was accepted early for the first time. */
  function OnBind(s: Steers, turn: TurnId): Steers { s.(turn := Some(turn), ready := true, chain := s.chain + s.queue) }

  /** A failure of one fails the connection, so nothing later in the chain is sent. */
  function OnBegin(s: Steers): Steers
    requires s.chain != []
  {
    var n := s.chain[0];
    var rest := s.(chain := s.chain[1..]);
    if s.failed || n in s.taken then rest
    else if s.completed || s.interrupted || s.turn.None? then rest.(failed := true)
    else rest.(work := Reserved(n), taken := s.taken + [n])
  }

  function OnAcknowledge(s: Steers, n: Seq, named: Option<TurnId>): Steers {
    if named.None? || named != s.turn || s.interrupted then s.(work := Idle, failed := true)
    else s.(work := Idle, queue := Removed(s.queue, n), delivered := s.delivered + [n], acks := s.acks + [(n, named)])
  }

  predicate Enabled(s: Steers, e: Event) {
    match e
    case Install => !s.installed
    case Bind(_) => s.installed && s.turn.None? && !s.failed
    case Begin => s.ready && s.work.Idle? && s.chain != []
    case Send => s.work.Reserved? && !s.failed
    case Acknowledge(_) => s.work.Called? && !s.failed
    case _ => true
  }

  function Step(s: Steers, e: Event): Steers
    requires Enabled(s, e)
  {
    match e
    case Accept => OnAccept(s)
    case Install => s.(installed := true)
    case Bind(turn) => OnBind(s, turn)
    case Begin => OnBegin(s)
    case Send => s.(work := Called(s.work.n), sent := s.sent + [s.work.n])
    case Acknowledge(named) => OnAcknowledge(s, s.work.n, named)
    case Complete => s.(completed := true)
    case Interrupt => s.(interrupted := true)
    case Fail => s.(failed := true, ready := true)
  }

  predicate Runs(s: Steers, events: seq<Event>)
    decreases |events|
  {
    events == [] || (Enabled(s, events[0]) && Runs(Step(s, events[0]), events[1..]))
  }

  function Run(s: Steers, events: seq<Event>): Steers
    requires Runs(s, events)
    decreases |events|
  {
    if events == [] then s else Run(Step(s, events[0]), events[1..])
  }

  // ---- the order in which work reaches the head of the chain ----

  /** The `n` numbers from `lo` on. */
  function Range(lo: nat, n: nat): (r: seq<Seq>)
    ensures |r| == n && forall i :: 0 <= i < n ==> r[i] == lo + i
  {
    seq(n, i => lo + i)
  }

  /** First what was accepted once the controls were in place, then the early ones, then the rest. */
  function Planned(early: nat, between: nat, count: nat): seq<Seq>
    requires early + between <= count
  {
    Range(early + 1, between) + Range(1, early) + Range(early + between + 1, count - early - between)
  }

  /** The first occurrences in `chain` of numbers not in `seen`. */
  function NewOnes(chain: seq<Seq>, seen: seq<Seq>): seq<Seq>
    decreases |chain|
  {
    if chain == [] then []
    else if chain[0] in seen then NewOnes(chain[1..], seen)
    else [chain[0]] + NewOnes(chain[1..], seen + [chain[0]])
  }

  lemma {:induction false} NewOnesAppend(chain: seq<Seq>, seen: seq<Seq>, n: Seq)
    requires n !in seen && n !in chain
    ensures NewOnes(chain + [n], seen) == NewOnes(chain, seen) + [n]
    decreases |chain|
  {
    if chain == [] {
      assert chain + [n] == [n] && [n][1..] == [];
      assert NewOnes([], seen + [n]) == [];
    } else {
      assert (chain + [n])[1..] == chain[1..] + [n];
      NewOnesAppend(chain[1..], if chain[0] in seen then seen else seen + [chain[0]], n);
    }
  }

  /** A run of numbers at the head of the chain, none of them seen, comes out as it is. */
  lemma RangeCons(lo: nat, n: nat)
    requires n > 0
    ensures Range(lo, n) == [lo] + Range(lo + 1, n - 1)
  {
  }

  lemma {:induction false} NewOnesOfFresh(lo: nat, n: nat, rest: seq<Seq>, seen: seq<Seq>)
    requires forall x :: x in seen ==> x < lo || x >= lo + n
    ensures NewOnes(Range(lo, n) + rest, seen) == Range(lo, n) + NewOnes(rest, seen + Range(lo, n))
    decreases n
  {
    if n == 0 {
      assert Range(lo, 0) + rest == rest && seen + [] == seen;
    } else {
      var tail := Range(lo + 1, n - 1);
      RangeCons(lo, n);
      assert Range(lo, n) + rest == [lo] + (tail + rest) && lo !in seen;
      assert ([lo] + (tail + rest))[1..] == tail + rest;
      NewOnesOfFresh(lo + 1, n - 1, rest, seen + [lo]);
      assert seen + [lo] + tail == seen + ([lo] + tail);
      var last := NewOnes(rest, seen + Range(lo, n));
      assert [lo] + (tail + last) == [lo] + tail + last;
    }
  }

  lemma {:induction false} NewOnesOfSeen(chain: seq<Seq>, seen: seq<Seq>)
    requires forall x :: x in chain ==> x in seen
    ensures NewOnes(chain, seen) == []
    decreases |chain|
  {
    if chain != [] { NewOnesOfSeen(chain[1..], seen); }
  }

  /** When the turn becomes known, what the chain will do first is what was accepted since the controls were
      in place, and then what was accepted early. */
  lemma BindPlans(early: nat, between: nat)
    ensures NewOnes(Range(early + 1, between) + Range(1, early + between), []) == Planned(early, between, early + between)
  {
    var late, first := Range(early + 1, between), Range(1, early);
    var all := Range(1, early + between);
    NewOnesOfFresh(early + 1, between, all, []);
    assert [] + late == late;
    assert all == first + late;
    NewOnesOfFresh(1, early, late, late);
    NewOnesOfSeen(late, late + first);
    PlannedAtBind(early, between);
    assert first + [] == first;
  }

  lemma PlannedAtBind(early: nat, between: nat)
    ensures Planned(early, between, early + between) == Range(early + 1, between) + Range(1, early)
  {
    assert Range(early + between + 1, 0) == [];
  }

  // ---- what every step keeps ----

  ghost predicate IsRange(ns: seq<Seq>, lo: nat, n: nat) { |ns| == n && forall i :: 0 <= i < n ==> ns[i] == lo + i }

  ghost predicate Stages(s: Steers) {
    && s.early + s.between <= s.count
    && (!s.installed ==> s.chain == [] && s.between == 0 && s.turn.None?)
    && (s.turn.None? ==>
      && s.count == s.early + s.between && s.taken == [] && IsRange(s.queue, 1, s.count)
      && (!s.failed ==> !s.ready && IsRange(s.chain, s.early + 1, s.between)))
  }

  ghost predicate OnPlan(s: Steers)
    requires s.early + s.between <= s.count
  {
    && (if s.turn.None? then s.taken == [] else s.taken <= Planned(s.early, s.between, s.count))
    && (s.turn.Some? && !s.failed ==> s.taken + NewOnes(s.chain, s.taken) == Planned(s.early, s.between, s.count))
    && (forall n :: n in s.chain ==> n <= s.count)
  }

  ghost predicate OneAtATime(s: Steers) {
    && s.delivered <= s.sent && s.sent <= s.taken && |s.sent| <= |s.delivered| + 1
    && (s.work.Idle? && !s.failed ==> s.delivered == s.sent == s.taken)
    && (s.work.Reserved? ==> s.delivered == s.sent && s.taken == s.sent + [s.work.n])
    && (s.work.Called? ==> s.sent == s.taken && s.sent == s.delivered + [s.work.n])
  }

  ghost predicate Acked(s: Steers) {
    && |s.acks| == |s.delivered| && (s.acks != [] ==> s.turn.Some?)
    && forall i :: 0 <= i < |s.acks| ==> s.acks[i] == (s.delivered[i], s.turn)
  }

  predicate Increasing(ns: seq<Seq>) { forall i, j :: 0 <= i < j < |ns| ==> ns[i] < ns[j] }

  /** A person sees a steer as waiting until it is delivered. */
  ghost predicate Waiting(s: Steers) {
    Increasing(s.queue) && forall n {:trigger n in s.queue} :: n in s.queue <==> 1 <= n <= s.count && n !in s.delivered
  }

  ghost predicate Inv(s: Steers) { Stages(s) && OnPlan(s) && OneAtATime(s) && Acked(s) && Waiting(s) }

  lemma PlannedAt(early: nat, between: nat, count: nat, i: nat)
    requires early + between <= count && i < count
    ensures |Planned(early, between, count)| == count
    ensures Planned(early, between, count)[i] == if i < between then early + 1 + i else if i < early + between then i - between + 1 else i + 1
  {
  }

  lemma PlannedGrows(early: nat, between: nat, count: nat)
    requires early + between <= count
    ensures Planned(early, between, count + 1) == Planned(early, between, count) + [count + 1]
  {
    var late, first, rest := Range(early + 1, between), Range(1, early), Range(early + between + 1, count - early - between);
    assert Range(early + between + 1, count + 1 - early - between) == rest + [count + 1];
    assert late + first + (rest + [count + 1]) == late + first + rest + [count + 1];
  }

  lemma BeyondPlan(early: nat, between: nat, count: nat, taken: seq<Seq>, n: Seq)
    requires early + between <= count < n && taken <= Planned(early, between, count)
    ensures n !in taken
  {
    forall i | 0 <= i < |taken| ensures taken[i] != n {
      var planned := Planned(early, between, count);
      assert taken[i] == planned[i] && |planned| == count;
      PlannedAt(early, between, count, i);
    }
  }

  lemma AcceptKeepsPlan(s: Steers)
    requires Stages(s) && OnPlan(s)
    ensures Stages(OnAccept(s)) && OnPlan(OnAccept(s))
  {
    var n := s.count + 1;
    if s.turn.Some? {
      PlannedGrows(s.early, s.between, s.count);
      BeyondPlan(s.early, s.between, s.count, s.taken, n);
      NewOnesAppend(s.chain, s.taken, n);
      assert s.taken + (NewOnes(s.chain, s.taken) + [n]) == s.taken + NewOnes(s.chain, s.taken) + [n];
    }
  }

  lemma AcceptKeepsWaiting(s: Steers)
    requires Waiting(s) && s.count + 1 !in s.delivered
    ensures Waiting(OnAccept(s))
  {
    var queue := s.queue + [s.count + 1];
    forall i, j | 0 <= i < j < |queue| ensures queue[i] < queue[j] {
      assert queue[i] in s.queue;
    }
  }

  lemma AcceptKeepsWork(s: Steers)
    requires OneAtATime(s) && Acked(s)
    ensures OneAtATime(OnAccept(s)) && Acked(OnAccept(s))
  {
  }

  lemma NextIsNew(s: Steers)
    requires s.early + s.between <= s.count && OnPlan(s) && s.delivered <= s.sent && s.sent <= s.taken
    ensures s.count + 1 !in s.delivered
  {
    if s.turn.Some? { BeyondPlan(s.early, s.between, s.count, s.taken, s.count + 1); }
    assert s.delivered <= s.taken;
  }

  lemma AcceptKeepsInv(s: Steers)
    requires Inv(s)
    ensures Inv(OnAccept(s))
  {
    AcceptKeepsWork(s);
    AcceptKeepsPlan(s);
    NextIsNew(s);
    AcceptKeepsWaiting(s);
  }

  lemma BindKeepsPlan(s: Steers, turn: TurnId)
    requires Stages(s) && OnPlan(s) && Enabled(s, Bind(turn))
    ensures Stages(OnBind(s, turn)) && OnPlan(OnBind(s, turn))
  {
    var s' := OnBind(s, turn);
    BindPlans(s.early, s.between);
    assert s.chain == Range(s.early + 1, s.between) && s.queue == Range(1, s.count);
    assert s.taken == [] && s'.chain == Range(s.early + 1, s.between) + Range(1, s.early + s.between);
    assert [] + NewOnes(s'.chain, []) == NewOnes(s'.chain, []);
  }

  lemma BindKeepsInv(s: Steers, turn: TurnId)
    requires Inv(s) && Enabled(s, Bind(turn))
    ensures Inv(OnBind(s, turn))
  {
    BindKeepsPlan(s, turn);
    assert s.delivered == [] && s.acks == [];
  }

  lemma BeginKeepsPlan(s: Steers)
    requires Stages(s) && OnPlan(s) && Enabled(s, Begin)
    ensures Stages(OnBegin(s)) && OnPlan(OnBegin(s))
  {
    var s' := OnBegin(s);
    var n, rest := s.chain[0], s.chain[1..];
    if s.turn.Some? && !s.failed && s'.work.Reserved? {
      var more := NewOnes(rest, s.taken + [n]);
      assert NewOnes(s.chain, s.taken) == [n] + more;
      assert s.taken + ([n] + more) == s.taken + [n] + more;
      assert s'.chain == rest && s'.taken == s.taken + [n];
      assert s'.taken + NewOnes(s'.chain, s'.taken) == Planned(s.early, s.between, s.count);
      assert s'.taken <= Planned(s.early, s.between, s.count);
    }
    forall x | x in s'.chain ensures x <= s.count { assert x in s.chain; }
  }

  lemma BeginKeepsInv(s: Steers)
    requires Inv(s) && Enabled(s, Begin)
    ensures Inv(OnBegin(s))
  {
    BeginKeepsPlan(s);
  }

  lemma {:induction false} RemovedKeeps(queue: seq<Seq>, n: Seq)
    requires Increasing(queue)
    ensures Increasing(Removed(queue, n)) && forall x :: x in Removed(queue, n) <==> x in queue && x != n
    decreases |queue|
  {
    if queue != [] {
      var head, rest := queue[0], queue[1..];
      assert queue == [head] + rest && Increasing(rest) && forall x :: x in rest ==> x > head;
      if head != n {
        RemovedKeeps(rest, n);
        IncreasingCons(head, Removed(rest, n));
      }
    }
  }

  lemma IncreasingCons(head: Seq, rest: seq<Seq>)
    requires Increasing(rest) && forall x :: x in rest ==> x > head
    ensures Increasing([head] + rest)
  {
    var all := [head] + rest;
    forall i, j | 0 <= i < j < |all| ensures all[i] < all[j] {
      assert all[j] == rest[j - 1] && rest[j - 1] in rest;
      assert i > 0 ==> all[i] == rest[i - 1];
    }
  }

  lemma AcknowledgeKeepsInv(s: Steers, named: Option<TurnId>)
    requires Inv(s) && Enabled(s, Acknowledge(named))
    ensures Inv(OnAcknowledge(s, s.work.n, named))
  {
    RemovedKeeps(s.queue, s.work.n);
    var s' := OnAcknowledge(s, s.work.n, named);
    AcknowledgeKeepsAcks(s, named);
    if !s'.failed { assert s'.delivered == s.sent; }
  }

  lemma AcknowledgeKeepsAcks(s: Steers, named: Option<TurnId>)
    requires Acked(s) && s.work.Called?
    ensures Acked(OnAcknowledge(s, s.work.n, named))
  {
    var n, s' := s.work.n, OnAcknowledge(s, s.work.n, named);
    if s'.acks != s.acks {
      assert s'.acks == s.acks + [(n, named)] && s'.delivered == s.delivered + [n] && named == s.turn == s'.turn;
      forall i | 0 <= i < |s'.acks| ensures s'.acks[i] == (s'.delivered[i], s'.turn) {
        if i < |s.acks| {
          assert s'.acks[i] == s.acks[i] == (s.delivered[i], s.turn);
        } else {
          assert s'.acks[i] == (n, named) && s'.delivered[i] == n;
        }
      }
    }
  }

  lemma StepKeepsInv(s: Steers, e: Event)
    requires Inv(s) && Enabled(s, e)
    ensures Inv(Step(s, e))
  {
    match e
    case Accept => AcceptKeepsInv(s);
    case Bind(turn) => BindKeepsInv(s, turn);
    case Begin => BeginKeepsInv(s);
    case Acknowledge(named) => AcknowledgeKeepsInv(s, named);
    case _ =>
  }

  lemma {:induction false} RunKeepsInv(s: Steers, events: seq<Event>)
    requires Inv(s) && Runs(s, events)
    ensures Inv(Run(s, events))
    decreases |events|
  {
    if events != [] {
      StepKeepsInv(s, events[0]);
      RunKeepsInv(Step(s, events[0]), events[1..]);
    }
  }

  /** A session that has accepted nothing, with no provider yet. */
  predicate Unused(s: Steers) {
    && !s.installed && !s.ready && s.turn.None? && !s.failed && s.count == 0 && s.early == 0 && s.between == 0 && s.work.Idle?
    && s.queue == [] && s.chain == [] && s.taken == [] && s.sent == [] && s.delivered == [] && s.acks == []
  }

  lemma InitialInv(s: Steers)
    requires Unused(s)
    ensures Inv(s)
  {
  }

  lemma ReachedInv(events: seq<Event>, s: Steers)
    requires Runs(INITIAL, events) && s == Run(INITIAL, events)
    ensures Inv(s)
  {
    InitialInv(INITIAL);
    RunKeepsInv(INITIAL, events);
  }

  // ---- the claims ----

  function NthSent(s: Steers, i: nat): nat {
    if i < s.between then s.early + 1 + i else if i < s.early + s.between && i >= s.between then i - s.between + 1 else i + 1
  }

  lemma SentAt(s: Steers, i: nat)
    requires Inv(s) && i < |s.sent|
    ensures i < s.count && s.sent[i] == NthSent(s, i)
  {
    var planned := Planned(s.early, s.between, s.count);
    assert |planned| == s.count && s.sent[i] == s.taken[i] == planned[i];
    PlannedAt(s.early, s.between, s.count, i);
  }

  lemma DeliveredWasSent(s: Steers, i: nat)
    requires Inv(s) && i < |s.delivered|
    ensures i < |s.sent| && s.delivered[i] == s.sent[i] == NthSent(s, i) && s.acks[i] == (s.sent[i], s.turn) && s.turn.Some?
  {
    assert s.delivered[i] == s.sent[i];
    SentAt(s, i);
  }

  /** No two calls carry the same number, and every one carries the number of an accepted steer. */
  lemma SentOnce(events: seq<Event>, i: nat, j: nat)
    requires Runs(INITIAL, events) && i < j < |Run(INITIAL, events).sent|
    ensures Run(INITIAL, events).sent[i] != Run(INITIAL, events).sent[j]
    ensures 1 <= Run(INITIAL, events).sent[i] <= Run(INITIAL, events).count
  {
    var s := Run(INITIAL, events);
    ReachedInv(events, s);
    SentAt(s, i);
    SentAt(s, j);
  }

  /** A steer is reported delivered only after it was sent and an acknowledgement named this turn; exactly
      the others stay in the queue. */
  lemma DeliveredAfterAcknowledgement(events: seq<Event>, i: nat)
    requires Runs(INITIAL, events) && i < |Run(INITIAL, events).delivered|
    ensures var s := Run(INITIAL, events);
      && i < |s.sent| && s.delivered[i] == s.sent[i] && i < |s.acks| && s.acks[i] == (s.sent[i], s.turn) && s.turn.Some?
      && s.delivered[i] !in s.queue
  {
    var s := Run(INITIAL, events);
    ReachedInv(events, s);
    DeliveredWasSent(s, i);
  }

  /** Nothing accepted is forgotten: when no work is left and the connection has not failed, every steer was
      delivered, exactly once, and none is waiting. */
  lemma NothingIsForgotten(events: seq<Event>)
    requires Runs(INITIAL, events)
    requires var s := Run(INITIAL, events); s.turn.Some? && s.chain == [] && s.work.Idle? && !s.failed
    ensures var s := Run(INITIAL, events);
      && |s.delivered| == s.count && s.queue == []
      && (forall i, j :: 0 <= i < j < |s.delivered| ==> s.delivered[i] != s.delivered[j])
      && (forall n :: 1 <= n <= s.count <==> n in s.delivered)
  {
    var s := Run(INITIAL, events);
    ReachedInv(events, s);
    assert s.taken + [] == s.taken == Planned(s.early, s.between, s.count);
    assert |Planned(s.early, s.between, s.count)| == s.count;
    forall i | 0 <= i < |s.delivered| ensures s.delivered[i] == NthSent(s, i) { DeliveredWasSent(s, i); }
    forall n: nat | 1 <= n <= s.count ensures n in s.delivered { SentSomewhere(s, n); }
    FirstIsIn(s.queue);
  }

  lemma FirstIsIn(queue: seq<Seq>)
    ensures queue != [] ==> queue[0] in queue
  {
  }

  lemma SentSomewhere(s: Steers, n: nat)
    requires 1 <= n <= s.count == |s.delivered| && s.early + s.between <= s.count
    requires forall i :: 0 <= i < |s.delivered| ==> s.delivered[i] == NthSent(s, i)
    ensures n in s.delivered
  {
    var i := if n <= s.early then s.between + n - 1 else if n <= s.early + s.between then n - s.early - 1 else n - 1;
    assert s.delivered[i] == NthSent(s, i) == n;
  }

  /** The connection fails over a steer at exactly these steps: one that comes when the turn has ended or an
      interrupt was asked for, and one that is acknowledged for another turn or after an interrupt. */
  lemma FailsExactly(s: Steers, e: Event)
    requires Enabled(s, e) && Inv(s)
    ensures Step(s, e).failed <==>
      || s.failed || e.Fail?
      || (e.Begin? && s.chain[0] !in s.taken && (s.completed || s.interrupted || s.turn.None?))
      || (e.Acknowledge? && !(s.turn.Some? && e.named == s.turn && !s.interrupted))
  {
  }

  /** Once the turn has ended or an interrupt was asked for, no further steer is taken up, whatever happens. */
  lemma NothingTakenLate(s: Steers, e: Event, events: seq<Event>)
    requires Enabled(s, e) && (e.Complete? || e.Interrupt?) && Runs(Step(s, e), events)
    ensures Run(Step(s, e), events).taken == s.taken
  {
    TakesNothing(Step(s, e), events);
  }

  lemma {:induction false} TakesNothing(s: Steers, events: seq<Event>)
    requires (s.completed || s.interrupted) && Runs(s, events)
    ensures Run(s, events).taken == s.taken
    decreases |events|
  {
    if events != [] { TakesNothing(Step(s, events[0]), events[1..]); }
  }

  /** A steer whose work begins and that the provider acknowledges for this turn is sent and delivered; one
      taken before is passed over. */
  lemma BegunIsDelivered(s: Steers)
    requires Inv(s) && Enabled(s, Begin) && s.turn.Some? && !s.failed && !s.completed && !s.interrupted
    ensures var n, a := s.chain[0], Step(s, Begin);
      if n in s.taken then a == s.(chain := s.chain[1..])
      else
        && Enabled(a, Send) && Enabled(Step(a, Send), Acknowledge(s.turn))
        && var c := Step(Step(a, Send), Acknowledge(s.turn));
           && c.taken == s.taken + [n] && c.sent == s.sent + [n] && c.delivered == s.delivered + [n] && c.chain == s.chain[1..] && c.work.Idle? && !c.failed
           && forall x :: x in c.queue <==> x in s.queue && x != n
  {
    RemovedKeeps(s.queue, s.chain[0]);
  }

  lemma InOrder(s: Steers)
    requires Inv(s)
    ensures Increasing(s.delivered) <==> s.early == 0 || s.between == 0 || |s.delivered| <= s.between
  {
    if s.early == 0 || s.between == 0 || |s.delivered| <= s.between {
      forall i, j | 0 <= i < j < |s.delivered| ensures s.delivered[i] < s.delivered[j] {
        DeliveredWasSent(s, i);
        DeliveredWasSent(s, j);
      }
    } else {
      DeliveredWasSent(s, s.between - 1);
      DeliveredWasSent(s, s.between);
    }
  }

  /** Steers are delivered in the order of acceptance unless some were accepted before the provider's
      controls were in place, some between that and the turn becoming known, and delivery has got as far as
      the early ones: then the early ones come after. */
  lemma InOrderExactly(events: seq<Event>)
    requires Runs(INITIAL, events)
    ensures var s := Run(INITIAL, events);
      Increasing(s.delivered) <==> s.early == 0 || s.between == 0 || |s.delivered| <= s.between
  {
    var s := Run(INITIAL, events);
    ReachedInv(events, s);
    InOrder(s);
  }

  lemma RunCons(s: Steers, e: Event, rest: seq<Event>)
    requires Enabled(s, e) && Runs(Step(s, e), rest)
    ensures Runs(s, [e] + rest) && Run(s, [e] + rest) == Run(Step(s, e), rest)
  {
    assert ([e] + rest)[1..] == rest;
  }

  /** A steer taken, sent and acknowledged. */
  function Through(s: Steers): Steers
    requires s.ready && s.work.Idle? && s.chain != [] && !s.failed && s.chain[0] !in s.taken && !s.completed && !s.interrupted && s.turn.Some?
  {
    Step(Step(Step(s, Begin), Send), Acknowledge(s.turn))
  }

  const DELIVERY: seq<Event> := [Begin] + ([Send] + ([Acknowledge(Some(7))] + []))

  lemma ThroughRuns(s: Steers, rest: seq<Event>)
    requires s.ready && s.work.Idle? && s.chain != [] && !s.failed && s.chain[0] !in s.taken && !s.completed && !s.interrupted && s.turn == Some(7)
    requires Runs(Through(s), rest)
    ensures Runs(s, DELIVERY + rest) && Run(s, DELIVERY + rest) == Run(Through(s), rest)
  {
    var a := Step(s, Begin);
    var b := Step(a, Send);
    RunCons(b, Acknowledge(Some(7)), rest);
    RunCons(a, Send, [Acknowledge(Some(7))] + rest);
    RunCons(s, Begin, [Send] + ([Acknowledge(Some(7))] + rest));
    assert DELIVERY + rest == [Begin] + ([Send] + ([Acknowledge(Some(7))] + rest));
  }

  lemma TwoDeliveries(s: Steers)
    requires s.ready && s.work.Idle? && s.turn == Some(7) && !s.failed && !s.completed && !s.interrupted
    requires s.chain == [2, 1, 2] && s.taken == [] && s.delivered == []
    ensures Runs(s, DELIVERY + (DELIVERY + [])) && Run(s, DELIVERY + (DELIVERY + [])).delivered == [2, 1]
  {
    var t := Through(s);
    assert t.chain == [1, 2] && t.delivered == [2] && t.taken == [2];
    var u := Through(t);
    assert Runs(u, []) && Run(u, []) == u;
    ThroughRuns(t, []);
    ThroughRuns(s, DELIVERY + []);
  }

  /** It does happen: the second steer accepted is delivered first. */
  lemma EarlySteerComesLate()
    ensures exists events :: Runs(INITIAL, events) && Run(INITIAL, events).delivered == [2, 1]
  {
    var s1 := Step(INITIAL, Accept);
    var s2 := Step(s1, Install);
    var s3 := Step(s2, Accept);
    var s4 := Step(s3, Bind(7));
    assert s3.queue == [1, 2] && s4.chain == [2, 1, 2];
    TwoDeliveries(s4);
    var tail := DELIVERY + (DELIVERY + []);
    RunCons(s3, Bind(7), tail);
    RunCons(s2, Accept, [Bind(7)] + tail);
    RunCons(s1, Install, [Accept] + ([Bind(7)] + tail));
    RunCons(INITIAL, Accept, [Install] + ([Accept] + ([Bind(7)] + tail)));
  }

  // ---- the provider's controls ----

  class Controls {
    var installed: bool
    var ready: bool
    var turn: Option<TurnId>
    var completed: bool
    var interrupted: bool
    var failed: bool
    var count: nat
    var queue: seq<Seq>
    var chain: seq<Seq>
    var work: Work
    var taken: seq<Seq>
    ghost var sent: seq<Seq>
    ghost var delivered: seq<Seq>
    ghost var acks: seq<(Seq, Option<TurnId>)>
    ghost var early: nat
    ghost var between: nat

    ghost function Fields(): Steers
      reads this
    {
      Steers(installed, ready, turn, completed, interrupted, failed, count, queue, chain, work, taken, sent, delivered, acks, early, between)
    }

    ghost predicate Valid()
      reads this
    {
      Inv(Fields())
    }

    constructor ()
      ensures Valid() && Fields() == INITIAL
    {
      installed, ready, turn, completed, interrupted, failed := false, false, None, false, false, false;
      count, queue, chain, work, taken := 0, [], [], Idle, [];
      sent, delivered, acks, early, between := [], [], [], 0, 0;
      new;
      InitialInv(Fields());
    }

    method Enqueue(n: Seq)
      requires n == count + 1
      modifies this`count, this`queue, this`chain, this`early, this`between
      ensures Fields() == OnAccept(old(Fields())) && count == n
    {
      count := n;
      queue := queue + [n];
      if installed {
        chain := chain + [n];
        between := if turn.None? then between + 1 else between;
      } else {
        early := early + 1;
      }
    }

    /** The session takes the steer, and offers it to the provider's controls when they are in place. */
    method AcceptSteer() returns (n: Seq)
      requires Valid()
      modifies this`count, this`queue, this`chain, this`early, this`between
      ensures Valid() && Fields() == OnAccept(old(Fields())) && n == count
    {
      AcceptKeepsInv(Fields());
      n := count + 1;
      Enqueue(n);
    }

    /** The turn is known: everything in the queue is offered. */
    method BindTurn(id: TurnId)
      requires Valid() && Enabled(Fields(), Bind(id))
      modifies this`turn, this`ready, this`chain
      ensures Valid() && Fields() == OnBind(old(Fields()), id)
    {
      BindKeepsInv(Fields(), id);
      turn := Some(id);
      ready := true;
      for k := 0 to |queue|
        invariant chain == old(chain) + queue[..k] && turn == Some(id) && ready
      {
        chain := chain + [queue[k]];
      }
      assert queue[..|queue|] == queue;
    }

    /** The next piece of work, up to its first await after the turn is known. */
    method BeginNext()
      requires Valid() && Enabled(Fields(), Begin)
      modifies this`chain, this`failed, this`work, this`taken
      ensures Valid() && Fields() == OnBegin(old(Fields()))
    {
      BeginKeepsInv(Fields());
      var n := chain[0];
      chain := chain[1..];
      if failed { return; }
      if n in taken { return; }
      if completed || interrupted || turn.None? {
        failed := true;
        return;
      }
      taken := taken + [n];
      work := Reserved(n);
    }

    method Conclude(n: Seq, named: Option<TurnId>)
      modifies this`work, this`failed, this`queue, this`delivered, this`acks
      ensures Fields() == OnAcknowledge(old(Fields()), n, named)
    {
      work := Idle;
      if named.None? || named != turn || interrupted {
        failed := true;
        return;
      }
      queue := Removed(queue, n);
      delivered := delivered + [n];
      acks := acks + [(n, named)];
    }

    /** The provider's answer to the call. */
    method Answered(named: Option<TurnId>)
      requires Valid() && Enabled(Fields(), Acknowledge(named))
      modifies this`work, this`failed, this`queue, this`delivered, this`acks
      ensures Valid() && Fields() == OnAcknowledge(old(Fields()), old(work).n, named)
    {
      AcknowledgeKeepsInv(Fields(), named);
      Conclude(work.n, named);
    }
  }
}
