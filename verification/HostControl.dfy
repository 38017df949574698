/** packages/e2ee/host-control.js and packages/e2ee/authorization.js: membership epochs that never go
    back, and approval grants that are used once.

    Sealing is the identity; that an opened envelope is the owner's is a flag of the step. */
module HostControl {
  import opened Wrappers

  type Nonce = nat
  type Epoch = nat
  type ActivationId = nat
  type RequestKey = (string, string, string)

  // ---- grants ----

  /** A time that is not a finite number is None, a field that is not a string is empty. */
  datatype Grant = Grant(
    grantId: string, requestId: string, turnId: string, threadId: string, approverUser: string, approverDevice: string,
    decision: string, issuedAt: Option<int>, expiresAt: Option<int>, epoch: Epoch)

  datatype Request = Request(requestId: string, turnId: string, threadId: string, approverUser: string, approverDevice: string)

  datatype Refusal =
    | Replayed | Invalid | WrongThread | Expired | WrongRequest | StaleTurn | WrongApprover | NotDecrypted
    | ReconciliationRequired | EpochStale | NotDelegated

  datatype Verdict = Accepted(decision: string) | Refused(reason: Refusal)

  /** The two durable columns of consumed_grants. */
  datatype Ledger = Ledger(consumed: set<string>, resolved: set<RequestKey>)

  function KeyOf(g: Grant): RequestKey { (g.threadId, g.turnId, g.requestId) }

  predicate WellFormed(g: Grant, p: Request, now: int) {
    && "" !in [g.requestId, g.turnId, g.threadId, g.approverUser, g.approverDevice]
    && "" !in [p.requestId, p.turnId, p.threadId, p.approverUser, p.approverDevice]
    && g.decision in ["accept", "decline", "cancel"]
    && g.issuedAt.Some? && g.expiresAt.Some? && g.issuedAt.value <= now && g.expiresAt.value > g.issuedAt.value
  }

  function Check(l: Ledger, grant: Option<Grant>, pending: Option<Request>, now: int, decrypted: bool): Option<Refusal> {
    if !decrypted then Some(NotDecrypted)
    else if grant.None? || grant.value.grantId == "" then Some(WrongRequest)
    else
      var g := grant.value;
      if g.grantId in l.consumed then Some(Replayed)
      else if pending.None? || !WellFormed(g, pending.value, now) then Some(Invalid)
      else
        var p := pending.value;
        if now >= g.expiresAt.value then Some(Expired)
        else if g.requestId != p.requestId then Some(WrongRequest)
        else if g.turnId != p.turnId then Some(StaleTurn)
        else if g.threadId != p.threadId then Some(WrongThread)
        else if g.approverUser != p.approverUser || g.approverDevice != p.approverDevice then Some(WrongApprover)
        else if KeyOf(g) in l.resolved then Some(Replayed)
        else None
  }

  function Consume(l: Ledger, g: Grant): Ledger { Ledger(l.consumed + {g.grantId}, l.resolved + {KeyOf(g)}) }

  function ResolveGrant(l: Ledger, grant: Option<Grant>, pending: Option<Request>, now: int, decrypted: bool): (Ledger, Verdict) {
    var refusal := Check(l, grant, pending, now, decrypted);
    if refusal.Some? then (l, Refused(refusal.value))
    else if grant.None? then (l, Refused(WrongRequest))
    else (Consume(l, grant.value), Accepted(grant.value.decision))
  }

  /** What an accepted grant was: complete, unused, in time, one of the three decisions, and an answer to
      exactly the request that is pending. */
  ghost predicate Answers(l: Ledger, g: Grant, p: Request, now: int) {
    && g.grantId != "" && g.requestId != "" && g.turnId != "" && g.threadId != "" && g.approverUser != "" && g.approverDevice != ""
    && g.grantId !in l.consumed && (g.threadId, g.turnId, g.requestId) !in l.resolved
    && g.issuedAt.Some? && g.expiresAt.Some? && g.issuedAt.value <= now < g.expiresAt.value
    && (g.decision == "accept" || g.decision == "decline" || g.decision == "cancel")
    && p == Request(g.requestId, g.turnId, g.threadId, g.approverUser, g.approverDevice)
  }

  /** What is wrong with a grant that is refused for this reason. */
  ghost predicate IsAtFault(l: Ledger, g: Grant, p: Option<Request>, now: int, reason: Refusal) {
    match reason
    case Replayed => g.grantId in l.consumed || (g.threadId, g.turnId, g.requestId) in l.resolved
    case Expired => g.expiresAt.Some? && g.expiresAt.value <= now
    case WrongRequest => g.grantId == "" || (p.Some? && g.requestId != p.value.requestId)
    case StaleTurn => p.Some? && g.turnId != p.value.turnId
    case WrongThread => p.Some? && g.threadId != p.value.threadId
    case WrongApprover => p.Some? && (g.approverUser != p.value.approverUser || g.approverDevice != p.value.approverDevice)
    case Invalid => p.None? || !Complete(g, p.value, now)
    case _ => false
  }

  /** Nothing is missing, the decision is one of the three, and the times make sense. */
  ghost predicate Complete(g: Grant, p: Request, now: int) {
    && g.requestId != "" && g.turnId != "" && g.threadId != "" && g.approverUser != "" && g.approverDevice != ""
    && p.requestId != "" && p.turnId != "" && p.threadId != "" && p.approverUser != "" && p.approverDevice != ""
    && (g.decision == "accept" || g.decision == "decline" || g.decision == "cancel")
    && g.issuedAt.Some? && g.expiresAt.Some? && g.issuedAt.value <= now && g.issuedAt.value < g.expiresAt.value
  }

  /** A decrypted grant is refused for something that is wrong with it. */
  lemma RefusedForAFault(l: Ledger, g: Grant, pending: Option<Request>, now: int)
    ensures var refusal := Check(l, Some(g), pending, now, true); refusal.Some? ==> IsAtFault(l, g, pending, now, refusal.value)
  {
  }

  lemma CheckAcceptsAnswers(l: Ledger, grant: Option<Grant>, pending: Option<Request>, now: int, decrypted: bool)
    ensures Check(l, grant, pending, now, decrypted).None? <==>
      decrypted && grant.Some? && pending.Some? && Answers(l, grant.value, pending.value, now)
  {
  }

  /** Once a grant is consumed, neither it nor any other grant for its request is ever accepted. */
  lemma ConsumedStaysConsumed(l: Ledger, g: Grant, later: Ledger, other: Grant, pending: Option<Request>, now: int, decrypted: bool)
    requires later.consumed >= Consume(l, g).consumed && later.resolved >= Consume(l, g).resolved
    requires other.grantId == g.grantId || KeyOf(other) == KeyOf(g)
    ensures ResolveGrant(later, Some(other), pending, now, decrypted).1.Refused?
    ensures ResolveGrant(later, Some(other), pending, now, decrypted).0 == later
  {
    assert KeyOf(g) in later.resolved && g.grantId in later.consumed;
    CheckAcceptsAnswers(later, Some(other), pending, now, decrypted);
  }

  // ---- membership ----

  datatype Endpoint = Endpoint(user: string, device: string, curve25519: string, ed25519: string)

  datatype Membership = Membership(epoch: Epoch, members: seq<Endpoint>, approvers: seq<(string, string)>)

  /** An activation between its checks and its commit. */
  datatype Frame = Frame(challenge: Nonce, next: Membership)

  datatype Commit = Commit(challenge: Nonce, membership: Membership)

  datatype Acceptance = Acceptance(grant: Grant, membership: Membership)

  /** `state` and `ledger` are durable. `used`, `commits` and `accepted` record what has happened. */
  datatype Host = Host(
    state: Option<Membership>, ledger: Ledger, challenge: Option<Nonce>, reconciled: bool, frames: map<ActivationId, Frame>,
    used: set<Nonce>, commits: seq<Commit>, accepted: seq<Acceptance>)

  const INITIAL: Host := Host(None, Ledger({}, {}), None, false, map[], {}, [], [])

  /** The test made before any endpoint is confirmed. */
  predicate NoRollback(state: Option<Membership>, next: Membership) {
    state.Some? ==> state.value.epoch < next.epoch || state.value == next
  }

  predicate CompleteMember(m: Endpoint) { m.user != "" && m.device != "" && m.curve25519 != "" && m.ed25519 != "" }

  /** The checks made after the awaits that need no state. */
  predicate Coherent(next: Membership, self: (string, string)) {
    && (forall m :: m in next.members ==> CompleteMember(m))
    && (forall a :: a in next.approvers ==> exists m :: m in next.members && (m.user, m.device) == a)
    && exists m :: m in next.members && (m.user, m.device) == self
  }

  datatype Event =
    | Disconnect
    | BeginReconcile(nonce: Nonce)
    | Start(id: ActivationId, authentic: bool, echoed: Option<Nonce>, next: Membership)
    | Finish(id: ActivationId, self: (string, string))
    | Fail(id: ActivationId)
    | Resolve(sender: Endpoint, grant: Option<Grant>, pending: Option<Request>, now: int)
    | Restart

  /** Nonces are fresh. */
  predicate Enabled(s: Host, e: Event) {
    match e
    case BeginReconcile(nonce) => nonce !in s.used
    case Start(id, _, _, _) => id !in s.frames
    case Finish(id, _) => id in s.frames
    case Fail(id) => id in s.frames
    case _ => true
  }

  function OnStart(s: Host, id: ActivationId, authentic: bool, echoed: Option<Nonce>, next: Membership): Host {
    if !authentic || s.challenge.None? || echoed != s.challenge || next.epoch < 1 || !NoRollback(s.state, next) then s
    else s.(frames := s.frames[id := Frame(s.challenge.value, next)])
  }

  function OnFinish(s: Host, id: ActivationId, f: Frame, self: (string, string)): Host {
    var ended := s.(frames := s.frames - {id});
    if !Coherent(f.next, self) || s.challenge != Some(f.challenge) then ended
    else ended.(state := Some(f.next), challenge := None, reconciled := true, commits := s.commits + [Commit(f.challenge, f.next)])
  }

  predicate Delegated(m: Membership, sender: Endpoint) {
    && (exists x :: x in m.members && x.user == sender.user && x.device == sender.device && x.curve25519 == sender.curve25519)
    && (sender.user, sender.device) in m.approvers
  }

  function OnResolve(s: Host, sender: Endpoint, grant: Option<Grant>, pending: Option<Request>, now: int): (Host, Verdict) {
    if !s.reconciled then (s, Refused(ReconciliationRequired))
    else if grant.None? || s.state.None? || grant.value.epoch != s.state.value.epoch then (s, Refused(EpochStale))
    else if !Delegated(s.state.value, sender) then (s, Refused(NotDelegated))
    else if grant.value.approverUser != sender.user || grant.value.approverDevice != sender.device then (s, Refused(WrongApprover))
    else
      var (ledger, verdict) := ResolveGrant(s.ledger, grant, pending, now, true);
      (s.(ledger := ledger, accepted := if verdict.Accepted? then s.accepted + [Acceptance(grant.value, s.state.value)] else s.accepted), verdict)
  }

  function Step(s: Host, e: Event): Host
    requires Enabled(s, e)
  {
    match e
    case Disconnect => s.(reconciled := false, challenge := None)
    case BeginReconcile(nonce) => s.(reconciled := false, challenge := Some(nonce), used := s.used + {nonce})
    case Start(id, authentic, echoed, next) => OnStart(s, id, authentic, echoed, next)
    case Finish(id, self) => OnFinish(s, id, s.frames[id], self)
    case Fail(id) => s.(frames := s.frames - {id})
    case Resolve(sender, grant, pending, now) => OnResolve(s, sender, grant, pending, now).0
    case Restart => s.(reconciled := false, challenge := None, frames := map[])
  }

  predicate Runs(s: Host, events: seq<Event>)
    decreases |events|
  {
    events == [] || (Enabled(s, events[0]) && Runs(Step(s, events[0]), events[1..]))
  }

  function Run(s: Host, events: seq<Event>): Host
    requires Runs(s, events)
    decreases |events|
  {
    if events == [] then s else Run(Step(s, events[0]), events[1..])
  }

  // ---- what every step keeps ----

  /** An activation that could still commit passed the rollback test against the state it would replace:
      a commit in between would have taken its challenge away. */
  ghost predicate FramesFit(s: Host) {
    forall id :: id in s.frames ==>
      s.frames[id].challenge in s.used && (s.challenge == Some(s.frames[id].challenge) ==> NoRollback(s.state, s.frames[id].next))
  }

  ghost predicate Ordered(commits: seq<Commit>) {
    forall i, j :: 0 <= i < j < |commits| ==>
      commits[i].challenge != commits[j].challenge && NoRollback(Some(commits[i].membership), commits[j].membership)
  }

  ghost predicate CommitsInv(s: Host) {
    && Ordered(s.commits)
    && s.state == (if s.commits == [] then None else Some(s.commits[|s.commits| - 1].membership))
    && (forall i :: 0 <= i < |s.commits| ==> s.commits[i].challenge in s.used && s.challenge != Some(s.commits[i].challenge))
    && (s.challenge.Some? ==> s.challenge.value in s.used)
    && (s.reconciled ==> s.commits != [])
  }

  /** The ledger holds exactly the accepted grants, no two for one id or one request; and each was given
      under a membership then current, by one of its approvers. */
  ghost predicate AcceptedInv(s: Host) {
    && (forall i, j :: 0 <= i < j < |s.accepted| ==>
      s.accepted[i].grant.grantId != s.accepted[j].grant.grantId && KeyOf(s.accepted[i].grant) != KeyOf(s.accepted[j].grant))
    && (forall i :: 0 <= i < |s.accepted| ==> s.accepted[i].grant.grantId in s.ledger.consumed && KeyOf(s.accepted[i].grant) in s.ledger.resolved)
    && (forall i :: 0 <= i < |s.accepted| ==> Entitled(s.commits, s.accepted[i]))
  }

  ghost predicate Entitled(commits: seq<Commit>, a: Acceptance) {
    && a.grant.epoch == a.membership.epoch && (a.grant.approverUser, a.grant.approverDevice) in a.membership.approvers
    && exists i :: 0 <= i < |commits| && commits[i].membership == a.membership
  }

  ghost predicate Inv(s: Host) { FramesFit(s) && CommitsInv(s) && AcceptedInv(s) }

  lemma FinishKeepsCommits(s: Host, id: ActivationId, self: (string, string))
    requires FramesFit(s) && CommitsInv(s) && id in s.frames
    ensures CommitsInv(OnFinish(s, id, s.frames[id], self))
  {
    var f := s.frames[id];
    var s' := OnFinish(s, id, f, self);
    if s'.commits != s.commits {
      var n := |s.commits|;
      forall i | 0 <= i < n ensures NoRollback(Some(s.commits[i].membership), f.next) {
        assert i < n - 1 ==> NoRollback(Some(s.commits[i].membership), s.commits[n - 1].membership);
      }
      assert forall i :: 0 <= i < n ==> s'.commits[i] == s.commits[i];
    }
  }

  lemma EntitledKept(commits: seq<Commit>, commits': seq<Commit>, a: Acceptance)
    requires Entitled(commits, a) && commits <= commits'
    ensures Entitled(commits', a)
  {
    var i :| 0 <= i < |commits| && commits[i].membership == a.membership;
    assert commits'[i].membership == a.membership;
  }

  lemma ResolveKeepsAccepted(s: Host, sender: Endpoint, grant: Option<Grant>, pending: Option<Request>, now: int)
    requires CommitsInv(s) && AcceptedInv(s)
    ensures AcceptedInv(OnResolve(s, sender, grant, pending, now).0)
  {
    var s' := OnResolve(s, sender, grant, pending, now).0;
    if s'.accepted != s.accepted {
      CheckAcceptsAnswers(s.ledger, grant, pending, now, true);
      assert s.commits[|s.commits| - 1].membership == s.state.value;
    }
  }

  lemma StepKeepsInv(s: Host, e: Event)
    requires Inv(s) && Enabled(s, e)
    ensures Inv(Step(s, e)) && s.commits <= Step(s, e).commits && s.accepted <= Step(s, e).accepted
  {
    var s' := Step(s, e);
    match e
    case Finish(id, self) =>
      FinishKeepsCommits(s, id, self);
      forall i | 0 <= i < |s.accepted| ensures Entitled(s'.commits, s.accepted[i]) { EntitledKept(s.commits, s'.commits, s.accepted[i]); }
    case Resolve(sender, grant, pending, now) => ResolveKeepsAccepted(s, sender, grant, pending, now);
    case _ =>
  }

  lemma {:induction false} RunKeepsInv(s: Host, events: seq<Event>)
    requires Inv(s) && Runs(s, events)
    ensures Inv(Run(s, events)) && s.commits <= Run(s, events).commits && s.accepted <= Run(s, events).accepted
    decreases |events|
  {
    if events != [] {
      StepKeepsInv(s, events[0]);
      RunKeepsInv(Step(s, events[0]), events[1..]);
    }
  }

  // ---- the claims ----

  /** Committed epochs never decrease, equal epochs are the same membership, and each challenge is spent
      on one commit, although the rollback test is made before the awaits. */
  lemma EpochsNeverGoBack(events: seq<Event>, i: nat, j: nat)
    requires Runs(INITIAL, events) && i < j < |Run(INITIAL, events).commits|
    ensures var commits := Run(INITIAL, events).commits;
      && commits[i].membership.epoch <= commits[j].membership.epoch
      && (commits[i].membership.epoch == commits[j].membership.epoch ==> commits[i].membership == commits[j].membership)
      && commits[i].challenge != commits[j].challenge
  {
    RunKeepsInv(INITIAL, events);
  }

  /** Across restarts, no grant and no request is accepted twice; each acceptance names the epoch of a
      membership the host committed, and comes from one of its approvers. */
  lemma GrantsAreUsedOnce(events: seq<Event>, i: nat, j: nat)
    requires Runs(INITIAL, events) && i < |Run(INITIAL, events).accepted| && j < |Run(INITIAL, events).accepted|
    ensures var accepted := Run(INITIAL, events).accepted;
      && (accepted[i].grant.grantId == accepted[j].grant.grantId || KeyOf(accepted[i].grant) == KeyOf(accepted[j].grant) ==> i == j)
      && accepted[i].grant.epoch == accepted[i].membership.epoch
      && (accepted[i].grant.approverUser, accepted[i].grant.approverDevice) in accepted[i].membership.approvers
      && exists k :: 0 <= k < |Run(INITIAL, events).commits| && Run(INITIAL, events).commits[k].membership == accepted[i].membership
  {
    RunKeepsInv(INITIAL, events);
    assert Entitled(Run(INITIAL, events).commits, Run(INITIAL, events).accepted[i]);
  }

  ghost predicate Newest(commits: seq<Commit>, m: Membership) {
    && commits != [] && commits[|commits| - 1].membership == m
    && forall i :: 0 <= i < |commits| ==> commits[i].membership.epoch <= m.epoch
  }

  lemma LastIsNewest(s: Host)
    requires CommitsInv(s) && s.state.Some?
    ensures Newest(s.commits, s.state.value)
  {
    var n := |s.commits| - 1;
    forall i | 0 <= i < |s.commits| ensures s.commits[i].membership.epoch <= s.state.value.epoch {
      assert i < n ==> NoRollback(Some(s.commits[i].membership), s.commits[n].membership);
    }
  }

  /** The sender holds the keys of a member, and that member may approve. */
  ghost predicate MayApprove(m: Membership, sender: Endpoint) {
    && (sender.user, sender.device) in m.approvers
    && exists ed25519: string :: Endpoint(sender.user, sender.device, sender.curve25519, ed25519) in m.members
  }

  lemma DelegatedMayApprove(m: Membership, sender: Endpoint)
    ensures Delegated(m, sender) <==> MayApprove(m, sender)
  {
    if Delegated(m, sender) {
      var x :| x in m.members && x.user == sender.user && x.device == sender.device && x.curve25519 == sender.curve25519;
      assert x == Endpoint(sender.user, sender.device, sender.curve25519, x.ed25519);
    }
  }

  /** A grant takes effect if and only if the host has reconciled, the grant names the newest epoch ever
      committed, comes from one of that membership's approvers in its own name, and answers the pending
      request; then it takes effect with the grant's own decision. */
  lemma AcceptedUnderTheNewest(events: seq<Event>, sender: Endpoint, grant: Option<Grant>, pending: Option<Request>, now: int, decision: string)
    requires Runs(INITIAL, events)
    ensures var s := Run(INITIAL, events);
      OnResolve(s, sender, grant, pending, now).1 == Accepted(decision) <==>
        && s.reconciled && s.state.Some? && Newest(s.commits, s.state.value) && grant.Some? && pending.Some?
        && grant.value.epoch == s.state.value.epoch && MayApprove(s.state.value, sender)
        && (grant.value.approverUser, grant.value.approverDevice) == (sender.user, sender.device)
        && Answers(s.ledger, grant.value, pending.value, now) && decision == grant.value.decision
  {
    var s := Run(INITIAL, events);
    RunKeepsInv(INITIAL, events);
    if s.state.Some? {
      LastIsNewest(s);
      DelegatedMayApprove(s.state.value, sender);
    }
    CheckAcceptsAnswers(s.ledger, grant, pending, now, true);
  }

  /** An accepted grant is spent, its request is answered and the acceptance is on record; a refusal leaves
      everything as it was. */
  lemma ResolvingSpends(s: Host, sender: Endpoint, grant: Option<Grant>, pending: Option<Request>, now: int)
    ensures var (s', verdict) := OnResolve(s, sender, grant, pending, now);
      && (verdict.Refused? ==> s' == s)
      && (verdict.Accepted? ==>
            && grant.Some? && s.state.Some?
            && s' == s.(ledger := s'.ledger, accepted := s.accepted + [Acceptance(grant.value, s.state.value)])
            && (forall id :: id in s'.ledger.consumed <==> id in s.ledger.consumed || id == grant.value.grantId)
            && (forall key :: key in s'.ledger.resolved <==>
                  key in s.ledger.resolved || key == (grant.value.threadId, grant.value.turnId, grant.value.requestId)))
  {
  }

  // ---- what a commit rests on ----

  predicate Interrupts(e: Event) { e.Disconnect? || e.BeginReconcile? || e.Restart? }

  predicate Undisturbed(past: seq<Event>, from: nat, to: nat) { forall x :: from < x < to && x < |past| ==> !Interrupts(past[x]) }

  /** Where an exchange was asked for, answered and committed. */
  datatype Places = Places(asked: nat, answered: nat, committed: nat, id: ActivationId, self: (string, string))

  /** The challenge was asked at one place and answered, authentically and echoing it, at another. */
  ghost predicate Answered(past: seq<Event>, f: Frame, id: ActivationId, asked: nat, answered: nat) {
    && asked < answered < |past| && Undisturbed(past, asked, answered)
    && past[asked] == BeginReconcile(f.challenge) && past[answered] == Start(id, true, Some(f.challenge), f.next)
  }

  ghost predicate MemberOf(m: Membership, id: (string, string)) {
    exists curve25519: string, ed25519: string :: Endpoint(id.0, id.1, curve25519, ed25519) in m.members
  }

  /** A membership fit to be committed by the host `self`. */
  ghost predicate Fit(m: Membership, self: (string, string)) {
    && m.epoch >= 1 && MemberOf(m, self) && (forall a :: a in m.approvers ==> MemberOf(m, a))
    && (forall x :: x in m.members ==> "" != x.user && "" != x.device && "" != x.curve25519 && "" != x.ed25519)
  }

  /** The challenge was still the one outstanding when the membership was committed. */
  ghost predicate Exchange(past: seq<Event>, c: Commit, w: Places) {
    && Answered(past, Frame(c.challenge, c.membership), w.id, w.asked, w.answered)
    && w.answered < w.committed < |past| && past[w.committed] == Finish(w.id, w.self) && Undisturbed(past, w.asked, w.committed)
    && Fit(c.membership, w.self)
  }

  ghost predicate Outstanding(past: seq<Event>, nonce: Nonce, asked: nat) {
    asked < |past| && past[asked] == BeginReconcile(nonce) && Undisturbed(past, asked, |past|)
  }

  ghost predicate FrameTraced(past: seq<Event>, f: Frame, id: ActivationId) {
    f.next.epoch >= 1 && exists asked: nat, answered: nat :: Answered(past, f, id, asked, answered)
  }

  ghost predicate Committed(past: seq<Event>, c: Commit) { exists w :: Exchange(past, c, w) }

  ghost predicate Standing(past: seq<Event>, c: Commit) {
    exists w :: Exchange(past, c, w) && Undisturbed(past, w.committed, |past|)
  }

  ghost predicate Asked(past: seq<Event>, s: Host) {
    && (forall x :: 0 <= x < |past| && past[x].BeginReconcile? ==> past[x].nonce in s.used)
    && (forall x, y :: 0 <= x < |past| && 0 <= y < |past| && past[x].BeginReconcile? && past[x] == past[y] ==> x == y)
    && (s.challenge.Some? ==> exists asked: nat :: Outstanding(past, s.challenge.value, asked))
  }

  /** Everything the host holds rests on what happened. */
  ghost predicate Traced(past: seq<Event>, s: Host) {
    && Asked(past, s) && CommitsTraced(past, s)
    && (forall id :: id in s.frames ==> FrameTraced(past, s.frames[id], id))
  }

  ghost predicate CommitsTraced(past: seq<Event>, s: Host) {
    && (forall c :: c in s.commits ==> Committed(past, c))
    && (s.reconciled ==> s.commits != [] && Standing(past, s.commits[|s.commits| - 1]))
  }

  lemma CoherentIsFit(m: Membership, self: (string, string))
    requires m.epoch >= 1
    ensures Coherent(m, self) <==> Fit(m, self)
  {
    forall a ensures MemberOf(m, a) <==> exists x :: x in m.members && (x.user, x.device) == a {
      if x :| x in m.members && (x.user, x.device) == a { assert x == Endpoint(a.0, a.1, x.curve25519, x.ed25519); }
      if MemberOf(m, a) {
        var c: string, e: string :| Endpoint(a.0, a.1, c, e) in m.members;
        assert (Endpoint(a.0, a.1, c, e).user, Endpoint(a.0, a.1, c, e).device) == a;
      }
    }
  }

  lemma FrameStaysTraced(past: seq<Event>, e: Event, f: Frame, id: ActivationId)
    requires FrameTraced(past, f, id)
    ensures FrameTraced(past + [e], f, id)
  {
    var asked: nat, answered: nat :| Answered(past, f, id, asked, answered);
    assert Answered(past + [e], f, id, asked, answered);
  }

  lemma ExchangeStays(past: seq<Event>, e: Event, c: Commit, w: Places)
    requires Exchange(past, c, w)
    ensures Exchange(past + [e], c, w)
  {
  }

  lemma CommitStays(past: seq<Event>, e: Event, c: Commit)
    requires Committed(past, c)
    ensures Committed(past + [e], c)
  {
    var w :| Exchange(past, c, w);
    ExchangeStays(past, e, c, w);
  }

  lemma StandingStays(past: seq<Event>, e: Event, c: Commit)
    requires Standing(past, c) && !Interrupts(e)
    ensures Standing(past + [e], c)
  {
    var w :| Exchange(past, c, w) && Undisturbed(past, w.committed, |past|);
    ExchangeStays(past, e, c, w);
    assert Undisturbed(past + [e], w.committed, |past + [e]|);
  }

  lemma StepAsks(past: seq<Event>, s: Host, e: Event)
    requires Asked(past, s) && Enabled(s, e)
    ensures Asked(past + [e], Step(s, e))
  {
    var now, s' := past + [e], Step(s, e);
    if s'.challenge.Some? {
      if e.BeginReconcile? {
        assert Outstanding(now, s'.challenge.value, |past|);
      } else {
        var asked: nat :| Outstanding(past, s.challenge.value, asked);
        assert Outstanding(now, s'.challenge.value, asked);
      }
    }
  }

  /** A new frame answers the outstanding challenge. */
  lemma StartTraces(past: seq<Event>, s: Host, e: Event)
    requires Traced(past, s) && Enabled(s, e) && e.Start? && e.id in Step(s, e).frames
    ensures FrameTraced(past + [e], Step(s, e).frames[e.id], e.id)
  {
    var asked: nat :| Outstanding(past, s.challenge.value, asked);
    assert Answered(past + [e], Step(s, e).frames[e.id], e.id, asked, |past|);
  }

  /** A new commit closes the exchange its frame was part of. */
  lemma FinishTraces(past: seq<Event>, s: Host, e: Event)
    requires Traced(past, s) && Enabled(s, e) && e.Finish? && Step(s, e).commits != s.commits
    ensures var c := Commit(s.frames[e.id].challenge, s.frames[e.id].next);
      Step(s, e).commits == s.commits + [c] && Committed(past + [e], c) && Standing(past + [e], c)
  {
    var f, now := s.frames[e.id], past + [e];
    var c := Commit(f.challenge, f.next);
    assert FrameTraced(past, f, e.id);
    var asked: nat, answered: nat :| Answered(past, f, e.id, asked, answered);
    var begun: nat :| Outstanding(past, f.challenge, begun);
    assert asked == begun;
    CoherentIsFit(f.next, e.self);
    assert Answered(now, f, e.id, asked, answered);
    assert Exchange(now, c, Places(asked, answered, |past|, e.id, e.self));
    assert Undisturbed(now, |past|, |now|);
  }

  lemma FramesTrace(past: seq<Event>, s: Host, e: Event, id: ActivationId)
    requires Traced(past, s) && Enabled(s, e) && id in Step(s, e).frames
    ensures FrameTraced(past + [e], Step(s, e).frames[id], id)
  {
    if id in s.frames { FrameStaysTraced(past, e, s.frames[id], id); } else { StartTraces(past, s, e); }
  }

  lemma SameCommitsTrace(past: seq<Event>, s: Host, e: Event, s': Host)
    requires CommitsTraced(past, s) && s'.commits == s.commits && (s'.reconciled ==> s.reconciled && !Interrupts(e))
    ensures CommitsTraced(past + [e], s')
  {
    forall c | c in s.commits ensures Committed(past + [e], c) { CommitStays(past, e, c); }
    if s'.reconciled { StandingStays(past, e, s.commits[|s.commits| - 1]); }
  }

  lemma NewCommitTraces(past: seq<Event>, s: Host, e: Event, s': Host, c: Commit)
    requires CommitsTraced(past, s) && s'.commits == s.commits + [c] && Committed(past + [e], c) && Standing(past + [e], c)
    ensures CommitsTraced(past + [e], s')
  {
    forall d | d in s.commits ensures Committed(past + [e], d) { CommitStays(past, e, d); }
  }

  lemma StepCommits(s: Host, e: Event)
    requires Enabled(s, e)
    ensures Step(s, e).commits != s.commits ==> e.Finish?
    ensures Step(s, e).commits == s.commits && Step(s, e).reconciled ==> s.reconciled && !Interrupts(e)
  {
  }

  lemma CommitsTrace(past: seq<Event>, s: Host, e: Event, s': Host)
    requires Traced(past, s) && Enabled(s, e) && s' == Step(s, e)
    ensures CommitsTraced(past + [e], s')
  {
    StepCommits(s, e);
    if s'.commits != s.commits {
      FinishTraces(past, s, e);
      NewCommitTraces(past, s, e, s', Commit(s.frames[e.id].challenge, s.frames[e.id].next));
    } else {
      SameCommitsTrace(past, s, e, s');
    }
  }

  lemma StepTraces(past: seq<Event>, s: Host, e: Event)
    requires Traced(past, s) && Enabled(s, e)
    ensures Traced(past + [e], Step(s, e))
  {
    StepAsks(past, s, e);
    CommitsTrace(past, s, e, Step(s, e));
    forall id | id in Step(s, e).frames ensures FrameTraced(past + [e], Step(s, e).frames[id], id) { FramesTrace(past, s, e, id); }
  }

  lemma {:induction false} RunTraces(past: seq<Event>, s: Host, events: seq<Event>)
    requires Traced(past, s) && Runs(s, events)
    ensures Traced(past + events, Run(s, events))
    decreases |events|
  {
    if events == [] {
      assert past + events == past;
    } else {
      StepTraces(past, s, events[0]);
      RunTraces(past + [events[0]], Step(s, events[0]), events[1..]);
      assert past + [events[0]] + events[1..] == past + events;
    }
  }

  /** Every membership the host ever committed came in an authentic envelope that echoed a challenge the
      host had asked with, which stood undisturbed from the asking to the commit, and was fit: of an epoch
      above zero, every member complete, every approver and the host itself a member. While the host is
      reconciled, nothing has interrupted it since the newest commit. */
  lemma CommittedWhenAsked(events: seq<Event>)
    requires Runs(INITIAL, events)
    ensures CommitsTraced(events, Run(INITIAL, events))
  {
    NothingYet(INITIAL);
    RunTraces([], INITIAL, events);
    assert [] + events == events;
  }

  lemma NothingYet(s: Host)
    requires s.commits == [] && s.frames == map[] && s.challenge.None? && !s.reconciled
    ensures Traced([], s)
  {
  }

  /** An exchange that nothing interrupts commits, and the host is then reconciled, if and only if the
      answer is authentic, echoes the challenge, goes back behind nothing and is fit; otherwise nothing is
      committed and the host stays unreconciled. */
  lemma ExchangeCommitsExactly(s: Host, nonce: Nonce, id: ActivationId, authentic: bool, echoed: Option<Nonce>, next: Membership, self: (string, string))
    requires nonce !in s.used && id !in s.frames
    ensures var asked := Step(s, BeginReconcile(nonce));
      var answered := Step(asked, Start(id, authentic, echoed, next));
      && !asked.reconciled && !answered.reconciled && asked.challenge == Some(nonce)
      && (id in answered.frames <==>
            authentic && echoed == Some(nonce) && next.epoch >= 1
            && (s.state.None? || s.state.value.epoch < next.epoch || s.state.value == next))
      && (id in answered.frames ==>
            var s' := Step(answered, Finish(id, self));
            && id !in s'.frames
            && (if Fit(next, self)
                then s'.reconciled && s'.state == Some(next) && s'.commits == s.commits + [Commit(nonce, next)] && s'.challenge.None?
                else !s'.reconciled && s'.state == s.state && s'.commits == s.commits))
  {
    if next.epoch >= 1 { CoherentIsFit(next, self); }
  }

  /** Nothing is left in flight by an activation that failed, nor by any when the process ends. */
  lemma FailuresLeaveNothing(s: Host, id: ActivationId)
    requires id in s.frames
    ensures Step(s, Fail(id)) == s.(frames := s.frames - {id})
    ensures var s' := Step(s, Restart); s'.frames == map[] && !s'.reconciled && s'.challenge.None? && s'.state == s.state && s'.ledger == s.ledger
  {
  }

  // ---- the control object ----

  class EncryptedHostControl {
    const self: (string, string)
    var state: Option<Membership>
    var ledger: Ledger
    var challenge: Option<Nonce>
    var reconciled: bool
    var frames: map<ActivationId, Frame>
    ghost var used: set<Nonce>
    ghost var commits: seq<Commit>
    ghost var accepted: seq<Acceptance>

    ghost function Fields(): Host
      reads this
    {
      Host(state, ledger, challenge, reconciled, frames, used, commits, accepted)
    }

    constructor (self: (string, string))
      ensures Fields() == INITIAL && Inv(Fields()) && this.self == self
    {
      this.self := self;
      state, ledger, challenge, reconciled, frames := None, Ledger({}, {}), None, false, map[];
      used, commits, accepted := {}, [], [];
    }

    method CloseConnection()
      requires Inv(Fields())
      modifies this`reconciled, this`challenge
      ensures Inv(Fields()) && Fields() == Step(old(Fields()), Disconnect)
    {
      StepKeepsInv(Fields(), Disconnect);
      reconciled, challenge := false, None;
    }

    method AskOwner(nonce: Nonce)
      requires Inv(Fields()) && nonce !in used
      modifies this`reconciled, this`challenge, this`used
      ensures Inv(Fields()) && Fields() == Step(old(Fields()), BeginReconcile(nonce))
    {
      StepKeepsInv(Fields(), BeginReconcile(nonce));
      reconciled, challenge, used := false, Some(nonce), used + {nonce};
    }

    /** Up to the first await. */
    method StartMembership(id: ActivationId, authentic: bool, echoed: Option<Nonce>, next: Membership) returns (started: bool)
      requires Inv(Fields()) && id !in frames
      modifies this`frames
      ensures Inv(Fields()) && Fields() == OnStart(old(Fields()), id, authentic, echoed, next) && (started <==> id in frames)
    {
      StepKeepsInv(Fields(), Start(id, authentic, echoed, next));
      if !authentic { return false; }
      if challenge.None? || echoed != challenge { return false; }
      if next.epoch < 1 { return false; }
      if state.Some? && (next.epoch < state.value.epoch || (next.epoch == state.value.epoch && next != state.value)) { return false; }
      frames := frames[id := Frame(challenge.value, next)];
      started := true;
    }

    /** From the last await to the commit. */
    method CommitMembership(id: ActivationId) returns (receipt: Option<(Epoch, Nonce)>)
      requires Inv(Fields()) && id in frames
      modifies this`frames, this`state, this`challenge, this`reconciled, this`commits
      ensures Inv(Fields()) && Fields() == OnFinish(old(Fields()), id, old(frames)[id], self)
      ensures receipt.Some? <==> commits != old(commits)
      ensures receipt.Some? ==> commits == old(commits) + [Commit(receipt.value.1, old(frames)[id].next)] && receipt.value.0 == old(frames)[id].next.epoch
    {
      StepKeepsInv(Fields(), Finish(id, self));
      var f := frames[id];
      frames := frames - {id};
      if !Coherent(f.next, self) { return None; }
      if challenge != Some(f.challenge) { return None; }
      state := Some(f.next);
      commits := commits + [Commit(f.challenge, f.next)];
      challenge, reconciled := None, true;
      receipt := Some((f.next.epoch, f.challenge));
    }

    /** From the opened envelope on; the durable ledger is read and written in one transaction. */
    method ResolveAction(sender: Endpoint, grant: Option<Grant>, pending: Option<Request>, now: int) returns (verdict: Verdict)
      requires Inv(Fields())
      modifies this`ledger, this`accepted
      ensures Inv(Fields()) && (Fields(), verdict) == OnResolve(old(Fields()), sender, grant, pending, now)
    {
      StepKeepsInv(Fields(), Resolve(sender, grant, pending, now));
      if !reconciled { return Refused(ReconciliationRequired); }
      if grant.None? || state.None? || grant.value.epoch != state.value.epoch { return Refused(EpochStale); }
      if !Delegated(state.value, sender) { return Refused(NotDelegated); }
      var g := grant.value;
      if g.approverUser != sender.user || g.approverDevice != sender.device { return Refused(WrongApprover); }
      var refusal := Check(ledger, grant, pending, now, true);
      if refusal.Some? { return Refused(refusal.value); }
      ledger := Consume(ledger, g);
      accepted := accepted + [Acceptance(g, state.value)];
      verdict := Accepted(g.decision);
    }
  }
}
