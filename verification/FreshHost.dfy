/** packages/runtime/encrypted-host.js: how an execution host decides that its view of the team's
    membership is current.

    Every stretch of code between two awaits is one function from the host's fields and the frame of
    the call running it to new fields and a new frame. A run interleaves any number of calls with
    disconnects, renewals and whatever the relay chooses to answer. */
module FreshHost {
  import opened Wrappers
  import opened Chain
  import S = SignedLog

  type Nonce = nat
  type Id = nat

  const TTL: nat := 60000

  const PROPOSAL_TTL: nat := 120000

  /** How records read and which signatures verify, and the identity this host was given as the team's
      genesis. */
  datatype Env = Env(rules: S.Env, authority: S.Identity)

  /** The durable record of this host's appointed signer. Without one the genesis signs, in no recovery
      epoch and under no activation. */
  datatype Pin = Pin(signer: S.Identity, epoch: nat, activation: Option<nat>, revoked: bool)

  /** record() refuses any other shape. */
  predicate ValidPin(env: Env, pin: Pin) { pin.activation.None? ==> pin.signer == env.authority && pin.epoch == 0 }

  /** A relay's `currentProof`: what it names, whether its team, type and activation are the expected
      ones. Whether its signature verifies is decided by who signed what. */
  datatype Proof = Proof(challenge: Nonce, height: nat, hash: Hash, typed: bool, addressed: bool)

  /** What an authenticated log says about this host's own appointment. */
  datatype Standing = Clear | RequiresRecovery | Revoked | CandidateUnverified

  /** An appointment waiting for a local confirmation, with everything it must still match. */
  datatype Proposal = Proposal(id: nat, candidate: S.Identity, head: Floor, epoch: nat, prior: Floor, priorPin: Pin, generation: nat, expiresAt: nat)

  datatype Host = Host(reconciled: bool, challenge: Option<Nonce>, expiresAt: nat, generation: nat,
                       observed: Option<Floor>, durable: Option<Floor>, membership: Option<Log>,
                       pin: Pin, proposal: Option<Proposal>)

  datatype Phase =
    | Fetching
    | Replaying(log: Log, proof: Option<Proof>, checkpoint: Option<Floor>)
    | Deleting(log: Log, proof: Option<Proof>)
    | CheckingAncestor(log: Log, pin: Pin, ancestor: Floor)
    | CheckingProof(log: Log, pin: Pin)
    | Cancelling(log: Log)
    | Recovering(log: Log)
    | ReadDone(log: Log)
    | Posting

  /** Preparing and Committing are the two calls that appoint a signer; both only read the log. */
  datatype Purpose = Reconciling | Preparing | Committing(proposal: nat)

  /** A call in flight. */
  datatype Frame = Frame(purpose: Purpose, generation: nat, challenge: Option<Nonce>, needsProof: bool, phase: Phase)

  /** The fields after a stretch of code, and the frame it left behind if the call goes on. */
  datatype Turn = Turn(host: Host, frame: Option<Frame>)

  /** What the log says. A log that does not replay says nothing. */
  function StateOf(env: Env, log: Log): S.Membership {
    var m := S.Replay(env.rules, log);
    if m.Some? then m.value else S.EMPTY
  }

  predicate RevokedIn(m: S.Membership, i: S.Identity) {
    S.SlotOf(i) in m.endpoints && m.endpoints[S.SlotOf(i)] == S.Entry(i.keys, S.Revoked)
  }

  /** requiresRecovery, isRevoked and verifiedSigner, in the order they are asked. */
  function StandingOf(env: Env, pin: Pin, log: Log): Standing {
    var m := StateOf(env, log);
    if m.epoch != pin.epoch then RequiresRecovery
    else if pin.revoked || RevokedIn(m, pin.signer) then Revoked
    else if pin.activation.Some? && !S.Holds(m.endpoints, pin.signer) then CandidateUnverified
    else Clear
  }

  /** `checkpoint(value)`: nothing saved counts as the empty log. */
  function CheckpointOf(floor: Option<Floor>): Floor { if floor.Some? then floor.value else Floor(0, GENESIS) }

  function Replays(env: Env, log: Log, checkpoint: Option<Floor>): bool {
    && S.Replay(env.rules, log).Some? && (log != [] ==> env.rules.read(log[0].body).signer == env.authority)
    && (checkpoint.Some? && checkpoint.value.height > 0 ==>
          checkpoint.value.height <= |log| && HeadHash(env.rules.digest, log[..checkpoint.value.height]) == checkpoint.value.hash)
  }

  function PassesFloors(env: Env, h: Host, log: Log): bool {
    && (h.durable.Some? ==> Passes(env.rules.digest, h.durable.value, log))
    && (h.observed.Some? ==> Passes(env.rules.digest, h.observed.value, log))
  }

  // ---- one function per await-free stretch ----

  function Disconnected(h: Host): Host {
    h.(reconciled := false, challenge := None, expiresAt := 0, generation := h.generation + 1)
  }

  /** The catch clause: a failed call clears `reconciled` only in its own generation. */
  function Abort(h: Host, f: Frame): Turn {
    Turn(if f.purpose.Reconciling? && f.generation == h.generation then h.(reconciled := false) else h, None)
  }

  function StartReconcile(h: Host): Turn {
    if h.pin.revoked then Turn(Disconnected(h), None)
    else Turn(h, Some(Frame(Reconciling, h.generation, h.challenge, !h.reconciled, Fetching)))
  }

  function StartRead(h: Host, purpose: Purpose): Turn {
    Turn(h, Some(Frame(purpose, h.generation, None, false, Fetching)))
  }

  /** The relay answered; replay starts against the checkpoint held right now. */
  function OnResponse(h: Host, f: Frame, log: Log, proof: Option<Proof>): Turn {
    Turn(h, Some(f.(phase := Replaying(log, proof, h.durable))))
  }

  function OnReplayed(env: Env, h: Host, f: Frame): Turn
    requires f.phase.Replaying?
  {
    var log := f.phase.log;
    if !Replays(env, log, f.phase.checkpoint) || !PassesFloors(env, h, log) then Abort(h, f)
    else
      Turn(h.(observed := Some(FloorOf(env.rules.digest, log))),
           Some(f.(phase := if f.purpose.Reconciling? then Deleting(log, f.phase.proof) else ReadDone(log))))
  }

  /** The synchronous part of beginReconcile. */
  function Begin(h: Host, nonce: Nonce, now: nat): Turn {
    var h' := h.(reconciled := false, generation := h.generation + 1, challenge := Some(nonce), expiresAt := now + TTL);
    Turn(h', Some(Frame(Reconciling, h'.generation, Some(nonce), true, Posting)))
  }

  function OnPosted(h: Host, f: Frame, ok: bool): Turn {
    Turn(if !ok && f.generation == h.generation then h.(challenge := None, expiresAt := 0) else h, None)
  }

  function Expired(h: Host, f: Frame, now: nat): bool {
    f.generation != h.generation || (f.needsProof && now >= h.expiresAt)
  }

  function NamesAncestor(env: Env, f: Frame, p: Proof, log: Log): bool {
    && f.challenge == Some(p.challenge) && p.typed
    && 0 < p.height < |log| && log[p.height].previous == p.hash
  }

  function NamesHead(env: Env, f: Frame, p: Proof, log: Log): bool {
    Floor(p.height, p.hash) == FloorOf(env.rules.digest, log) && f.challenge == Some(p.challenge) && p.typed && p.addressed
  }

  /** After authenticated deletions were applied: standing, generation, and choice of proof check. */
  function OnDeletions(env: Env, h: Host, f: Frame, saved: bool, nonce: Nonce, now: nat): Turn
    requires f.phase.Deleting?
  {
    var log, proof := f.phase.log, f.phase.proof;
    var standing := StandingOf(env, h.pin, log);
    var floor := Some(FloorOf(env.rules.digest, log));
    if standing.RequiresRecovery? then
      var h' := Disconnected(h.(membership := Some(log)));
      Turn(if saved then h'.(durable := floor) else h', None)
    else if standing.Revoked? then
      var h' := Disconnected(h.(membership := Some(log)));
      Turn(if saved then h'.(durable := floor, pin := h.pin.(revoked := true), proposal := None) else h', None)
    else if standing.CandidateUnverified? || f.generation != h.generation then Abort(h, f)
    else if !f.needsProof then OnAuthorized(env, h, f, log, saved, now)
    else if f.challenge.None? || now >= h.expiresAt then Renew(h, f, nonce, now)
    else if proof.Some? && NamesAncestor(env, f, proof.value, log) then
      Turn(h, Some(f.(phase := CheckingAncestor(log, h.pin, Floor(proof.value.height, proof.value.hash)))))
    else if proof.Some? && NamesHead(env, f, proof.value, log) then
      Turn(h, Some(f.(phase := CheckingProof(log, h.pin))))
    else Abort(h, f)
  }

  /** A call that finds it needs a new nonce asks for one and then fails. */
  function Renew(h: Host, f: Frame, nonce: Nonce, now: nat): Turn {
    if h.pin.revoked then Abort(h, f) else Begin(h, nonce, now)
  }

  function OnAncestor(h: Host, f: Frame, verified: bool, nonce: Nonce, now: nat): Turn {
    if verified && f.generation == h.generation && h.challenge == f.challenge && !h.reconciled && now < h.expiresAt
    then Renew(h, f, nonce, now)
    else Abort(h, f)
  }

  function OnProof(env: Env, h: Host, f: Frame, verified: bool, saved: bool, now: nat): Turn
    requires f.phase.CheckingProof?
  {
    if verified then OnAuthorized(env, h, f, f.phase.log, saved, now) else Abort(h, f)
  }

  /** Adopt the membership and save its floor, or disconnect when the floor cannot be saved. */
  function OnAuthorized(env: Env, h: Host, f: Frame, log: Log, saved: bool, now: nat): Turn {
    if Expired(h, f, now) || !PassesFloors(env, h, log) then Abort(h, f)
    else
      var h' := h.(membership := Some(log));
      if saved then Turn(h'.(durable := Some(FloorOf(env.rules.digest, log))), Some(f.(phase := Cancelling(log))))
      else Turn(Disconnected(h'), None)
  }

  /** Affected turns were cancelled. */
  function OnCancelled(env: Env, h: Host, f: Frame, ok: bool, now: nat): Turn
    requires f.phase.Cancelling?
  {
    if !ok || Expired(h, f, now) || !PassesFloors(env, h, f.phase.log) then Abort(h, f)
    else Turn(h, Some(f.(phase := Recovering(f.phase.log))))
  }

  /** Owner recovery is settled; the last checks, and the only place that sets `reconciled`. */
  function OnRecovered(env: Env, h: Host, f: Frame, ok: bool, now: nat): Turn
    requires f.phase.Recovering?
  {
    if !ok || Expired(h, f, now) || !PassesFloors(env, h, f.phase.log) then Abort(h, f)
    else Turn(h.(reconciled := true), None)
  }

  /** prepareFreshnessAuthority after its read: the candidate must be a verified device of the genesis's
      owner, and another than the signer unless recovery is what is needed. */
  function Prepare(env: Env, h: Host, f: Frame, id: nat, candidate: S.Identity, now: nat): Turn
    requires f.phase.ReadDone?
  {
    var m := StateOf(env, f.phase.log);
    if candidate.user != env.authority.user || !S.Holds(m.endpoints, candidate) || (candidate == h.pin.signer && m.epoch == h.pin.epoch)
    then Turn(h, None)
    else
      Turn(h.(proposal := Some(Proposal(id, candidate, FloorOf(env.rules.digest, f.phase.log), m.epoch, CheckpointOf(h.durable), h.pin,
                                        h.generation, now + PROPOSAL_TTL))), None)
  }

  /** The confirmation still meets what the proposal saw. */
  predicate Matches(env: Env, h: Host, f: Frame, p: Proposal, now: nat)
    requires f.phase.ReadDone?
  {
    var m := StateOf(env, f.phase.log);
    && now < p.expiresAt && h.generation == p.generation && FloorOf(env.rules.digest, f.phase.log) == p.head && m.epoch == p.epoch
    && CheckpointOf(h.durable) == p.prior && h.pin == p.priorPin && S.Holds(m.endpoints, p.candidate)
  }

  /** commitFreshnessAuthority after its own read: the proposal is used up, and if it still matches, the
      signer and the floor are saved together. */
  function CommitPin(env: Env, h: Host, f: Frame, activation: nat, saved: bool, now: nat): Turn
    requires f.phase.ReadDone? && f.purpose.Committing?
  {
    if h.proposal.None? || h.proposal.value.id != f.purpose.proposal then Turn(h, None)
    else
      var p, used := h.proposal.value, h.(proposal := None);
      if !Matches(env, h, f, p, now) || !saved then Turn(used, None)
      else
        Turn(Disconnected(used.(pin := Pin(p.candidate, p.epoch, Some(activation), false), durable := Some(p.head), membership := Some(f.phase.log))), None)
  }

  // ---- runs ----

  /** A signature that exists: who signed which head for which nonce, under which activation. */
  datatype Attestation = Attestation(signer: S.Identity, activation: Option<nat>, nonce: Nonce, head: Floor)

  datatype Accepted = Accepted(generation: nat, pin: Pin, log: Log)

  datatype Issue = Issue(nonce: Nonce, at: nat)

  /** What happened so far: every log a read authenticated, the longest of them, the nonce each
      generation issued, every signature made (with its time), every proof accepted and the number of
      proposals made. */
  datatype Past = Past(seen: set<Log>, best: Log, issued: map<nat, Issue>, signed: map<Attestation, nat>,
                       accepted: set<Accepted>, clock: nat, proposals: nat)

  datatype State = State(host: Host, frames: map<Id, Frame>, past: Past)

  datatype Event =
    | CallReconcile(id: Id)
    | CallPrepare(id: Id)
    | CallCommit(id: Id, proposal: nat)
    | CallBegin(id: Id, nonce: Nonce, now: nat)
    | Disconnect
    | Sign(signature: Attestation, now: nat)
    | Answered(id: Id, log: Log, proof: Option<Proof>)
    | Failed(id: Id)
    | Replayed(id: Id)
    | DeletionsApplied(id: Id, saved: bool, nonce: Nonce, now: nat)
    | AncestorChecked(id: Id, nonce: Nonce, now: nat)
    | ProofChecked(id: Id, saved: bool, now: nat)
    | TurnsCancelled(id: Id, ok: bool, now: nat)
    | RecoverySettled(id: Id, ok: bool, now: nat)
    | Posted(id: Id, ok: bool)
    | Prepared(id: Id, candidate: S.Identity, now: nat)
    | Committed(id: Id, activation: nat, saved: bool, now: nat)

  function Later(s: State, now: nat): nat { if now > s.past.clock then now else s.past.clock }

  predicate In(s: State, id: Id) { id in s.frames }

  /** Nonces are random: one that was never issued has never been signed either. */
  predicate FreshNonce(s: State, nonce: Nonce) {
    && (forall g :: g in s.past.issued ==> s.past.issued[g].nonce != nonce)
    && (forall a :: a in s.past.signed ==> a.nonce != nonce)
  }

  /** Installs the outcome of a stretch of code run by call `id`. A new generation with a challenge is
      a newly issued nonce. */
  function Put(s: State, id: Id, t: Turn, now: nat): State {
    var issued := if t.host.generation > s.host.generation && t.host.challenge.Some?
                  then s.past.issued[t.host.generation := Issue(t.host.challenge.value, now)] else s.past.issued;
    State(t.host, if t.frame.Some? then s.frames[id := t.frame.value] else s.frames - {id},
          s.past.(issued := issued, clock := now))
  }

  function Observed(env: Env, s: State, log: Log): State {
    s.(host := s.host.(observed := Some(FloorOf(env.rules.digest, log))), past := s.past.(seen := s.past.seen + {log}, best := log))
  }

  function Accepting(s: State, p: Accepted): State { s.(past := s.past.(accepted := s.past.accepted + {p})) }

  function Proposing(s: State): State { s.(past := s.past.(proposals := s.past.proposals + 1)) }

  function Step(env: Env, s: State, e: Event): State {
    var h := s.host;
    match e
    case CallReconcile(id) => if In(s, id) then s else Put(s, id, StartReconcile(h), s.past.clock)
    case CallPrepare(id) => if In(s, id) then s else Put(s, id, StartRead(h, Preparing), s.past.clock)
    case CallCommit(id, proposal) => // the number is a secret until it is given out
      if In(s, id) || proposal >= s.past.proposals then s else Put(s, id, StartRead(h, Committing(proposal)), s.past.clock)
    case CallBegin(id, nonce, now) =>
      if In(s, id) || h.pin.revoked || !FreshNonce(s, nonce) then s else Put(s, id, Begin(h, nonce, Later(s, now)), Later(s, now))
    case Disconnect => s.(host := Disconnected(h))
    case Sign(a, now) => // a signer answers only a nonce it was shown
      if exists g :: g in s.past.issued && s.past.issued[g].nonce == a.nonce
      then s.(past := s.past.(clock := Later(s, now), signed := if a in s.past.signed then s.past.signed else s.past.signed[a := Later(s, now)]))
      else s
    case Answered(id, log, proof) =>
      if In(s, id) && s.frames[id].phase.Fetching? then Put(s, id, OnResponse(h, s.frames[id], log, proof), s.past.clock) else s
    case Failed(id) =>
      if In(s, id) && !s.frames[id].phase.Posting? then Put(s, id, Abort(h, s.frames[id]), s.past.clock) else s
    case Replayed(id) =>
      if In(s, id) && s.frames[id].phase.Replaying? then
        var t := OnReplayed(env, h, s.frames[id]);
        Put(if t.frame.Some? then Observed(env, s, s.frames[id].phase.log) else s, id, t, s.past.clock)
      else s
    case DeletionsApplied(id, saved, nonce, now) =>
      if In(s, id) && s.frames[id].phase.Deleting? && FreshNonce(s, nonce)
      then Put(s, id, OnDeletions(env, h, s.frames[id], saved, nonce, Later(s, now)), Later(s, now)) else s
    case AncestorChecked(id, nonce, now) =>
      if In(s, id) && s.frames[id].phase.CheckingAncestor? && s.frames[id].challenge.Some? && FreshNonce(s, nonce) then
        var f := s.frames[id];
        var ok := Attestation(f.phase.pin.signer, f.phase.pin.activation, f.challenge.value, f.phase.ancestor) in s.past.signed;
        Put(s, id, OnAncestor(h, f, ok, nonce, Later(s, now)), Later(s, now))
      else s
    case ProofChecked(id, saved, now) =>
      if In(s, id) && s.frames[id].phase.CheckingProof? && s.frames[id].challenge.Some? then
        var f := s.frames[id];
        var ok := Attestation(f.phase.pin.signer, f.phase.pin.activation, f.challenge.value, FloorOf(env.rules.digest, f.phase.log)) in s.past.signed;
        Put(if ok then Accepting(s, Accepted(f.generation, f.phase.pin, f.phase.log)) else s,
            id, OnProof(env, h, f, ok, saved, Later(s, now)), Later(s, now))
      else s
    case TurnsCancelled(id, ok, now) =>
      if In(s, id) && s.frames[id].phase.Cancelling? then Put(s, id, OnCancelled(env, h, s.frames[id], ok, Later(s, now)), Later(s, now)) else s
    case RecoverySettled(id, ok, now) =>
      if In(s, id) && s.frames[id].phase.Recovering? then Put(s, id, OnRecovered(env, h, s.frames[id], ok, Later(s, now)), Later(s, now)) else s
    case Posted(id, ok) =>
      if In(s, id) && s.frames[id].phase.Posting? then Put(s, id, OnPosted(h, s.frames[id], ok), s.past.clock) else s
    case Prepared(id, candidate, now) =>
      if In(s, id) && s.frames[id].phase.ReadDone? && s.frames[id].purpose.Preparing?
      then Put(Proposing(s), id, Prepare(env, h, s.frames[id], s.past.proposals, candidate, Later(s, now)), Later(s, now)) else s
    case Committed(id, activation, saved, now) =>
      if In(s, id) && s.frames[id].phase.ReadDone? && s.frames[id].purpose.Committing?
      then Put(s, id, CommitPin(env, h, s.frames[id], activation, saved, Later(s, now)), Later(s, now)) else s
  }

  function Run(env: Env, s: State, events: seq<Event>): State
    decreases |events|
  {
    if events == [] then s else Run(env, Step(env, s, events[0]), events[1..])
  }

  /** A process that has just started, with whatever floor its disk kept. */
  function Started(durable: Option<Floor>, pin: Pin): State {
    State(Host(false, None, 0, 0, None, durable, None, pin, None), map[], Past({}, [], map[], map[], {}, 0, 0))
  }

  // ---- the invariant ----

  ghost predicate FloorInv(env: Env, s: State) {
    && (s.host.observed.None? ==> s.past.seen == {})
    && (s.host.observed.Some? ==> s.past.best in s.past.seen && s.host.observed.value == FloorOf(env.rules.digest, s.past.best))
    && (forall l :: l in s.past.seen ==> l <= s.past.best && Authentic(env, l))
  }

  /** It replays from the genesis this host was given. */
  predicate Authentic(env: Env, log: Log) {
    Chained(env.rules.digest, log) && S.Replay(env.rules, log).Some? && (log != [] ==> env.rules.read(log[0].body).signer == env.authority)
  }

  /** The floor is where some first part of the log ends. */
  predicate Below(env: Env, floor: Floor, log: Log) {
    floor.height <= |log| && FloorOf(env.rules.digest, log[..floor.height]) == floor
  }

  /** Every floor kept is a place the longest log seen has passed through. */
  ghost predicate AppointmentInv(env: Env, s: State) {
    && ValidPin(env, s.host.pin)
    && (s.past.seen != {} && s.host.durable.Some? ==> Below(env, s.host.durable.value, s.past.best))
    && (s.host.proposal.Some? ==>
          s.past.seen != {} && Below(env, s.host.proposal.value.prior, s.past.best) && s.host.proposal.value.id < s.past.proposals)
  }

  ghost predicate NonceInv(s: State) {
    && (s.host.challenge.Some? ==>
          && s.host.generation in s.past.issued
          && s.past.issued[s.host.generation].nonce == s.host.challenge.value
          && s.host.expiresAt == s.past.issued[s.host.generation].at + TTL)
    && (s.host.challenge.None? ==> s.host.expiresAt == 0)
    && (forall g :: g in s.past.issued ==> g <= s.host.generation && s.past.issued[g].at <= s.past.clock)
    && (forall a, g :: a in s.past.signed && g in s.past.issued && s.past.issued[g].nonce == a.nonce ==>
          s.past.issued[g].at <= s.past.signed[a])
  }

  function AttestationOf(env: Env, p: Accepted, nonce: Nonce): Attestation {
    Attestation(p.pin.signer, p.pin.activation, nonce, FloorOf(env.rules.digest, p.log))
  }

  /** A proof accepted in generation g: signed, for that generation's nonce, over an authenticated log. */
  ghost predicate Genuine(env: Env, s: State, p: Accepted) {
    && p.generation in s.past.issued
    && AttestationOf(env, p, s.past.issued[p.generation].nonce) in s.past.signed
    && p.log in s.past.seen
    && (p.generation == s.host.generation ==> p.pin == s.host.pin)
  }

  ghost predicate Proved(s: State, generation: nat) {
    exists p :: p in s.past.accepted && p.generation == generation
  }

  ghost predicate ProofInv(env: Env, s: State) {
    && (forall p :: p in s.past.accepted ==> Genuine(env, s, p))
    && (s.host.reconciled ==> Proved(s, s.host.generation) && !s.host.pin.revoked)
  }

  /** The phases that hold a log which survived replay and the floor check. */
  predicate HasRead(p: Phase) { !p.Fetching? && !p.Replaying? && !p.Posting? }

  ghost predicate FrameInv(env: Env, s: State, f: Frame) {
    && f.generation <= s.host.generation
    && (f.challenge.Some? ==> f.generation in s.past.issued && s.past.issued[f.generation].nonce == f.challenge.value)
    && (HasRead(f.phase) ==> f.phase.log in s.past.seen)
    && (f.phase.ReadDone? ==> !f.purpose.Reconciling?)
    && (!f.purpose.Reconciling? ==> f.phase.Fetching? || f.phase.Replaying? || f.phase.ReadDone?)
    && (f.purpose.Reconciling? && !f.needsProof ==> Proved(s, f.generation))
    && ((f.phase.CheckingProof? || f.phase.CheckingAncestor?) && f.generation == s.host.generation ==> f.phase.pin == s.host.pin)
    && (f.phase.Cancelling? || f.phase.Recovering? ==> Proved(s, f.generation))
    && ((f.phase.Cancelling? || f.phase.Recovering?) && f.generation == s.host.generation ==>
          s.host.membership.Some? && s.host.membership.value in s.past.seen && f.phase.log <= s.host.membership.value)
    && (s.host.pin.revoked && f.purpose.Reconciling? && !f.phase.Posting? ==> f.generation < s.host.generation)
    && (PastStanding(f.phase) && f.generation == s.host.generation ==> StandingOf(env, s.host.pin, f.phase.log).Clear?)
    && (f.purpose.Committing? ==> f.purpose.proposal < s.past.proposals && CommitInv(env, s, f))
  }

  /** The phases behind the checks of this host's own standing. */
  predicate PastStanding(p: Phase) { p.CheckingProof? || p.CheckingAncestor? || p.Cancelling? || p.Recovering? }

  /** A confirmation reads after the proposal was made. */
  ghost predicate CommitInv(env: Env, s: State, f: Frame)
    requires f.purpose.Committing?
  {
    f.phase.ReadDone? && s.host.proposal.Some? && s.host.proposal.value.id == f.purpose.proposal ==> Below(env, s.host.proposal.value.prior, f.phase.log)
  }

  ghost predicate FramesInv(env: Env, s: State) { forall id :: id in s.frames ==> FrameInv(env, s, s.frames[id]) }

  ghost predicate Inv(env: Env, s: State) {
    FloorInv(env, s) && NonceInv(s) && ProofInv(env, s) && AppointmentInv(env, s) && FramesInv(env, s)
  }

  lemma StartedInv(env: Env, durable: Option<Floor>, pin: Pin)
    requires ValidPin(env, pin)
    ensures Inv(env, Started(durable, pin))
  {
  }

  // ---- every step keeps the invariant ----

  /** How a stretch of code may change the host without leaving its generation. */
  ghost predicate SameGeneration(s: State, h: Host) {
    && h.generation == s.host.generation && h.pin == s.host.pin && h.observed == s.host.observed
    && ((h.challenge == s.host.challenge && h.expiresAt == s.host.expiresAt) || (h.challenge.None? && h.expiresAt == 0))
    && (h.reconciled ==> s.host.reconciled || (Proved(s, h.generation) && !h.pin.revoked))
    && (h.membership == s.host.membership || (h.membership == Some(s.past.best) && s.past.best in s.past.seen))
  }

  /** How it may change the host when it starts a new generation. */
  ghost predicate NewGeneration(s: State, h: Host, now: nat) {
    && h.generation == s.host.generation + 1 && !h.reconciled && h.observed == s.host.observed
    && (h.challenge.None? ==> h.expiresAt == 0)
    && (h.challenge.Some? ==> FreshNonce(s, h.challenge.value) && h.expiresAt == now + TTL)
  }

  /** How it may change what it keeps about appointments. */
  ghost predicate Appoints(env: Env, s: State, h: Host) {
    && ValidPin(env, h.pin)
    && (h.durable == s.host.durable || exists l :: l in s.past.seen && h.durable == Some(FloorOf(env.rules.digest, l)))
    && (h.proposal == s.host.proposal || h.proposal.None? || NewProposal(env, s, h.proposal.value))
  }

  ghost predicate NewProposal(env: Env, s: State, p: Proposal) {
    && s.past.seen != {} && Below(env, p.prior, s.past.best) && p.id < s.past.proposals
    && forall id :: id in s.frames && s.frames[id].purpose.Committing? ==> s.frames[id].purpose.proposal != p.id
  }

  lemma PrefixIsBelow(env: Env, x: Log, y: Log)
    requires x <= y
    ensures Below(env, FloorOf(env.rules.digest, x), y)
    ensures forall floor: Floor :: Below(env, floor, x) ==> Below(env, floor, y)
  {
    assert y[..|x|] == x;
    forall floor: Floor | Below(env, floor, x) ensures Below(env, floor, y) { assert y[..floor.height] == x[..floor.height]; }
  }

  lemma PassingIsBelow(env: Env, floor: Floor, log: Log)
    requires Chained(env.rules.digest, log) && Passes(env.rules.digest, floor, log)
    ensures Below(env, floor, log)
  {
    if |log| == floor.height { assert log[..floor.height] == log; }
  }

  lemma AppointmentsMove(env: Env, s: State, id: Id, h: Host, now: nat)
    requires Inv(env, s) && Appoints(env, s, h)
    ensures AppointmentInv(env, Put(s, id, Turn(h, None), now))
  {
    forall l | l in s.past.seen && h.durable == Some(FloorOf(env.rules.digest, l)) ensures Below(env, h.durable.value, s.past.best) {
      PrefixIsBelow(env, l, s.past.best);
    }
  }

  lemma HostMoves(env: Env, s: State, id: Id, h: Host, now: nat)
    requires Inv(env, s) && s.past.clock <= now && Appoints(env, s, h)
    requires SameGeneration(s, h) || NewGeneration(s, h, now)
    ensures Inv(env, Put(s, id, Turn(h, None), now))
  {
    var s' := Put(s, id, Turn(h, None), now);
    AppointmentsMove(env, s, id, h, now);
    assert NonceInv(s');
    forall p | p in s'.past.accepted ensures Genuine(env, s', p) { assert Genuine(env, s, p); }
    forall g | Proved(s, g) ensures Proved(s', g) {
      var p :| p in s.past.accepted && p.generation == g;
      assert p in s'.past.accepted;
    }
    forall i | i in s'.frames ensures FrameInv(env, s', s'.frames[i]) { assert FrameInv(env, s, s.frames[i]); }
  }

  lemma PutKeeps(env: Env, s: State, id: Id, t: Turn, now: nat)
    requires Inv(env, s) && s.past.clock <= now && Appoints(env, s, t.host)
    requires SameGeneration(s, t.host) || NewGeneration(s, t.host, now)
    requires t.frame.Some? ==> FrameInv(env, Put(s, id, t, now), t.frame.value)
    ensures Inv(env, Put(s, id, t, now))
  {
    HostMoves(env, s, id, t.host, now);
    var s0, s' := Put(s, id, Turn(t.host, None), now), Put(s, id, t, now);
    assert s'.host == s0.host && s'.past == s0.past;
    forall i | i in s'.frames ensures FrameInv(env, s', s'.frames[i]) {
      if i != id { assert i in s0.frames && FrameInv(env, s0, s0.frames[i]); }
    }
  }

  /** An authenticated log that passes the floor check now is the longest one seen. */
  lemma PassingIsBest(env: Env, s: State, log: Log)
    requires CollisionFree(env.rules.digest) && Inv(env, s) && log in s.past.seen && PassesFloors(env, s.host, log)
    ensures log == s.past.best && s.past.best in s.past.seen
  {
    FloorAcceptsExtensions(env.rules.digest, s.past.best, log);
  }

  lemma SignKeepsInv(env: Env, s: State, a: Attestation, now: nat)
    requires Inv(env, s)
    ensures Inv(env, Step(env, s, Sign(a, now)))
  {
    var s' := Step(env, s, Sign(a, now));
    forall p | p in s'.past.accepted ensures Genuine(env, s', p) { assert Genuine(env, s, p); }
    forall g | Proved(s, g) ensures Proved(s', g) {
      var p :| p in s.past.accepted && p.generation == g;
      assert p in s'.past.accepted;
    }
    forall i | i in s'.frames ensures FrameInv(env, s', s'.frames[i]) { assert FrameInv(env, s, s.frames[i]); }
  }

  lemma DisconnectKeepsInv(env: Env, s: State)
    requires Inv(env, s)
    ensures Inv(env, s.(host := Disconnected(s.host)))
  {
    var s' := s.(host := Disconnected(s.host));
    forall p | p in s'.past.accepted ensures Genuine(env, s', p) { assert Genuine(env, s, p); }
    forall g | Proved(s, g) ensures Proved(s', g) {
      var p :| p in s.past.accepted && p.generation == g;
      assert p in s'.past.accepted;
    }
    forall i | i in s'.frames ensures FrameInv(env, s', s'.frames[i]) { assert FrameInv(env, s, s.frames[i]); }
  }

  /** Authenticating a log that passes both floors makes it the new best. */
  lemma ObserveKeepsInv(env: Env, s: State, log: Log)
    requires CollisionFree(env.rules.digest) && Inv(env, s) && Authentic(env, log) && PassesFloors(env, s.host, log)
    ensures Inv(env, Observed(env, s, log))
    ensures s.past.seen != {} ==> s.past.best <= log
  {
    var s' := Observed(env, s, log);
    if s.host.observed.Some? {
      FloorAcceptsExtensions(env.rules.digest, s.past.best, log);
      PrefixIsBelow(env, s.past.best, log);
    }
    if s.host.durable.Some? { PassingIsBelow(env, s.host.durable.value, log); }
    assert FloorInv(env, s');
    forall p | p in s'.past.accepted ensures Genuine(env, s', p) { assert Genuine(env, s, p); }
    forall g | Proved(s, g) ensures Proved(s', g) {
      var p :| p in s.past.accepted && p.generation == g;
      assert p in s'.past.accepted;
    }
    forall i | i in s'.frames ensures FrameInv(env, s', s'.frames[i]) { assert FrameInv(env, s, s.frames[i]); }
  }

  lemma AcceptKeepsInv(env: Env, s: State, p: Accepted)
    requires Inv(env, s) && Genuine(env, s, p)
    ensures Inv(env, Accepting(s, p)) && Proved(Accepting(s, p), p.generation)
  {
    var s' := Accepting(s, p);
    assert p in s'.past.accepted;
    forall q | q in s'.past.accepted ensures Genuine(env, s', q) { if q != p { assert Genuine(env, s, q); } }
    forall g | Proved(s, g) ensures Proved(s', g) {
      var q :| q in s.past.accepted && q.generation == g;
      assert q in s'.past.accepted;
    }
    forall i | i in s'.frames ensures FrameInv(env, s', s'.frames[i]) { assert FrameInv(env, s, s.frames[i]); }
  }

  lemma ReplayedKeepsInv(env: Env, s: State, id: Id)
    requires CollisionFree(env.rules.digest) && Inv(env, s)
    ensures Inv(env, Step(env, s, Replayed(id)))
  {
    if In(s, id) && s.frames[id].phase.Replaying? {
      var f := s.frames[id];
      assert FrameInv(env, s, f);
      if OnReplayed(env, s.host, f).frame.Some? {
        var log := f.phase.log;
        S.ReplayIsChain(env.rules, log);
        ObserveKeepsInv(env, s, log);
        var s1 := Observed(env, s, log);
        assert FrameInv(env, s1, s1.frames[id]);
        StayKeepsInv(env, s1, id, f, f.(phase := if f.purpose.Reconciling? then Deleting(log, f.phase.proof) else ReadDone(log)), s.past.clock);
      } else {
        AbortKeepsInv(env, s, id, f, s.past.clock);
      }
    }
  }

  lemma AbortKeepsInv(env: Env, s: State, id: Id, f: Frame, now: nat)
    requires Inv(env, s) && s.past.clock <= now
    ensures Inv(env, Put(s, id, Abort(s.host, f), now))
  {
    PutKeeps(env, s, id, Abort(s.host, f), now);
  }

  lemma RenewKeepsInv(env: Env, s: State, id: Id, f: Frame, nonce: Nonce, now: nat)
    requires Inv(env, s) && s.past.clock <= now && FreshNonce(s, nonce)
    ensures Inv(env, Put(s, id, Renew(s.host, f, nonce, now), now))
  {
    PutKeeps(env, s, id, Renew(s.host, f, nonce, now), now);
  }

  lemma DisconnectingKeepsInv(env: Env, s: State, id: Id, h: Host, now: nat)
    requires Inv(env, s) && s.past.clock <= now && h.generation == s.host.generation && h.observed == s.host.observed
    requires Appoints(env, s, h)
    ensures Inv(env, Put(s, id, Turn(Disconnected(h), None), now))
  {
    PutKeeps(env, s, id, Turn(Disconnected(h), None), now);
  }

  lemma AuthorizedKeepsInv(env: Env, s: State, id: Id, f: Frame, log: Log, saved: bool, now: nat)
    requires CollisionFree(env.rules.digest) && Inv(env, s) && FrameInv(env, s, f) && s.past.clock <= now
    requires f.purpose.Reconciling? && !f.phase.Posting? && log in s.past.seen && Proved(s, f.generation)
    requires f.generation == s.host.generation ==> StandingOf(env, s.host.pin, log).Clear?
    ensures Inv(env, Put(s, id, OnAuthorized(env, s.host, f, log, saved, now), now))
  {
    if Expired(s.host, f, now) || !PassesFloors(env, s.host, log) {
      AbortKeepsInv(env, s, id, f, now);
    } else if !saved {
      DisconnectingKeepsInv(env, s, id, s.host.(membership := Some(log)), now);
    } else {
      PassingIsBest(env, s, log);
      AdoptKeepsInv(env, s, id, f, now);
    }
  }

  lemma AdoptKeepsInv(env: Env, s: State, id: Id, f: Frame, now: nat)
    requires Inv(env, s) && FrameInv(env, s, f) && s.past.clock <= now && f.generation == s.host.generation
    requires f.purpose.Reconciling? && s.past.best in s.past.seen && Proved(s, f.generation) && !f.phase.Posting?
    requires StandingOf(env, s.host.pin, s.past.best).Clear?
    ensures Inv(env, Put(s, id, Turn(s.host.(membership := Some(s.past.best), durable := Some(FloorOf(env.rules.digest, s.past.best))),
                                     Some(f.(phase := Cancelling(s.past.best)))), now))
  {
    var t := Turn(s.host.(membership := Some(s.past.best), durable := Some(FloorOf(env.rules.digest, s.past.best))),
                  Some(f.(phase := Cancelling(s.past.best))));
    SameProof(env, s, id, t, now, f.generation);
    PutKeeps(env, s, id, t, now);
  }

  lemma StayKeepsInv(env: Env, s: State, id: Id, f: Frame, f': Frame, now: nat)
    requires Inv(env, s) && FrameInv(env, s, f) && s.past.clock <= now && f' == f.(phase := f'.phase)
    requires FrameInv(env, s, f')
    ensures Inv(env, Put(s, id, Turn(s.host, Some(f')), now))
  {
    forall g | Proved(s, g) ensures Proved(Put(s, id, Turn(s.host, Some(f')), now), g) {
      SameProof(env, s, id, Turn(s.host, Some(f')), now, g);
    }
    PutKeeps(env, s, id, Turn(s.host, Some(f')), now);
  }

  lemma DeletionsKeepInv(env: Env, s: State, id: Id, saved: bool, nonce: Nonce, now: nat)
    requires CollisionFree(env.rules.digest) && Inv(env, s)
    ensures Inv(env, Step(env, s, DeletionsApplied(id, saved, nonce, now)))
  {
    if In(s, id) && s.frames[id].phase.Deleting? && FreshNonce(s, nonce) {
      var f, later := s.frames[id], Later(s, now);
      assert FrameInv(env, s, f);
      var log, proof := f.phase.log, f.phase.proof;
      var standing := StandingOf(env, s.host.pin, log);
      if standing.RequiresRecovery? || standing.Revoked? {
        RemovedKeepsInv(env, s, id, f, saved, nonce, later);
      } else if standing.CandidateUnverified? || f.generation != s.host.generation {
        AbortKeepsInv(env, s, id, f, later);
      } else if !f.needsProof {
        AuthorizedKeepsInv(env, s, id, f, log, saved, later);
      } else if f.challenge.None? || later >= s.host.expiresAt {
        RenewKeepsInv(env, s, id, f, nonce, later);
      } else if proof.Some? && NamesAncestor(env, f, proof.value, log) {
        StayKeepsInv(env, s, id, f, f.(phase := CheckingAncestor(log, s.host.pin, Floor(proof.value.height, proof.value.hash))), later);
      } else if proof.Some? && NamesHead(env, f, proof.value, log) {
        StayKeepsInv(env, s, id, f, f.(phase := CheckingProof(log, s.host.pin)), later);
      } else {
        AbortKeepsInv(env, s, id, f, later);
      }
    }
  }

  lemma RemovedKeepsInv(env: Env, s: State, id: Id, f: Frame, saved: bool, nonce: Nonce, now: nat)
    requires Inv(env, s) && s.past.clock <= now && f.phase.Deleting? && f.phase.log in s.past.seen
    requires StandingOf(env, s.host.pin, f.phase.log).RequiresRecovery? || StandingOf(env, s.host.pin, f.phase.log).Revoked?
    ensures Inv(env, Put(s, id, OnDeletions(env, s.host, f, saved, nonce, now), now))
  {
    PutKeeps(env, s, id, OnDeletions(env, s.host, f, saved, nonce, now), now);
  }

  lemma ProofKeepsInv(env: Env, s: State, id: Id, saved: bool, now: nat)
    requires CollisionFree(env.rules.digest) && Inv(env, s)
    ensures Inv(env, Step(env, s, ProofChecked(id, saved, now)))
  {
    if In(s, id) && s.frames[id].phase.CheckingProof? && s.frames[id].challenge.Some? {
      var f := s.frames[id];
      assert FrameInv(env, s, f);
      var p := Accepted(f.generation, f.phase.pin, f.phase.log);
      if AttestationOf(env, p, f.challenge.value) in s.past.signed {
        assert Genuine(env, s, p);
        AcceptKeepsInv(env, s, p);
        var s1 := Accepting(s, p);
        assert FrameInv(env, s1, s1.frames[id]);
        AuthorizedKeepsInv(env, s1, id, f, p.log, saved, Later(s, now));
      } else {
        AbortKeepsInv(env, s, id, f, Later(s, now));
      }
    }
  }

  lemma CallKeepsInv(env: Env, s: State, e: Event)
    requires Inv(env, s) && (e.CallReconcile? || e.CallPrepare? || e.CallCommit? || e.CallBegin?)
    ensures Inv(env, Step(env, s, e))
  {
    match e
    case CallReconcile(id) => if !In(s, id) { PutKeeps(env, s, id, StartReconcile(s.host), s.past.clock); }
    case CallPrepare(id) => if !In(s, id) { PutKeeps(env, s, id, StartRead(s.host, Preparing), s.past.clock); }
    case CallCommit(id, proposal) =>
      if !In(s, id) && proposal < s.past.proposals { PutKeeps(env, s, id, StartRead(s.host, Committing(proposal)), s.past.clock); }
    case CallBegin(id, nonce, now) =>
      if !In(s, id) && !s.host.pin.revoked && FreshNonce(s, nonce) { PutKeeps(env, s, id, Begin(s.host, nonce, Later(s, now)), Later(s, now)); }
  }

  lemma AnswerKeepsInv(env: Env, s: State, e: Event)
    requires Inv(env, s) && (e.Answered? || e.Failed? || e.Posted?)
    ensures Inv(env, Step(env, s, e))
  {
    match e
    case Answered(id, log, proof) =>
      if In(s, id) && s.frames[id].phase.Fetching? {
        StayKeepsInv(env, s, id, s.frames[id], s.frames[id].(phase := Replaying(log, proof, s.host.durable)), s.past.clock);
      }
    case Failed(id) => if In(s, id) { AbortKeepsInv(env, s, id, s.frames[id], s.past.clock); }
    case Posted(id, ok) => if In(s, id) && s.frames[id].phase.Posting? { PutKeeps(env, s, id, OnPosted(s.host, s.frames[id], ok), s.past.clock); }
  }

  lemma StepKeepsInv(env: Env, s: State, e: Event)
    requires CollisionFree(env.rules.digest) && Inv(env, s)
    ensures Inv(env, Step(env, s, e))
  {
    match e
    case Disconnect => DisconnectKeepsInv(env, s);
    case Sign(a, now) => SignKeepsInv(env, s, a, now);
    case Replayed(id) => ReplayedKeepsInv(env, s, id);
    case DeletionsApplied(id, saved, nonce, now) => DeletionsKeepInv(env, s, id, saved, nonce, now);
    case ProofChecked(id, saved, now) => ProofKeepsInv(env, s, id, saved, now);
    case AncestorChecked(id, nonce, now) => AncestorKeepsInv(env, s, id, nonce, now);
    case TurnsCancelled(id, ok, now) => CancelledKeepsInv(env, s, id, ok, now);
    case RecoverySettled(id, ok, now) => SettledKeepsInv(env, s, id, ok, now);
    case Prepared(id, candidate, now) => PreparedKeepsInv(env, s, id, candidate, now);
    case Committed(id, activation, saved, now) => CommittedKeepsInv(env, s, id, activation, saved, now);
    case Answered(_, _, _) => AnswerKeepsInv(env, s, e);
    case Failed(_) => AnswerKeepsInv(env, s, e);
    case Posted(_, _) => AnswerKeepsInv(env, s, e);
    case _ => CallKeepsInv(env, s, e);
  }

  lemma AncestorKeepsInv(env: Env, s: State, id: Id, nonce: Nonce, now: nat)
    requires Inv(env, s)
    ensures Inv(env, Step(env, s, AncestorChecked(id, nonce, now)))
  {
    if In(s, id) && FreshNonce(s, nonce) {
      RenewKeepsInv(env, s, id, s.frames[id], nonce, Later(s, now));
      AbortKeepsInv(env, s, id, s.frames[id], Later(s, now));
    }
  }

  lemma CancelledKeepsInv(env: Env, s: State, id: Id, ok: bool, now: nat)
    requires Inv(env, s)
    ensures Inv(env, Step(env, s, TurnsCancelled(id, ok, now)))
  {
    if In(s, id) && s.frames[id].phase.Cancelling? {
      var f := s.frames[id];
      assert FrameInv(env, s, f);
      AbortKeepsInv(env, s, id, f, Later(s, now));
      StayKeepsInv(env, s, id, f, f.(phase := Recovering(f.phase.log)), Later(s, now));
    }
  }

  lemma SettledKeepsInv(env: Env, s: State, id: Id, ok: bool, now: nat)
    requires Inv(env, s)
    ensures Inv(env, Step(env, s, RecoverySettled(id, ok, now)))
  {
    if In(s, id) && s.frames[id].phase.Recovering? {
      var f := s.frames[id];
      assert FrameInv(env, s, f);
      PutKeeps(env, s, id, OnRecovered(env, s.host, f, ok, Later(s, now)), Later(s, now));
    }
  }

  lemma ProposingKeepsInv(env: Env, s: State)
    requires Inv(env, s)
    ensures Inv(env, Proposing(s))
  {
    var s' := Proposing(s);
    forall p | p in s'.past.accepted ensures Genuine(env, s', p) { assert Genuine(env, s, p); }
    forall g | Proved(s, g) ensures Proved(s', g) {
      var p :| p in s.past.accepted && p.generation == g;
      assert p in s'.past.accepted;
    }
    forall i | i in s'.frames ensures FrameInv(env, s', s'.frames[i]) { assert FrameInv(env, s, s.frames[i]); }
  }

  lemma PrepareKeepsInv(env: Env, s: State, id: Id, f: Frame, candidate: S.Identity, now: nat)
    requires Inv(env, s) && FrameInv(env, s, f) && f.phase.ReadDone? && s.past.clock <= now
    ensures Inv(env, Put(Proposing(s), id, Prepare(env, s.host, f, s.past.proposals, candidate, now), now))
  {
    var s1 := Proposing(s);
    ProposingKeepsInv(env, s);
    forall i | i in s1.frames && s1.frames[i].purpose.Committing? ensures s1.frames[i].purpose.proposal != s.past.proposals {
      assert FrameInv(env, s, s.frames[i]);
    }
    assert Below(env, Floor(0, GENESIS), s.past.best);
    PutKeeps(env, s1, id, Prepare(env, s.host, f, s.past.proposals, candidate, now), now);
  }

  lemma PreparedKeepsInv(env: Env, s: State, id: Id, candidate: S.Identity, now: nat)
    requires Inv(env, s)
    ensures Inv(env, Step(env, s, Prepared(id, candidate, now)))
  {
    if In(s, id) && s.frames[id].phase.ReadDone? && s.frames[id].purpose.Preparing? {
      PrepareKeepsInv(env, s, id, s.frames[id], candidate, Later(s, now));
    }
  }

  lemma ProposalUsedKeepsInv(env: Env, s: State, id: Id, proposal: Option<Proposal>, now: nat)
    requires Inv(env, s) && s.past.clock <= now && (proposal == s.host.proposal || proposal.None?)
    ensures Inv(env, Put(s, id, Turn(s.host.(proposal := proposal), None), now))
  {
    PutKeeps(env, s, id, Turn(s.host.(proposal := proposal), None), now);
  }

  lemma CommitKeepsInv(env: Env, s: State, id: Id, f: Frame, activation: nat, saved: bool, now: nat)
    requires Inv(env, s) && FrameInv(env, s, f) && f.phase.ReadDone? && f.purpose.Committing? && s.past.clock <= now
    ensures Inv(env, Put(s, id, CommitPin(env, s.host, f, activation, saved, now), now))
  {
    var h := s.host;
    var t := CommitPin(env, h, f, activation, saved, now);
    if h.proposal.None? || h.proposal.value.id != f.purpose.proposal {
      assert t == Turn(h.(proposal := h.proposal), None);
      ProposalUsedKeepsInv(env, s, id, h.proposal, now);
    } else if !Matches(env, h, f, h.proposal.value, now) || !saved {
      assert t == Turn(h.(proposal := None), None);
      ProposalUsedKeepsInv(env, s, id, None, now);
    } else {
      var p := h.proposal.value;
      var h' := h.(proposal := None, pin := Pin(p.candidate, p.epoch, Some(activation), false), durable := Some(p.head), membership := Some(f.phase.log));
      assert t == Turn(Disconnected(h'), None);
      DisconnectingKeepsInv(env, s, id, h', now);
    }
  }

  lemma CommittedKeepsInv(env: Env, s: State, id: Id, activation: nat, saved: bool, now: nat)
    requires Inv(env, s)
    ensures Inv(env, Step(env, s, Committed(id, activation, saved, now)))
  {
    if In(s, id) && s.frames[id].phase.ReadDone? && s.frames[id].purpose.Committing? {
      CommitKeepsInv(env, s, id, s.frames[id], activation, saved, Later(s, now));
      CommittedLeaves(env, s, id, activation, saved, now);
    }
  }

  lemma CommittedLeaves(env: Env, s: State, id: Id, activation: nat, saved: bool, now: nat)
    requires In(s, id) && s.frames[id].phase.ReadDone? && s.frames[id].purpose.Committing?
    ensures Step(env, s, Committed(id, activation, saved, now)) ==
      Put(s, id, CommitPin(env, s.host, s.frames[id], activation, saved, Later(s, now)), Later(s, now))
  {
  }

  lemma SameProof(env: Env, s: State, id: Id, t: Turn, now: nat, g: nat)
    requires Proved(s, g)
    ensures Proved(Put(s, id, t, now), g)
  {
    var p :| p in s.past.accepted && p.generation == g;
    assert p in Put(s, id, t, now).past.accepted;
  }

  lemma {:induction false} RunKeepsInv(env: Env, s: State, events: seq<Event>)
    requires CollisionFree(env.rules.digest) && Inv(env, s)
    ensures Inv(env, Run(env, s, events))
    decreases |events|
  {
    if events != [] {
      StepKeepsInv(env, s, events[0]);
      RunKeepsInv(env, Step(env, s, events[0]), events[1..]);
    }
  }

  // ---- what reconciliation guarantees ----

  /** A reconcile call returns: its last stretch of code ran and no check failed. */
  predicate Returns(env: Env, s: State, e: Event) {
    && e.RecoverySettled? && In(s, e.id) && s.frames[e.id].phase.Recovering? && e.ok
    && !Expired(s.host, s.frames[e.id], Later(s, e.now)) && PassesFloors(env, s.host, s.frames[e.id].phase.log)
  }

  /** The adopted membership is the longest log this process ever authenticated, every other one is a
      prefix of it, and the signer pinned now signed it or an ancestor of it for this generation's
      nonce, no earlier than that nonce was issued. */
  ghost predicate Current(env: Env, s: State) {
    && s.past.best in s.past.seen && s.host.membership == Some(s.past.best)
    && (forall l :: l in s.past.seen ==> l <= s.past.best)
    && s.host.generation in s.past.issued
    && (exists p :: p in s.past.accepted && ProvesCurrent(env, s, p))
  }

  ghost predicate ProvesCurrent(env: Env, s: State, p: Accepted) {
    && s.host.generation in s.past.issued && p.generation == s.host.generation && p.pin == s.host.pin && p.log <= s.past.best
    && var made := AttestationOf(env, p, s.past.issued[s.host.generation].nonce);
       made in s.past.signed && s.past.issued[s.host.generation].at <= s.past.signed[made]
  }

  lemma ReturnSets(env: Env, s: State, e: Event)
    requires Returns(env, s, e)
    ensures var s' := Step(env, s, e); s'.host == s.host.(reconciled := true) && s'.past == s.past.(clock := Later(s, e.now))
  {
  }

  lemma ProvedMeansProof(env: Env, s: State)
    requires Inv(env, s) && Proved(s, s.host.generation)
    ensures exists p :: p in s.past.accepted && ProvesCurrent(env, s, p)
  {
    var p :| p in s.past.accepted && p.generation == s.host.generation;
    assert Genuine(env, s, p);
    assert ProvesCurrent(env, s, p);
  }

  /** What the adopted log says of this host's own signer: it needs no recovery, and the signer is not
      removed but verified. */
  ghost predicate SignerStands(env: Env, s: State) {
    var m := StateOf(env, s.past.best);
    && m.epoch == s.host.pin.epoch && !s.host.pin.revoked && !RevokedIn(m, s.host.pin.signer)
    && (s.past.best != [] ==> S.Holds(m.endpoints, s.host.pin.signer))
  }

  lemma ReturnIsCurrent(env: Env, s: State, e: Event)
    requires CollisionFree(env.rules.digest) && Inv(env, s) && Returns(env, s, e)
    ensures var s' := Step(env, s, e);
      && s'.host.reconciled && s.frames[e.id].phase.log == s'.past.best && Current(env, s') && SignerStands(env, s')
      && (s.frames[e.id].needsProof ==> s'.past.clock < s'.past.issued[s'.host.generation].at + TTL)
  {
    var f, s' := s.frames[e.id], Step(env, s, e);
    assert FrameInv(env, s, f);
    PassingIsBest(env, s, f.phase.log);
    ReturnSets(env, s, e);
    var m := s.host.membership.value;
    assert s.past.best <= m && m <= s.past.best;
    assert m == s.past.best;
    StepKeepsInv(env, s, e);
    ProvedMeansProof(env, s');
    if s.past.best != [] && s.host.pin.activation.None? { GenesisStands(env, s.past.best); }
  }

  /** Until there has been a recovery, the genesis is verified or removed and nothing else. */
  lemma {:induction false} GenesisStands(env: Env, log: Log)
    requires log != [] && Authentic(env, log) && StateOf(env, log).epoch == 0
    ensures S.Holds(StateOf(env, log).endpoints, env.authority) || RevokedIn(StateOf(env, log), env.authority)
  {
    var n := |log| - 1;
    var before, record := log[..n], log[n];
    S.ReplayIsChain(env.rules, before);
    if n > 0 {
      ChainedPrefix(env.rules.digest, log, n);
      GenesisStands(env, before);
    }
  }

  /** Nothing but a returning reconcile call ever sets `reconciled`. */
  lemma OnlyReturnsReconcile(env: Env, s: State, e: Event)
    requires !s.host.reconciled && Step(env, s, e).host.reconciled
    ensures Returns(env, s, e)
  {
  }

  /** Over every interleaving of calls, disconnects, renewals, appointments and relay answers. */
  lemma ReconciledMeansCurrent(env: Env, durable: Option<Floor>, pin: Pin, events: seq<Event>, e: Event)
    requires CollisionFree(env.rules.digest) && ValidPin(env, pin)
    ensures var s := Run(env, Started(durable, pin), events);
      var s' := Step(env, s, e);
      && (s'.host.reconciled && !s.host.reconciled ==> Returns(env, s, e))
      && (Returns(env, s, e) ==> s'.host.reconciled && Current(env, s') && SignerStands(env, s'))
      && (s'.host.reconciled ==> !s'.host.pin.revoked)
  {
    StartedInv(env, durable, pin);
    RunKeepsInv(env, Started(durable, pin), events);
    var s := Run(env, Started(durable, pin), events);
    StepKeepsInv(env, s, e);
    if Returns(env, s, e) { ReturnIsCurrent(env, s, e); }
    if !s.host.reconciled && Step(env, s, e).host.reconciled { OnlyReturnsReconcile(env, s, e); }
  }

  /** The floor kept in memory only ever moves to an extension of itself. */
  lemma ObservedOnlyExtends(env: Env, s: State, e: Event)
    requires CollisionFree(env.rules.digest) && Inv(env, s) && s.host.observed.Some?
    ensures var s' := Step(env, s, e); s'.host.observed == Some(FloorOf(env.rules.digest, s'.past.best)) && s.past.best <= s'.past.best
  {
    StepKeepsInv(env, s, e);
    if e.Replayed? && In(s, e.id) && s.frames[e.id].phase.Replaying? && OnReplayed(env, s.host, s.frames[e.id]).frame.Some? {
      ObserveKeepsInv(env, s, s.frames[e.id].phase.log);
    } else {
      ObservationStays(env, s, e);
    }
  }

  /** Only a read that passes both floors changes what is observed. */
  lemma ObservationStays(env: Env, s: State, e: Event)
    requires !(e.Replayed? && In(s, e.id) && s.frames[e.id].phase.Replaying? && OnReplayed(env, s.host, s.frames[e.id]).frame.Some?)
    ensures Step(env, s, e).host.observed == s.host.observed && Step(env, s, e).past.best == s.past.best
  {
  }

  /** The team's log as it stood at every moment: it only grows. */
  ghost predicate IsHistory(env: Env, truth: nat -> Log) {
    (forall t: nat :: Chained(env.rules.digest, truth(t))) && forall t: nat, u: nat :: t <= u ==> truth(t) <= truth(u)
  }

  /** Signers answer with the head of the team's log at the moment they sign. */
  ghost predicate Candid(env: Env, s: State, truth: nat -> Log) {
    forall a :: a in s.past.signed ==> a.head == FloorOf(env.rules.digest, truth(s.past.signed[a]))
  }

  /** Then a returning call has adopted everything the team's log held when the nonce of its generation was
      issued, whatever floor the disk held. */
  lemma ReturnCoversTheTruth(env: Env, s: State, e: Event, truth: nat -> Log)
    requires CollisionFree(env.rules.digest) && Inv(env, s) && Returns(env, s, e)
    requires IsHistory(env, truth) && Candid(env, s, truth)
    ensures var s' := Step(env, s, e);
      s'.host.generation in s'.past.issued && truth(s'.past.issued[s'.host.generation].at) <= s'.past.best
  {
    ReturnIsCurrent(env, s, e);
    var s' := Step(env, s, e);
    ReturnSets(env, s, e);
    var p :| p in s'.past.accepted && ProvesCurrent(env, s', p);
    var made := AttestationOf(env, p, s'.past.issued[s'.host.generation].nonce);
    StepKeepsInv(env, s, e);
    assert Genuine(env, s', p) && Authentic(env, p.log);
    SameHead(env.rules.digest, p.log, truth(s'.past.signed[made]));
  }

  // ---- what a host does when its signer no longer stands ----

  /** The log needs a recovery this host has not followed, or its signer is removed in it or was before. */
  ghost predicate Unfit(env: Env, pin: Pin, log: Log) {
    StateOf(env, log).epoch != pin.epoch || pin.revoked || RevokedIn(StateOf(env, log), pin.signer)
  }

  predicate Judges(s: State, e: Event) {
    e.DeletionsApplied? && In(s, e.id) && s.frames[e.id].phase.Deleting? && FreshNonce(s, e.nonce)
  }

  /** Reading such a log ends the call and disconnects: not reconciled, no challenge, a new generation, so
      that every share queued before is dead. What it read is kept, and a removal is kept for good once it
      could be saved. */
  lemma UnfitDisconnects(env: Env, s: State, e: Event)
    requires Judges(s, e) && Unfit(env, s.host.pin, s.frames[e.id].phase.log)
    ensures var s', log := Step(env, s, e), s.frames[e.id].phase.log;
      && !s'.host.reconciled && s'.host.challenge.None? && s'.host.generation == s.host.generation + 1
      && s'.frames == s.frames - {e.id} && s'.host.membership == Some(log) && s'.host.observed == s.host.observed
      && s'.host.durable == (if e.saved then Some(FloorOf(env.rules.digest, log)) else s.host.durable)
      && (s'.host.pin == if e.saved && StateOf(env, log).epoch == s.host.pin.epoch then s.host.pin.(revoked := true) else s.host.pin)
  {
  }

  /** Being reconciled ends with every generation and every change of signer. */
  lemma ReconciledKeepsGeneration(env: Env, s: State, e: Event)
    requires Step(env, s, e).host.reconciled
    ensures Step(env, s, e).host.generation == s.host.generation && Step(env, s, e).host.pin == s.host.pin
  {
  }

  lemma LogsStaySeen(env: Env, s: State, e: Event)
    ensures s.past.seen <= Step(env, s, e).past.seen
  {
  }

  /** In the log, which needs no recovery, the signer is verified and not removed. */
  ghost predicate StandsIn(env: Env, pin: Pin, log: Log) {
    var m := StateOf(env, log);
    m.epoch == pin.epoch && !RevokedIn(m, pin.signer) && (log != [] ==> S.Holds(m.endpoints, pin.signer))
  }

  /** A reconciled host is so under a log it has authenticated that holds all of `read` and in which the
      signer it has stands. */
  ghost predicate Under(env: Env, s: State, log: Log, read: set<Log>) {
    log in s.past.seen && (forall l :: l in read ==> l <= log) && StandsIn(env, s.host.pin, log)
  }

  ghost predicate ReconciledUnder(env: Env, s: State, read: set<Log>) {
    read <= s.past.seen && (s.host.reconciled ==> exists log :: Under(env, s, log, read))
  }

  lemma StepStaysUnder(env: Env, s: State, e: Event, read: set<Log>)
    requires CollisionFree(env.rules.digest) && Inv(env, s) && ReconciledUnder(env, s, read)
    ensures ReconciledUnder(env, Step(env, s, e), read)
  {
    var s' := Step(env, s, e);
    LogsStaySeen(env, s, e);
    if s'.host.reconciled {
      ReconciledKeepsGeneration(env, s, e);
      if s.host.reconciled {
        var log :| Under(env, s, log, read);
        assert Under(env, s', log, read);
      } else {
        OnlyReturnsReconcile(env, s, e);
        ReturnIsCurrent(env, s, e);
        assert Under(env, s', s'.past.best, read);
      }
    }
  }

  lemma {:induction false} RunStaysUnder(env: Env, s: State, events: seq<Event>, read: set<Log>)
    requires CollisionFree(env.rules.digest) && Inv(env, s) && ReconciledUnder(env, s, read)
    ensures ReconciledUnder(env, Run(env, s, events), read)
    decreases |events|
  {
    if events != [] {
      StepStaysUnder(env, s, events[0], read);
      StepKeepsInv(env, s, events[0]);
      RunStaysUnder(env, Step(env, s, events[0]), events[1..], read);
    }
  }

  /** Once a host has read that its signer is removed, or that it must follow a recovery, then in every
      continuation every share queued before is dead, and the host is reconciled again only in a later
      generation, over a log that extends that one, and never under a signer that one removed. */
  lemma NeverUnderARemovedSigner(env: Env, s: State, e: Event, after: seq<Event>, removed: S.Identity)
    requires CollisionFree(env.rules.digest) && Inv(env, s) && Judges(s, e) && Unfit(env, s.host.pin, s.frames[e.id].phase.log)
    ensures var read, s' := s.frames[e.id].phase.log, Run(env, Step(env, s, e), after);
      && s'.host.generation > s.host.generation
      && (s'.host.reconciled ==> exists log :: Under(env, s', log, {read}))
      && (s'.host.reconciled && RevokedIn(StateOf(env, read), removed) ==> s'.host.pin.signer != removed)
  {
    var read, s1 := s.frames[e.id].phase.log, Step(env, s, e);
    UnfitDisconnects(env, s, e);
    GenerationGrows(env, s1, after);
    ReadIsSeen(env, s, e);
    StepKeepsInv(env, s, e);
    RunStaysUnder(env, s1, after, {read});
    RunKeepsInv(env, s1, after);
    if Run(env, s1, after).host.reconciled { NotUnderIt(env, Run(env, s1, after), read, removed); }
  }

  lemma ReadIsSeen(env: Env, s: State, e: Event)
    requires Inv(env, s) && Judges(s, e)
    ensures s.frames[e.id].phase.log in Step(env, s, e).past.seen
  {
    assert FrameInv(env, s, s.frames[e.id]);
    LogsStaySeen(env, s, e);
  }

  lemma NotUnderIt(env: Env, s: State, read: Log, removed: S.Identity)
    requires FloorInv(env, s) && ReconciledUnder(env, s, {read}) && s.host.reconciled
    ensures exists log :: Under(env, s, log, {read})
    ensures RevokedIn(StateOf(env, read), removed) ==> s.host.pin.signer != removed
  {
    var log :| Under(env, s, log, {read});
    if RevokedIn(StateOf(env, read), removed) { RemovedNeverStands(env, s.host.pin, read, log, removed); }
  }

  lemma RemovedNeverStands(env: Env, pin: Pin, read: Log, log: Log, removed: S.Identity)
    requires Authentic(env, read) && Authentic(env, log) && read <= log && StandsIn(env, pin, log) && RevokedIn(StateOf(env, read), removed)
    ensures pin.signer != removed
  {
    assert read + log[|read|..] == log;
    S.RevokedForever(env.rules, read, log[|read|..], S.SlotOf(removed));
  }

  // ---- an exchange that nothing disturbs ----

  /** What the host asks of what it is served. */
  ghost predicate Acceptable(env: Env, s: State, log: Log) {
    && Authentic(env, log) && StandsFor(env, s.host.pin, log)
    && (s.host.durable.Some? ==> Below(env, s.host.durable.value, log))
    && (s.host.observed.Some? ==> Below(env, s.host.observed.value, log))
  }

  ghost predicate StandsFor(env: Env, pin: Pin, log: Log) {
    !Unfit(env, pin, log) && (pin.activation.Some? ==> S.Holds(StateOf(env, log).endpoints, pin.signer))
  }

  lemma PassesIsBelow(env: Env, floor: Floor, log: Log)
    requires Chained(env.rules.digest, log)
    ensures Passes(env.rules.digest, floor, log) <==> Below(env, floor, log)
  {
    var n := floor.height;
    if n == |log| { assert log[..n] == log; }
  }

  lemma ReplaysAndPasses(env: Env, s: State, log: Log)
    ensures Replays(env, log, s.host.durable) && PassesFloors(env, s.host, log) <==>
      && Authentic(env, log) && (s.host.durable.Some? ==> Below(env, s.host.durable.value, log))
      && (s.host.observed.Some? ==> Below(env, s.host.observed.value, log))
  {
    if S.Replay(env.rules, log).Some? { S.ReplayIsChain(env.rules, log); }
    if Chained(env.rules.digest, log) {
      if s.host.durable.Some? { PassesIsBelow(env, s.host.durable.value, log); }
      if s.host.observed.Some? { PassesIsBelow(env, s.host.observed.value, log); }
    }
  }

  /** The host has asked with this nonce, one signature was made since, and the log served has been read. */
  ghost predicate Awaiting(env: Env, s: State, s': State, call: Id, nonce: Nonce, at: nat, made: Attestation, log: Log, proof: Proof) {
    && s'.host == s.host.(reconciled := false, generation := s.host.generation + 1, challenge := Some(nonce), expiresAt := at + TTL,
                          observed := Some(FloorOf(env.rules.digest, log)))
    && In(s', call) && s'.frames[call] == Frame(Reconciling, s.host.generation + 1, Some(nonce), true, Deleting(log, Some(proof)))
    && (forall a: Attestation :: a.nonce == nonce ==> (a in s'.past.signed <==> a == made)) && s'.past.clock == at
  }

  lemma RunStep(env: Env, s: State, e: Event, rest: seq<Event>)
    ensures Run(env, s, [e] + rest) == Run(env, Step(env, s, e), rest)
  {
    assert ([e] + rest)[1..] == rest;
  }

  function Asking(begin: Id, call: Id, nonce: Nonce, asked: nat, made: Attestation): seq<Event> {
    [CallBegin(begin, nonce, asked), Sign(made, asked), CallReconcile(call)]
  }

  /** The host has asked and a call waits for the relay. */
  ghost predicate HasAsked(s: State, s': State, call: Id, nonce: Nonce, at: nat, made: Attestation) {
    && s'.host == s.host.(reconciled := false, generation := s.host.generation + 1, challenge := Some(nonce), expiresAt := at + TTL)
    && In(s', call) && s'.frames[call] == Frame(Reconciling, s.host.generation + 1, Some(nonce), true, Fetching)
    && (forall a: Attestation :: a.nonce == nonce ==> (a in s'.past.signed <==> a == made)) && s'.past.clock == at
    && (forall a :: a in s'.past.signed ==> a in s.past.signed || a == made)
    && (forall g :: g in s'.past.issued ==> s'.past.issued[g].nonce == nonce || (g in s.past.issued && s'.past.issued[g] == s.past.issued[g]))
  }

  lemma Asks(env: Env, s: State, begin: Id, call: Id, nonce: Nonce, asked: nat, made: Attestation)
    requires begin != call && !In(s, begin) && !In(s, call) && FreshNonce(s, nonce) && !s.host.pin.revoked
    ensures var s' := Run(env, s, Asking(begin, call, nonce, asked, made));
      HasAsked(s, s', call, nonce, Later(s, asked), made)
  {
    var e1, e2, e3 := CallBegin(begin, nonce, asked), Sign(made, asked), CallReconcile(call);
    var s1 := Step(env, s, e1);
    var s2 := Step(env, s1, e2);
    assert Asking(begin, call, nonce, asked, made) == [e1] + ([e2] + ([e3] + []));
    RunStep(env, s, e1, [e2] + ([e3] + []));
    RunStep(env, s1, e2, [e3] + []);
    RunStep(env, s2, e3, []);
    assert s1.past.issued[s.host.generation + 1].nonce == nonce;
    assert Later(s1, asked) == Later(s, asked);
  }

  /** Not reconciled, and the call is over, or asks again, or looks at an ancestor's proof to see whether to. */
  predicate Ended(s: State, call: Id) {
    !s.host.reconciled && (In(s, call) ==> s.frames[call].phase.Posting? || s.frames[call].phase.CheckingAncestor?)
  }

  function Reading(call: Id, log: Log, proof: Proof): seq<Event> { [Answered(call, log, Some(proof)), Replayed(call)] }

  function Judging(call: Id, spare: Nonce, now: nat): seq<Event> { [DeletionsApplied(call, true, spare, now), ProofChecked(call, true, now)] }

  function Concluding(call: Id, now: nat): seq<Event> { [TurnsCancelled(call, true, now), RecoverySettled(call, true, now)] }

  /** The relay serves a log and a proof, and every await succeeds. */
  function Serving(call: Id, log: Log, proof: Proof, spare: Nonce, now: nat): seq<Event> {
    Reading(call, log, proof) + (Judging(call, spare, now) + Concluding(call, now))
  }

  lemma {:induction false} EndedStays(env: Env, s: State, call: Id, events: seq<Event>)
    requires Ended(s, call) && forall e :: e in events ==> OfCall(e, call)
    ensures Run(env, s, events) == s
    decreases |events|
  {
    if events != [] {
      assert OfCall(events[0], call);
      EndedStays(env, s, call, events[1..]);
    }
  }

  predicate OfCall(e: Event, call: Id) {
    match e
    case Answered(id, _, _) => id == call
    case Replayed(id) => id == call
    case DeletionsApplied(id, _, _, _) => id == call
    case ProofChecked(id, _, _) => id == call
    case TurnsCancelled(id, _, _) => id == call
    case RecoverySettled(id, _, _) => id == call
    case _ => false
  }

  /** Reading: the call goes on exactly if the log authenticates and extends both floors. */
  lemma Reads(env: Env, s: State, s3: State, call: Id, nonce: Nonce, at: nat, made: Attestation, log: Log, proof: Proof)
    requires HasAsked(s, s3, call, nonce, at, made)
    ensures var s5 := Step(env, Step(env, s3, Answered(call, log, Some(proof))), Replayed(call));
      if Replays(env, log, s.host.durable) && PassesFloors(env, s.host, log)
      then Awaiting(env, s, s5, call, nonce, at, made, log, proof) && s5.past.issued == s3.past.issued
      else Ended(s5, call)
  {
  }

  /** The proof names this head and this nonce, and is what the signer signed. */
  ghost predicate Convinces(env: Env, pin: Pin, nonce: Nonce, made: Attestation, log: Log, proof: Proof) {
    && made == Attestation(pin.signer, pin.activation, nonce, FloorOf(env.rules.digest, log))
    && proof == Proof(nonce, |log|, HeadHash(env.rules.digest, log), true, true)
  }

  lemma Judged(env: Env, s: State, s5: State, call: Id, nonce: Nonce, at: nat, made: Attestation, log: Log, proof: Proof, spare: Nonce, now: nat)
    requires Awaiting(env, s, s5, call, nonce, at, made, log, proof) && FreshNonce(s5, spare)
    requires PassesFloors(env, s.host, log) && !s.host.pin.revoked
    ensures var late := if now > at then now else at;
      var s7 := Step(env, Step(env, s5, DeletionsApplied(call, true, spare, now)), ProofChecked(call, true, now));
      if StandsFor(env, s.host.pin, log) && Convinces(env, s.host.pin, nonce, made, log, proof) && late < at + TTL
      then && s7.host == s5.host.(membership := Some(log), durable := Some(FloorOf(env.rules.digest, log))) && s7.past.clock == late
           && In(s7, call) && s7.frames[call] == s5.frames[call].(phase := Cancelling(log))
      else Ended(s7, call)
  {
    var e := DeletionsApplied(call, true, spare, now);
    var s6 := Step(env, s5, e);
    if Unfit(env, s.host.pin, log) { UnfitDisconnects(env, s5, e); }
    if !Convinces(env, s.host.pin, nonce, made, log, proof) && In(s6, call) && s6.frames[call].phase.CheckingProof? {
      assert proof == Proof(nonce, |log|, HeadHash(env.rules.digest, log), true, true);
    }
    PassesSelf(env, log);
  }

  /** Cancelling and recovering, undisturbed. */
  lemma Concludes(env: Env, s: State, s7: State, call: Id, log: Log, now: nat)
    requires In(s7, call) && s7.frames[call].phase == Cancelling(log) && PassesFloors(env, s7.host, log)
    requires s7.frames[call].generation == s7.host.generation && s7.past.clock < s7.host.expiresAt && now <= s7.past.clock
    ensures var s9 := Step(env, Step(env, s7, TurnsCancelled(call, true, now)), RecoverySettled(call, true, now));
      s9.host == s7.host.(reconciled := true) && !In(s9, call)
  {
  }

  lemma RunTwo(env: Env, s: State, e1: Event, e2: Event)
    ensures Run(env, s, [e1, e2]) == Step(env, Step(env, s, e1), e2)
  {
    assert [e1, e2] == [e1] + ([e2] + []);
    RunStep(env, s, e1, [e2] + []);
    RunStep(env, Step(env, s, e1), e2, []);
  }

  lemma RunConcat(env: Env, s: State, first: seq<Event>, rest: seq<Event>)
    ensures Run(env, s, first + rest) == Run(env, Run(env, s, first), rest)
    decreases |first|
  {
    if first == [] {
      assert first + rest == rest;
    } else {
      assert (first + rest)[1..] == first[1..] + rest;
      RunConcat(env, Step(env, s, first[0]), first[1..], rest);
    }
  }

  predicate InTime(at: nat, now: nat) { (if now > at then now else at) < at + TTL }

  /** The host's fields when it has reconciled with this log. */
  function Reconciled(env: Env, h: Host, nonce: Nonce, at: nat, log: Log): Host {
    var head := Some(FloorOf(env.rules.digest, log));
    h.(reconciled := true, generation := h.generation + 1, challenge := Some(nonce), expiresAt := at + TTL,
       membership := Some(log), observed := head, durable := head)
  }

  /** After the log was read. */
  lemma JudgedAndConcluded(env: Env, s: State, s5: State, call: Id, nonce: Nonce, at: nat, made: Attestation, log: Log, proof: Proof,
                           spare: Nonce, now: nat)
    requires Awaiting(env, s, s5, call, nonce, at, made, log, proof) && FreshNonce(s5, spare)
    requires PassesFloors(env, s.host, log) && !s.host.pin.revoked
    ensures var s' := Run(env, s5, Judging(call, spare, now) + Concluding(call, now));
      if StandsFor(env, s.host.pin, log) && Convinces(env, s.host.pin, nonce, made, log, proof) && InTime(at, now)
      then s'.host == Reconciled(env, s.host, nonce, at, log) else !s'.host.reconciled
  {
    RunConcat(env, s5, Judging(call, spare, now), Concluding(call, now));
    RunTwo(env, s5, DeletionsApplied(call, true, spare, now), ProofChecked(call, true, now));
    Judged(env, s, s5, call, nonce, at, made, log, proof, spare, now);
    var s7 := Run(env, s5, Judging(call, spare, now));
    if Ended(s7, call) {
      EndedStays(env, s7, call, Concluding(call, now));
    } else {
      PassesSelf(env, log);
      RunTwo(env, s7, TurnsCancelled(call, true, now), RecoverySettled(call, true, now));
      Concludes(env, s, s7, call, log, now);
    }
  }

  lemma Served(env: Env, s: State, s3: State, call: Id, nonce: Nonce, at: nat, made: Attestation, log: Log, proof: Proof, spare: Nonce, now: nat)
    requires HasAsked(s, s3, call, nonce, at, made) && FreshNonce(s3, spare) && !s.host.pin.revoked
    ensures var s' := Run(env, s3, Serving(call, log, proof, spare, now));
      if Acceptable(env, s, log) && Convinces(env, s.host.pin, nonce, made, log, proof) && InTime(at, now)
      then s'.host == Reconciled(env, s.host, nonce, at, log) else !s'.host.reconciled
  {
    var s5 := Run(env, s3, Reading(call, log, proof));
    RunConcat(env, s3, Reading(call, log, proof), Judging(call, spare, now) + Concluding(call, now));
    RunTwo(env, s3, Answered(call, log, Some(proof)), Replayed(call));
    Reads(env, s, s3, call, nonce, at, made, log, proof);
    ReplaysAndPasses(env, s, log);
    if Replays(env, log, s.host.durable) && PassesFloors(env, s.host, log) {
      JudgedAndConcluded(env, s, s5, call, nonce, at, made, log, proof, spare, now);
    } else {
      EndedThrough(env, s5, call, spare, now);
    }
  }

  lemma EndedThrough(env: Env, s: State, call: Id, spare: Nonce, now: nat)
    requires Ended(s, call)
    ensures Run(env, s, Judging(call, spare, now) + Concluding(call, now)) == s
  {
    EndedStays(env, s, call, Judging(call, spare, now) + Concluding(call, now));
  }

  /** An exchange that nothing disturbs reconciles the host if and only if its signer was not removed
      before, the log served is authentic, extends both floors and lets the signer stand, the proof names
      exactly that head and this nonce and is what this signer signed under its activation, and all that in
      time. Then that log is what it goes by and its head is what both floors are. */
  lemma UndisturbedExchange(env: Env, s: State, begin: Id, call: Id, nonce: Nonce, asked: nat, made: Attestation, log: Log, proof: Proof,
                            spare: Nonce, now: nat)
    requires begin != call && !In(s, begin) && !In(s, call) && FreshNonce(s, nonce) && FreshNonce(s, spare) && spare !in {nonce, made.nonce}
    ensures var h := Run(env, s, Asking(begin, call, nonce, asked, made) + Serving(call, log, proof, spare, now)).host;
      if !s.host.pin.revoked && Acceptable(env, s, log) && Convinces(env, s.host.pin, nonce, made, log, proof) && InTime(Later(s, asked), now)
      then h == Reconciled(env, s.host, nonce, Later(s, asked), log) else !h.reconciled
  {
    RunConcat(env, s, Asking(begin, call, nonce, asked, made), Serving(call, log, proof, spare, now));
    var s3 := Run(env, s, Asking(begin, call, nonce, asked, made));
    if s.host.pin.revoked {
      RevokedNeverAsks(env, s, begin, call, nonce, asked, made);
      EndedStays(env, s3, call, Serving(call, log, proof, spare, now));
    } else {
      Asks(env, s, begin, call, nonce, asked, made);
      Served(env, s, s3, call, nonce, Later(s, asked), made, log, proof, spare, now);
    }
  }

  lemma RevokedNeverAsks(env: Env, s: State, begin: Id, call: Id, nonce: Nonce, asked: nat, made: Attestation)
    requires begin != call && !In(s, begin) && !In(s, call) && s.host.pin.revoked
    ensures Ended(Run(env, s, Asking(begin, call, nonce, asked, made)), call)
  {
    var e1, e2, e3 := CallBegin(begin, nonce, asked), Sign(made, asked), CallReconcile(call);
    assert Asking(begin, call, nonce, asked, made) == [e1] + ([e2] + ([e3] + []));
    RunStep(env, s, e1, [e2] + ([e3] + []));
    RunStep(env, Step(env, s, e1), e2, [e3] + []);
    RunStep(env, Step(env, Step(env, s, e1), e2), e3, []);
  }

  lemma PassesSelf(env: Env, log: Log)
    ensures Passes(env.rules.digest, FloorOf(env.rules.digest, log), log)
  {
  }
  // ---- appointments and renewals ----

  /** A proposal is made exactly for a device the log verifies, of the genesis's owner, and another than the
      present signer unless a recovery is to be followed; it records all that its confirmation must still find. */
  lemma ProposesExactly(env: Env, s: State, e: Event)
    requires e.Prepared? && In(s, e.id) && s.frames[e.id].phase.ReadDone? && s.frames[e.id].purpose.Preparing?
    ensures var h, h', log := s.host, Step(env, s, e).host, s.frames[e.id].phase.log;
      var m := StateOf(env, log);
      h' == if e.candidate.user == env.authority.user && S.Holds(m.endpoints, e.candidate) && (e.candidate != h.pin.signer || m.epoch != h.pin.epoch)
            then h.(proposal := Some(Proposal(s.past.proposals, e.candidate, FloorOf(env.rules.digest, log), m.epoch,
                                              if h.durable.Some? then h.durable.value else Floor(0, GENESIS), h.pin, h.generation,
                                              Later(s, e.now) + 120000)))
            else h
  {
  }

  /** The confirmation finds everything as the proposal found it, in time. */
  ghost predicate StillAsProposed(env: Env, s: State, p: Proposal, log: Log, now: nat) {
    && now < p.expiresAt && s.host.generation == p.generation && s.host.pin == p.priorPin
    && (if s.host.durable.Some? then s.host.durable.value == p.prior else p.prior == Floor(0, GENESIS))
    && p.head == Floor(|log|, HeadHash(env.rules.digest, log)) && p.epoch == StateOf(env, log).epoch
    && S.Holds(StateOf(env, log).endpoints, p.candidate)
  }

  /** A signer is appointed exactly by confirming the proposal held, if everything is still as proposed and both
      records could be saved: then signer and floor are saved together and the host starts over, unreconciled.
      Otherwise signer, floor and generation stay, and the proposal, if it was this one, is used up. */
  lemma AppointsExactly(env: Env, s: State, e: Event)
    requires e.Committed? && In(s, e.id) && s.frames[e.id].phase.ReadDone? && s.frames[e.id].purpose.Committing?
    ensures var h, log := s.host, s.frames[e.id].phase.log;
      var meant := h.proposal.Some? && h.proposal.value.id == s.frames[e.id].purpose.proposal;
      Step(env, s, e).host ==
        if meant && StillAsProposed(env, s, h.proposal.value, log, Later(s, e.now)) && e.saved
        then h.(pin := Pin(h.proposal.value.candidate, h.proposal.value.epoch, Some(e.activation), false), durable := Some(h.proposal.value.head),
                membership := Some(log), proposal := None, reconciled := false, challenge := None, expiresAt := 0, generation := h.generation + 1)
        else if meant then h.(proposal := None) else h
  {
  }

  ghost predicate UsedUp(s: State, proposal: nat) { proposal < s.past.proposals && (s.host.proposal.Some? ==> s.host.proposal.value.id != proposal) }

  lemma {:induction false} StaysUsedUp(env: Env, s: State, events: seq<Event>, proposal: nat)
    requires UsedUp(s, proposal)
    ensures UsedUp(Run(env, s, events), proposal)
    decreases |events|
  {
    if events != [] {
      StepKeepsUsedUp(env, s, events[0], proposal);
      StaysUsedUp(env, Step(env, s, events[0]), events[1..], proposal);
    }
  }

  lemma StepKeepsUsedUp(env: Env, s: State, e: Event, proposal: nat)
    requires UsedUp(s, proposal)
    ensures UsedUp(Step(env, s, e), proposal)
  {
  }

  /** A proposal is confirmed at most once: after a confirmation of it, whatever came of that, none is ever
      held under its number again. */
  lemma ProposalsAreUsedOnce(env: Env, s: State, e: Event, after: seq<Event>)
    requires Inv(env, s) && e.Committed? && In(s, e.id) && s.frames[e.id].phase.ReadDone? && s.frames[e.id].purpose.Committing?
    requires s.frames[e.id].purpose.proposal < s.past.proposals
    ensures UsedUp(Run(env, Step(env, s, e), after), s.frames[e.id].purpose.proposal)
  {
    AppointsExactly(env, s, e);
    StaysUsedUp(env, Step(env, s, e), after, s.frames[e.id].purpose.proposal);
  }

  /** An ancestor's proof, if the signer made it and nothing has changed since the call began, makes the host
      ask again under a new nonce; it is never itself accepted, and neither is any other. */
  lemma AncestorsAskAgain(env: Env, s: State, e: Event)
    requires e.AncestorChecked? && In(s, e.id) && s.frames[e.id].phase.CheckingAncestor? && s.frames[e.id].challenge.Some? && FreshNonce(s, e.nonce)
    ensures var f, h, h' := s.frames[e.id], s.host, Step(env, s, e).host;
      var made := Attestation(f.phase.pin.signer, f.phase.pin.activation, f.challenge.value, f.phase.ancestor) in s.past.signed;
      if made && f.generation == h.generation && h.challenge == f.challenge && !h.reconciled && Later(s, e.now) < h.expiresAt && !h.pin.revoked
      then && h' == h.(generation := h.generation + 1, challenge := Some(e.nonce), expiresAt := Later(s, e.now) + 60000)
           && In(Step(env, s, e), e.id) && Step(env, s, e).frames[e.id].phase.Posting?
      else (h' == h || h' == h.(reconciled := false)) && !In(Step(env, s, e), e.id)
  {
  }

  /** A challenge that could not be posted is withdrawn, unless another has been issued since. */
  lemma PostsExactly(env: Env, s: State, e: Event)
    requires e.Posted? && In(s, e.id) && s.frames[e.id].phase.Posting?
    ensures Step(env, s, e).host ==
      if !e.ok && s.frames[e.id].generation == s.host.generation then s.host.(challenge := None, expiresAt := 0) else s.host
    ensures !In(Step(env, s, e), e.id)
  {
  }

  /** A call that fails is over, and clears `reconciled` only in the generation it began in. */
  lemma FailsExactly(env: Env, s: State, e: Event)
    requires e.Failed? && In(s, e.id) && !s.frames[e.id].phase.Posting?
    ensures Step(env, s, e).host ==
      if s.frames[e.id].purpose.Reconciling? && s.frames[e.id].generation == s.host.generation then s.host.(reconciled := false) else s.host
    ensures !In(Step(env, s, e), e.id)
  {
  }

  // ---- the floor on disk ----

  /** `after` is where `before` was, or further along a log this host has authenticated. */
  ghost predicate Extends(env: Env, seen: set<Log>, before: Option<Floor>, after: Option<Floor>) {
    after == before || exists log :: log in seen && after == Some(FloorOf(env.rules.digest, log)) && Below(env, CheckpointOf(before), log)
  }

  /** Saving a removal, or that recovery is needed, writes the floor without checking it again. */
  predicate SavesStaleRemoval(env: Env, s: State, e: Event) {
    && e.DeletionsApplied? && In(s, e.id) && s.frames[e.id].phase.Deleting? && FreshNonce(s, e.nonce) && e.saved
    && (var standing := StandingOf(env, s.host.pin, s.frames[e.id].phase.log); standing.RequiresRecovery? || standing.Revoked?)
    && s.host.durable.Some? && |s.frames[e.id].phase.log| < s.host.durable.value.height
  }

  /** Every step moves the floor on disk to an extension of it, appointments included, except exactly
      those that save such a finding read before a newer floor was saved. */
  lemma DurableRewindsExactly(env: Env, s: State, e: Event)
    requires CollisionFree(env.rules.digest) && Inv(env, s)
    ensures var s' := Step(env, s, e); !Extends(env, s'.past.seen, s.host.durable, s'.host.durable) <==> SavesStaleRemoval(env, s, e)
  {
    match e
    case DeletionsApplied(_, _, _, _) => RemovalMoves(env, s, e);
    case ProofChecked(_, _, _) => ProofMoves(env, s, e);
    case Committed(_, _, _, _) => AppointmentMoves(env, s, e);
    case _ => OthersLeaveTheDisk(env, s, e);
  }

  lemma OthersLeaveTheDisk(env: Env, s: State, e: Event)
    requires !e.DeletionsApplied? && !e.ProofChecked? && !e.Committed?
    ensures Step(env, s, e).host.durable == s.host.durable
  {
  }

  /** What a stretch that adopts a log leaves on disk. */
  lemma AdoptionMoves(env: Env, s: State, f: Frame, log: Log, saved: bool, now: nat)
    requires Inv(env, s) && log in s.past.seen
    ensures Extends(env, s.past.seen, s.host.durable, OnAuthorized(env, s.host, f, log, saved, now).host.durable)
  {
    if PassesFloors(env, s.host, log) { AuthorizedMoves(env, s, log); }
  }

  lemma ProofLeaves(env: Env, s: State, e: Event)
    requires e.ProofChecked? && In(s, e.id) && s.frames[e.id].phase.CheckingProof?
    ensures Step(env, s, e).past.seen == s.past.seen
    ensures var f := s.frames[e.id];
      || Step(env, s, e).host.durable == s.host.durable
      || Step(env, s, e).host.durable == OnAuthorized(env, s.host, f, f.phase.log, e.saved, Later(s, e.now)).host.durable
  {
  }

  lemma ProofMoves(env: Env, s: State, e: Event)
    requires Inv(env, s) && e.ProofChecked?
    ensures Extends(env, Step(env, s, e).past.seen, s.host.durable, Step(env, s, e).host.durable)
  {
    if In(s, e.id) && s.frames[e.id].phase.CheckingProof? {
      assert FrameInv(env, s, s.frames[e.id]);
      ProofLeaves(env, s, e);
      AdoptionMoves(env, s, s.frames[e.id], s.frames[e.id].phase.log, e.saved, Later(s, e.now));
    }
  }

  /** A confirmation finds the floor where the proposal found it, and has read past it since. */
  lemma AppointmentMoves(env: Env, s: State, e: Event)
    requires Inv(env, s) && e.Committed?
    ensures Extends(env, Step(env, s, e).past.seen, s.host.durable, Step(env, s, e).host.durable)
  {
    if In(s, e.id) { assert FrameInv(env, s, s.frames[e.id]); }
  }

  lemma DeletionsLeave(env: Env, s: State, e: Event)
    requires e.DeletionsApplied? && In(s, e.id) && s.frames[e.id].phase.Deleting? && FreshNonce(s, e.nonce)
    ensures Step(env, s, e).host == OnDeletions(env, s.host, s.frames[e.id], e.saved, e.nonce, Later(s, e.now)).host
    ensures Step(env, s, e).past.seen == s.past.seen
  {
  }

  lemma RemovalMoves(env: Env, s: State, e: Event)
    requires CollisionFree(env.rules.digest) && Inv(env, s) && e.DeletionsApplied?
    ensures var s' := Step(env, s, e); !Extends(env, s'.past.seen, s.host.durable, s'.host.durable) <==> SavesStaleRemoval(env, s, e)
  {
    if Judges(s, e) { JudgedMoves(env, s, e); } else { assert Step(env, s, e) == s; }
  }

  lemma JudgedMoves(env: Env, s: State, e: Event)
    requires CollisionFree(env.rules.digest) && Inv(env, s) && Judges(s, e)
    ensures var s' := Step(env, s, e); !Extends(env, s'.past.seen, s.host.durable, s'.host.durable) <==> SavesStaleRemoval(env, s, e)
  {
    DeletionsLeave(env, s, e);
    assert FrameInv(env, s, s.frames[e.id]);
    RemovalLeaves(env, s, s.frames[e.id], e.saved, e.nonce, Later(s, e.now));
  }

  lemma RemovalLeaves(env: Env, s: State, f: Frame, saved: bool, nonce: Nonce, now: nat)
    requires CollisionFree(env.rules.digest) && Inv(env, s) && FrameInv(env, s, f) && f.phase.Deleting?
    ensures var standing := StandingOf(env, s.host.pin, f.phase.log);
      !Extends(env, s.past.seen, s.host.durable, OnDeletions(env, s.host, f, saved, nonce, now).host.durable) <==>
        saved && (standing.RequiresRecovery? || standing.Revoked?) && s.host.durable.Some? && |f.phase.log| < s.host.durable.value.height
  {
    var standing := StandingOf(env, s.host.pin, f.phase.log);
    if standing.RequiresRecovery? || standing.Revoked? {
      SavedRemoval(env, s, f.phase.log);
    } else {
      AdoptionMoves(env, s, f, f.phase.log, saved, now);
    }
  }

  /** Any log with the head of a shorter one seen is that one. */
  lemma SavedRemoval(env: Env, s: State, log: Log)
    requires CollisionFree(env.rules.digest) && Inv(env, s) && log in s.past.seen
    ensures !Extends(env, s.past.seen, s.host.durable, Some(FloorOf(env.rules.digest, log))) <==>
      s.host.durable.Some? && |log| < s.host.durable.value.height
  {
    StandsBelow(env, s, log);
    assert CheckpointOf(s.host.durable) == (if s.host.durable.Some? then s.host.durable.value else Floor(0, GENESIS));
  }

  lemma AuthorizedMoves(env: Env, s: State, log: Log)
    requires Inv(env, s) && log in s.past.seen && PassesFloors(env, s.host, log)
    ensures Below(env, CheckpointOf(s.host.durable), log)
  {
    if s.host.durable.Some? { PassingIsBelow(env, s.host.durable.value, log); }
  }

  /** A shorter log ends before the floor; one as long reaches it, being part of the same chain. */
  lemma StandsBelow(env: Env, s: State, log: Log)
    requires Inv(env, s) && log in s.past.seen
    ensures Below(env, CheckpointOf(s.host.durable), log) <==> s.host.durable.None? || |log| >= s.host.durable.value.height
  {
    if s.host.durable.Some? && |log| >= s.host.durable.value.height {
      assert log[..s.host.durable.value.height] == s.past.best[..s.host.durable.value.height];
    }
  }

  /** One call has read a log, another a longer one, and neither has gone on. */
  ghost predicate BothRead(s: State, pin: Pin, one: Log, two: Log) {
    && s.host.durable.None? && s.host.pin == pin && s.past.issued == map[] && s.past.signed == map[]
    && In(s, 0) && s.frames[0].phase == Deleting(one, None) && In(s, 1) && s.frames[1].phase == Deleting(two, None)
  }

  lemma OneReads(env: Env, pin: Pin, one: Log, two: Log) returns (events: seq<Event>, s: State)
    requires Replays(env, one, None) && !pin.revoked
    ensures s == Run(env, Started(None, pin), events)
    ensures s.host.durable.None? && s.host.pin == pin && s.past.issued == map[] && s.past.signed == map[]
    ensures In(s, 0) && s.frames[0].phase == Deleting(one, None) && s.host.observed == Some(FloorOf(env.rules.digest, one))
    ensures In(s, 1) && s.frames[1] == Frame(Reconciling, 0, None, true, Replaying(two, None, None))
  {
    var s0 := Started(None, pin);
    var s1 := Extend(env, s0, [], CallReconcile(0));
    var s2 := Extend(env, s0, [CallReconcile(0)], CallReconcile(1));
    var s3 := Extend(env, s0, [CallReconcile(0), CallReconcile(1)], Answered(0, one, None));
    var es := [CallReconcile(0), CallReconcile(1), Answered(0, one, None)];
    var s4 := Extend(env, s0, es, Answered(1, two, None));
    s := Extend(env, s0, es + [Answered(1, two, None)], Replayed(0));
    events := es + [Answered(1, two, None)] + [Replayed(0)];
  }

  lemma TwoRead(env: Env, pin: Pin, one: Log, two: Log) returns (events: seq<Event>, s: State)
    requires one < two && Replays(env, one, None) && Replays(env, two, None) && !pin.revoked
    ensures s == Run(env, Started(None, pin), events) && BothRead(s, pin, one, two)
  {
    var before, s0 := OneReads(env, pin, one, two);
    S.ReplayIsChain(env.rules, two);
    LongerPasses(env, one, two);
    s := Extend(env, Started(None, pin), before, Replayed(1));
    events := before + [Replayed(1)];
  }

  lemma SaveRecovery(env: Env, s: State, pin: Pin, one: Log, two: Log)
    requires BothRead(s, pin, one, two) && StandingOf(env, pin, two).RequiresRecovery?
    ensures var s' := Step(env, s, DeletionsApplied(1, true, 0, 0));
      && s'.host.durable == Some(FloorOf(env.rules.digest, two)) && s'.host.pin == pin && FreshNonce(s', 0)
      && In(s', 0) && s'.frames[0].phase == Deleting(one, None)
  {
  }

  /** Such a save leaves a floor further back than the one it found. */
  lemma StaleSaveGoesBack(env: Env, s: State, e: Event)
    requires SavesStaleRemoval(env, s, e)
    ensures var after := Step(env, s, e).host.durable; after.Some? && after.value.height < s.host.durable.value.height
  {
    DeletionsLeave(env, s, e);
  }

  /** Two reads of a log and of a longer one, both finding that recovery is needed, whose saves finish in
      the other order. */
  lemma RewindsOn(env: Env, pin: Pin, one: Log, two: Log)
    requires one < two && Replays(env, one, None) && Replays(env, two, None) && !pin.revoked
    requires StandingOf(env, pin, one).RequiresRecovery? && StandingOf(env, pin, two).RequiresRecovery?
    ensures exists events, e :: SavesStaleRemoval(env, Run(env, Started(None, pin), events), e)
  {
    var events, s := TwoRead(env, pin, one, two);
    var last := DeletionsApplied(1, true, 0, 0);
    SaveRecovery(env, s, pin, one, two);
    var s' := Extend(env, Started(None, pin), events, last);
    assert SavesStaleRemoval(env, Run(env, Started(None, pin), events + [last]), DeletionsApplied(0, true, 0, 0));
  }

  lemma LongerPasses(env: Env, one: Log, two: Log)
    requires one < two && Chained(env.rules.digest, two)
    ensures Passes(env.rules.digest, FloorOf(env.rules.digest, one), two)
  {
    assert two[..|one|] == one;
  }

  const OWNER: S.Identity := S.Identity(1, 1, S.Keys(1, 1))
  const SPARE: S.Identity := S.Identity(1, 2, S.Keys(2, 2))

  /** A team whose owner sets up recovery, loses the device, recovers on another and goes on. */
  function Lines(body: nat): S.Op {
    if body == 0 then S.Op(1, OWNER, S.Bootstrap(1, S.Keys(1, 1)))
    else if body == 1 then S.Op(2, OWNER, S.RecoveryConfigure(1))
    else if body == 2 then S.Op(3, SPARE, S.OwnerRecover(1, 7))
    else S.Op(4, SPARE, S.Other)
  }

  function TeamEnv(digest: Digest): Env { Env(S.Env(digest, Lines, (r: Record) => true, (m: S.Membership, r: Record) => true, 1), OWNER) }

  /** Replays to `m` from the owner's genesis, its next record being number `body`. */
  ghost predicate Reaches(digest: Digest, log: Log, m: S.Membership, body: nat) {
    && S.Replay(TeamEnv(digest).rules, log) == Some(m) && m.height == |log| == body
    && (log != [] ==> log[0].body == 0)
  }

  lemma Writes(digest: Digest, log: Log, m: S.Membership, body: nat) returns (longer: Log, next: S.Membership)
    requires Reaches(digest, log, m, body)
    requires S.Apply(TeamEnv(digest).rules, m, Record(m.hash, body)).Some?
    ensures log < longer && Reaches(digest, longer, next, body + 1)
    ensures next == S.Apply(TeamEnv(digest).rules, m, Record(m.hash, body)).value.(hash := next.hash)
  {
    S.AppendReplays(TeamEnv(digest).rules, log, Record(m.hash, body));
    longer := log + [Record(m.hash, body)];
    next := S.Replay(TeamEnv(digest).rules, longer).value;
  }

  /** Its log of three records and that of four both replay, and both belong to the recovered epoch. */
  lemma TeamRecovers(digest: Digest) returns (one: Log, two: Log)
    ensures one < two && Replays(TeamEnv(digest), one, None) && Replays(TeamEnv(digest), two, None)
    ensures StateOf(TeamEnv(digest), one).epoch == 7 && StateOf(TeamEnv(digest), two).epoch == 7
  {
    var l1, m1 := Writes(digest, [], S.EMPTY, 0);
    assert m1.owner == Some(OWNER) && m1.endpoints == map[S.SlotOf(OWNER) := S.Entry(OWNER.keys, S.Verified)];
    var l2, m2 := Writes(digest, l1, m1, 1);
    assert m2.descriptor && m2.generation == 1 && m2.epochs == {} && m2.endpoints == m1.endpoints && m2.owner == m1.owner;
    var m3;
    one, m3 := Writes(digest, l2, m2, 2);
    assert m3.epoch == 7 && S.Holds(m3.endpoints, SPARE);
    var m4;
    two, m4 := Writes(digest, one, m3, 3);
  }

  /** The floor on disk does go back, under any hash, on a host that still trusts the genesis of a team
      that has recovered. */
  lemma DurableDoesRewind(digest: Digest)
    ensures exists events, e :: SavesStaleRemoval(TeamEnv(digest), Run(TeamEnv(digest), Started(None, Pin(OWNER, 0, None, false)), events), e)
  {
    var one, two := TeamRecovers(digest);
    RewindsOn(TeamEnv(digest), Pin(OWNER, 0, None, false), one, two);
  }

  lemma {:induction false} Extend(env: Env, s: State, events: seq<Event>, e: Event) returns (s': State)
    ensures s' == Step(env, Run(env, s, events), e) == Run(env, s, events + [e])
    decreases |events|
  {
    if events == [] {
      assert [] + [e] == [e] && [e][1..] == [];
      s' := Step(env, s, e);
    } else {
      s' := Extend(env, Step(env, s, events[0]), events[1..], e);
      assert (events + [e])[1..] == events[1..] + [e];
    }
  }

  // ---- key shares ----

  /** A queued key share: the generation it was queued in, and whether it may run unreconciled. */
  datatype Share = Share(generation: nat, allowPending: bool)

  function QueueShare(s: State, allowPending: bool): Share { Share(s.host.generation, allowPending) }

  /** The test made when the share's turn comes. */
  predicate ShareRuns(s: State, share: Share) {
    share.generation == s.host.generation && (share.allowPending || s.host.reconciled)
  }

  lemma StepGenerationGrows(env: Env, s: State, e: Event)
    ensures Step(env, s, e).host.generation >= s.host.generation
  {
  }

  lemma {:induction false} GenerationGrows(env: Env, s: State, events: seq<Event>)
    ensures Run(env, s, events).host.generation >= s.host.generation
    decreases |events|
  {
    if events != [] {
      StepGenerationGrows(env, s, events[0]);
      GenerationGrows(env, Step(env, s, events[0]), events[1..]);
    }
  }

  /** A share queued before a disconnect, a renewal or an appointment never runs after it. */
  lemma QueuedShareDies(env: Env, s: State, allowPending: bool, before: seq<Event>, e: Event, after: seq<Event>)
    requires Step(env, Run(env, s, before), e).host.generation != Run(env, s, before).host.generation
    ensures !ShareRuns(Run(env, Step(env, Run(env, s, before), e), after), QueueShare(s, allowPending))
  {
    GenerationGrows(env, s, before);
    StepGenerationGrows(env, Run(env, s, before), e);
    GenerationGrows(env, Step(env, Run(env, s, before), e), after);
  }

  /** A share that does run while reconciled runs under a proof accepted in the generation it was
      queued in, by the signer pinned both then and now. */
  lemma ShareRunsUnderProof(env: Env, s: State, events: seq<Event>)
    requires CollisionFree(env.rules.digest) && Inv(env, s)
    requires ShareRuns(Run(env, s, events), QueueShare(s, false))
    ensures var s' := Run(env, s, events);
      exists p :: p in s'.past.accepted && Genuine(env, s', p) && p.generation == s.host.generation && p.pin == s'.host.pin
  {
    RunKeepsInv(env, s, events);
    var s' := Run(env, s, events);
    var p :| p in s'.past.accepted && p.generation == s'.host.generation;
    assert Genuine(env, s', p);
  }

  // ---- the host object ----

  /** The fields of EncryptedHost that take part, and the durable state it reads and writes. Each
      method is one await-free stretch, and returns the frame of a call that goes on. */
  class EncryptedHost {
    const env: Env
    var reconciled: bool
    var challenge: Option<Nonce>
    var challengeExpiresAt: nat
    var reconcileGeneration: nat
    var observedMembership: Option<Floor>
    var membership: Option<Log>
    var savedFloor: Option<Floor>
    var pin: Pin
    var proposal: Option<Proposal>

    ghost function Fields(): Host
      reads this
    {
      Host(reconciled, challenge, challengeExpiresAt, reconcileGeneration, observedMembership, savedFloor, membership, pin, proposal)
    }

    constructor (env: Env, durable: Option<Floor>, pin: Pin)
      ensures Fields() == Started(durable, pin).host && this.env == env
    {
      this.env, this.savedFloor, this.pin, this.proposal := env, durable, pin, None;
      reconciled, challenge, challengeExpiresAt, reconcileGeneration := false, None, 0, 0;
      observedMembership, membership := None, None;
    }

    method Disconnect()
      modifies this
      ensures Fields() == Disconnected(old(Fields()))
    {
      reconciled := false;
      challenge := None;
      challengeExpiresAt := 0;
      reconcileGeneration := reconcileGeneration + 1;
    }

    method Throw(f: Frame)
      modifies this
      ensures Fields() == Abort(old(Fields()), f).host
    {
      if f.purpose.Reconciling? && f.generation == reconcileGeneration { reconciled := false; }
    }

    method BeginReconcile(nonce: Nonce, now: nat) returns (next: Frame)
      requires !pin.revoked
      modifies this
      ensures Turn(Fields(), Some(next)) == Begin(old(Fields()), nonce, now)
    {
      reconciled := false;
      reconcileGeneration := reconcileGeneration + 1;
      challenge := Some(nonce);
      challengeExpiresAt := now + TTL;
      next := Frame(Reconciling, reconcileGeneration, challenge, true, Posting);
    }

    method PostReturned(f: Frame, ok: bool)
      modifies this
      ensures Fields() == OnPosted(old(Fields()), f, ok).host
    {
      if !ok && f.generation == reconcileGeneration {
        challenge := None;
        challengeExpiresAt := 0;
      }
    }

    method ReconcileMembership() returns (next: Option<Frame>)
      modifies this
      ensures Turn(Fields(), next) == StartReconcile(old(Fields()))
    {
      if pin.revoked {
        Disconnect();
        return None;
      }
      next := Some(Frame(Reconciling, reconcileGeneration, challenge, !reconciled, Fetching));
    }

    method CheckMembershipFloor(log: Log) returns (ok: bool)
      ensures ok == PassesFloors(env, Fields(), log)
    {
      if savedFloor.Some? && !Passes(env.rules.digest, savedFloor.value, log) { return false; }
      if observedMembership.Some? && !Passes(env.rules.digest, observedMembership.value, log) { return false; }
      ok := true;
    }

    method ReplayReturned(f: Frame) returns (next: Option<Frame>)
      requires f.phase.Replaying?
      modifies this
      ensures Turn(Fields(), next) == OnReplayed(env, old(Fields()), f)
    {
      var log := f.phase.log;
      var ok := CheckMembershipFloor(log);
      if !Replays(env, log, f.phase.checkpoint) || !ok {
        Throw(f);
        return None;
      }
      observedMembership := Some(FloorOf(env.rules.digest, log));
      next := Some(f.(phase := if f.purpose.Reconciling? then Deleting(log, f.phase.proof) else ReadDone(log)));
    }

    method Authorized(f: Frame, log: Log, saved: bool, now: nat) returns (next: Option<Frame>)
      modifies this
      ensures Turn(Fields(), next) == OnAuthorized(env, old(Fields()), f, log, saved, now)
    {
      var ok := CheckMembershipFloor(log);
      if f.generation != reconcileGeneration || (f.needsProof && now >= challengeExpiresAt) || !ok {
        Throw(f);
        return None;
      }
      membership := Some(log);
      if !saved {
        Disconnect();
        return None;
      }
      savedFloor := Some(FloorOf(env.rules.digest, log));
      next := Some(f.(phase := Cancelling(log)));
    }

    method RenewOrThrow(f: Frame, nonce: Nonce, now: nat) returns (next: Option<Frame>)
      modifies this
      ensures Turn(Fields(), next) == Renew(old(Fields()), f, nonce, now)
    {
      if pin.revoked {
        Throw(f);
        return None;
      }
      var posting := BeginReconcile(nonce, now);
      next := Some(posting);
    }

    method DeletionsReturned(f: Frame, saved: bool, nonce: Nonce, now: nat) returns (next: Option<Frame>)
      requires f.phase.Deleting?
      modifies this
      ensures Turn(Fields(), next) == OnDeletions(env, old(Fields()), f, saved, nonce, now)
    {
      var log, proof := f.phase.log, f.phase.proof;
      var standing := StandingOf(env, pin, log);
      if standing.RequiresRecovery? || standing.Revoked? {
        membership := Some(log);
        Disconnect();
        if saved {
          savedFloor := Some(FloorOf(env.rules.digest, log));
          if standing.Revoked? {
            pin := pin.(revoked := true);
            proposal := None;
          }
        }
        return None;
      }
      if standing.CandidateUnverified? || f.generation != reconcileGeneration {
        Throw(f);
        return None;
      }
      if !f.needsProof {
        next := Authorized(f, log, saved, now);
      } else if f.challenge.None? || now >= challengeExpiresAt {
        next := RenewOrThrow(f, nonce, now);
      } else if proof.Some? && NamesAncestor(env, f, proof.value, log) {
        next := Some(f.(phase := CheckingAncestor(log, pin, Floor(proof.value.height, proof.value.hash))));
      } else if proof.Some? && NamesHead(env, f, proof.value, log) {
        next := Some(f.(phase := CheckingProof(log, pin)));
      } else {
        Throw(f);
        next := None;
      }
    }

    method AncestorReturned(f: Frame, verified: bool, nonce: Nonce, now: nat) returns (next: Option<Frame>)
      modifies this
      ensures Turn(Fields(), next) == OnAncestor(old(Fields()), f, verified, nonce, now)
    {
      if verified && f.generation == reconcileGeneration && challenge == f.challenge && !reconciled && now < challengeExpiresAt {
        next := RenewOrThrow(f, nonce, now);
      } else {
        Throw(f);
        next := None;
      }
    }

    method ProofReturned(f: Frame, verified: bool, saved: bool, now: nat) returns (next: Option<Frame>)
      requires f.phase.CheckingProof?
      modifies this
      ensures Turn(Fields(), next) == OnProof(env, old(Fields()), f, verified, saved, now)
    {
      if !verified {
        Throw(f);
        return None;
      }
      next := Authorized(f, f.phase.log, saved, now);
    }

    method CancellationReturned(f: Frame, ok: bool, now: nat) returns (next: Option<Frame>)
      requires f.phase.Cancelling?
      modifies this
      ensures Turn(Fields(), next) == OnCancelled(env, old(Fields()), f, ok, now)
    {
      var log := f.phase.log;
      var passes := CheckMembershipFloor(log);
      if !ok || f.generation != reconcileGeneration || (f.needsProof && now >= challengeExpiresAt) || !passes {
        Throw(f);
        return None;
      }
      next := Some(f.(phase := Recovering(log)));
    }

    method RecoveryReturned(f: Frame, ok: bool, now: nat)
      requires f.phase.Recovering?
      modifies this
      ensures Turn(Fields(), None) == OnRecovered(env, old(Fields()), f, ok, now)
    {
      var passes := CheckMembershipFloor(f.phase.log);
      if !ok || f.generation != reconcileGeneration || (f.needsProof && now >= challengeExpiresAt) || !passes {
        Throw(f);
      } else {
        reconciled := true;
      }
    }

    method PrepareFreshnessAuthority(f: Frame, id: nat, candidate: S.Identity, now: nat) returns (proposed: bool)
      requires f.phase.ReadDone?
      modifies this`proposal
      ensures Turn(Fields(), None) == Prepare(env, old(Fields()), f, id, candidate, now)
      ensures proposed ==> proposal.Some? && proposal.value.id == id
    {
      var m := StateOf(env, f.phase.log);
      if candidate.user != env.authority.user || !S.Holds(m.endpoints, candidate) { return false; }
      if candidate == pin.signer && m.epoch == pin.epoch { return false; }
      proposal := Some(Proposal(id, candidate, FloorOf(env.rules.digest, f.phase.log), m.epoch, CheckpointOf(savedFloor), pin,
                                reconcileGeneration, now + PROPOSAL_TTL));
      proposed := true;
    }

    method CommitFreshnessAuthority(f: Frame, activation: nat, saved: bool, now: nat) returns (appointed: bool)
      requires f.phase.ReadDone? && f.purpose.Committing?
      modifies this
      ensures Turn(Fields(), None) == CommitPin(env, old(Fields()), f, activation, saved, now)
    {
      if proposal.None? || proposal.value.id != f.purpose.proposal { return false; }
      var p, log := proposal.value, f.phase.log;
      proposal := None;
      var m := StateOf(env, log);
      if now >= p.expiresAt { return false; }
      if reconcileGeneration != p.generation || FloorOf(env.rules.digest, log) != p.head || m.epoch != p.epoch { return false; }
      if CheckpointOf(savedFloor) != p.prior || pin != p.priorPin { return false; }
      if !S.Holds(m.endpoints, p.candidate) || !saved { return false; }
      pin := Pin(p.candidate, p.epoch, Some(activation), false);
      savedFloor := Some(p.head);
      membership := Some(log);
      Disconnect();
      appointed := true;
    }
  }
}
