/** packages/hub/enrollment.js with packages/e2ee/membership.mjs: the relay's signed membership log,
    the table of endpoints derived from it, and the challenges answered over it.

    A signed mutation yields while it checks signatures and replays a snapshot of the log; it commits
    in one transaction that first compares the snapshot with what is stored. */
module SignedLog {
  import opened Wrappers
  import opened Chain

  type User = nat
  type Device = nat
  type Id = nat

  datatype Keys = Keys(curve25519: nat, ed25519: nat)

  datatype Identity = Identity(user: User, device: Device, keys: Keys)

  datatype Slot = Slot(user: User, device: Device)

  datatype Standing = Pending | Verified | Revoked

  datatype Entry = Entry(keys: Keys, standing: Standing)

  type Table = map<Slot, Entry>

  datatype Action =
    | Bootstrap(device: Device, keys: Keys)
    | Confirm(from: Device, target: Identity)
    | RevokeEndpoint(victim: Slot)
    | OwnerRecover(generation: nat, epoch: nat)
    | RecoveryConfigure(next: nat)
    | RecoveryRevoke(current: nat)
    | Other

  /** What a record's body says: its place in the log, its signer and its action. */
  datatype Op = Op(height: nat, signer: Identity, action: Action)

  /** Replayed state; epoch 0 is that of a team that was never recovered. Grants and deletions only decide whether later records are allowed. */
  datatype Membership = Membership(height: nat, hash: Hash, owner: Option<Identity>, endpoints: Table,
                                   descriptor: bool, generation: nat, epoch: nat, epochs: set<nat>)

  /** The parts taken as given: hashing, how a body reads, which signatures verify, and the policy on
      grants, deletions, recovery descriptors and recovery signatures. */
  datatype Env = Env(digest: Digest, read: nat -> Op, signed: Record -> bool, permits: (Membership, Record) -> bool, teamOwner: User)

  function SlotOf(i: Identity): Slot { Slot(i.user, i.device) }

  const EMPTY: Membership := Membership(0, GENESIS, None, map[], false, 0, 0, {})

  // ---- replay ----

  predicate Holds(t: Table, i: Identity) { SlotOf(i) in t && t[SlotOf(i)] == Entry(i.keys, Verified) }

  /** Every verified entry falls back to pending; the rest are untouched. */
  function Demoted(t: Table): Table {
    map s | s in t :: if t[s].standing.Verified? then t[s].(standing := Pending) else t[s]
  }

  predicate IsOwner(m: Membership, user: User) { m.owner.Some? && m.owner.value.user == user }

  /** applyOperation, without the hash of the result. */
  function Apply(env: Env, m: Membership, r: Record): Option<Membership> {
    var op := env.read(r.body);
    if op.height != m.height + 1 || r.previous != m.hash then None
    else
      var n := m.(height := op.height);
      match op.action
      case Bootstrap(device, keys) =>
        if m.height != 0 || m.owner.Some? || op.signer.device != device || op.signer.keys != keys then None
        else Some(n.(owner := Some(op.signer), endpoints := m.endpoints[SlotOf(op.signer) := Entry(keys, Verified)]))
      case OwnerRecover(generation, epoch) =>
        if !IsOwner(m, op.signer.user) || !m.descriptor || generation != m.generation || epoch == 0 || epoch in m.epochs
           || SlotOf(op.signer) in m.endpoints
           || (exists s :: s in m.endpoints && s.user == op.signer.user &&
                 (m.endpoints[s].keys.ed25519 == op.signer.keys.ed25519 || m.endpoints[s].keys.curve25519 == op.signer.keys.curve25519))
           || !env.permits(m, r)
        then None
        else Some(n.(endpoints := Demoted(m.endpoints)[SlotOf(op.signer) := Entry(op.signer.keys, Verified)],
                     epoch := epoch, epochs := m.epochs + {epoch}))
      case _ =>
        if !Holds(m.endpoints, op.signer) || !env.permits(m, r) then None else ApplyVerified(n, op)
  }

  /** The actions that only a verified endpoint may sign. */
  function ApplyVerified(n: Membership, op: Op): Option<Membership> {
    match op.action
    case Confirm(from, target) =>
      var slot := SlotOf(target);
      if from != op.signer.device then None
      else if slot in n.endpoints && (n.endpoints[slot].keys != target.keys || n.endpoints[slot].standing.Revoked?) then None
      else Some(n.(endpoints := n.endpoints[slot := Entry(target.keys, Verified)]))
    case RevokeEndpoint(victim) =>
      if !IsOwner(n, op.signer.user) && op.signer.user != victim.user then None
      else if victim !in n.endpoints then None
      else if n.owner.Some? && SlotOf(n.owner.value) == victim && n.owner.value.keys == n.endpoints[victim].keys
              && (!IsOwner(n, op.signer.user) || op.signer == n.owner.value) then None
      else Some(n.(endpoints := n.endpoints[victim := n.endpoints[victim].(standing := Revoked)]))
    case RecoveryConfigure(next) =>
      if !IsOwner(n, op.signer.user) || next != n.generation + 1 then None else Some(n.(descriptor := true, generation := next))
    case RecoveryRevoke(current) =>
      if !IsOwner(n, op.signer.user) || !n.descriptor || current != n.generation then None else Some(n.(descriptor := false))
    case _ => Some(n)
  }

  /** replayMembership under the log's own first signer. */
  function Replay(env: Env, log: Log): Option<Membership> {
    if log == [] then Some(EMPTY)
    else
      var before, r := Replay(env, log[..|log| - 1]), log[|log| - 1];
      if before.None? || !env.signed(r) then None
      else
        var after := Apply(env, before.value, r);
        if after.None? then None else Some(after.value.(hash := env.digest(r)))
  }

  // ---- the endpoint table ----

  datatype Result<T> = Ok(value: T) | Refused

  /** The row lands pending; a known device must come back with the keys it had. */
  function Announce(rows: Table, i: Identity, member: bool): Result<Table> {
    if !member then Refused
    else if SlotOf(i) in rows then (if rows[SlotOf(i)].keys == i.keys then Ok(rows) else Refused)
    else Ok(rows[SlotOf(i) := Entry(i.keys, Pending)])
  }

  predicate HasVerified(rows: Table, user: User) { exists s :: s in rows && s.user == user && rows[s].standing.Verified? }

  /** The table's half of a mutation. `ok` stands for the checks on grants, tasks and membership made
      against tables this model leaves out. */
  function Mutate(env: Env, rows: Table, op: Op, ok: bool): Result<Table> {
    var slot := SlotOf(op.signer);
    match op.action
    case Bootstrap(device, keys) =>
      if env.teamOwner != op.signer.user then Refused
      else
        var announced := Announce(rows, Identity(op.signer.user, device, keys), ok);
        if announced.Refused? then Refused
        else
          var cleared := Demoted(announced.value);
          if slot in cleared then Ok(cleared[slot := cleared[slot].(standing := Verified)]) else Ok(cleared)
    case Confirm(_, target) =>
      var recoveryAuthority := env.teamOwner == op.signer.user && !HasVerified(rows, op.signer.user);
      if !ok then Refused
      else if !recoveryAuthority && !(slot in rows && rows[slot].standing.Verified?) then Refused
      else if SlotOf(target) !in rows || rows[SlotOf(target)].standing.Revoked? || rows[SlotOf(target)].keys != target.keys then Refused
      else Ok(rows[SlotOf(target) := rows[SlotOf(target)].(standing := Verified)])
    case RevokeEndpoint(victim) =>
      if !ok || (env.teamOwner != op.signer.user && op.signer.user != victim.user) || victim !in rows then Refused
      else Ok(rows[victim := rows[victim].(standing := Revoked)])
    case OwnerRecover(_, _) =>
      var announced := Announce(rows, op.signer, ok);
      if announced.Refused? || !announced.value[slot].standing.Pending? then Refused
      else
        var cleared := Demoted(announced.value);
        Ok(cleared[slot := cleared[slot].(standing := Verified)])
    case _ => if ok then Ok(rows) else Refused
  }

  // ---- challenges ----

  /** A published challenge; `serial` is its identity as an object. */
  datatype Challenge = Challenge(serial: nat, nonce: nat, addressed: Option<Identity>, expiresAt: nat, proof: Option<Answer>)

  datatype Answer = Answer(nonce: nat, head: Floor, signature: nat)

  /** verifiedOwnerEndpoint: a verified endpoint of the owner's account. */
  predicate OwnerEndpoint(m: Membership, signer: Identity) { IsOwner(m, signer.user) && Holds(m.endpoints, signer) }

  // ---- runs ----

  datatype Frame =
    | Submitted(record: Record)
    | Replaying(record: Record, snapshot: Log)
    | Committing(record: Record, snapshot: Log)
    | Challenging(runtime: Id, nonce: nat, addressed: Identity, snapshot: Log)
    | Answering(runtime: Id, serial: nat, expiresAt: nat, signer: Identity, snapshot: Log, answer: Answer)

  datatype Hub = Hub(log: Log, rows: Table, challenges: map<Id, Challenge>, serials: nat)

  /** A signature over the body of an answer: this nonce, this head, for this host. */
  datatype Signature = Signature(signer: Identity, runtime: Id, nonce: nat, head: Floor)

  /** `signatures`: every one that was ever made. */
  datatype State = State(hub: Hub, frames: map<Id, Frame>, signatures: set<Signature>)

  datatype Event =
    | Announced(endpoint: Identity, member: bool)
    | Submit(id: Id, record: Record)
    | SignatureChecked(id: Id)
    | Replayed(id: Id)
    | Commit(id: Id, ok: bool)
    | Drop(id: Id)
    | ChallengeSubmitted(id: Id, runtime: Id, nonce: nat, addressed: Option<Identity>, now: nat)
    | ChallengeChecked(id: Id, now: nat)
    | Signed(signature: Signature)
    | AnswerSubmitted(id: Id, runtime: Id, account: User, answer: Answer, now: nat)
    | AnswerChecked(id: Id, now: nat)

  const WINDOW: nat := 60000

  /** The transaction: nothing happens unless the stored head is the snapshot's. */
  function CommitTransaction(env: Env, h: Hub, record: Record, snapshot: Log, ok: bool): Hub {
    if FloorOf(env.digest, h.log) != FloorOf(env.digest, snapshot) then h
    else
      var rows := Mutate(env, h.rows, env.read(record.body), ok);
      if rows.Refused? then h else h.(rows := rows.value, log := h.log + [record])
  }

  /** The signature that would verify an answer. */
  function SignatureOf(f: Frame): Signature
    requires f.Answering?
  {
    Signature(f.signer, f.runtime, f.answer.nonce, f.answer.head)
  }

  /** The host's challenge, replacing the one before. */
  function Challenged(h: Hub, runtime: Id, nonce: nat, addressed: Option<Identity>, now: nat): Hub {
    h.(challenges := h.challenges[runtime := Challenge(h.serials, nonce, addressed, now + WINDOW, None)], serials := h.serials + 1)
  }

  /** One addressed to an appointed signer is published only if that is a verified owner endpoint. */
  function Addressed(env: Env, h: Hub, f: Frame, now: nat): Hub
    requires f.Challenging?
  {
    var head := Replay(env, f.snapshot);
    if head.None? || !OwnerEndpoint(head.value, f.addressed) then h else Challenged(h, f.runtime, f.nonce, Some(f.addressed), now)
  }

  /** The last stretch of answer-challenge. */
  function Publish(env: Env, h: Hub, f: Frame, verified: bool, now: nat): Hub
    requires f.Answering?
  {
    var head := Replay(env, f.snapshot);
    if !verified || head.None? || !OwnerEndpoint(head.value, f.signer) then h
    else if f.runtime !in h.challenges || h.challenges[f.runtime].serial != f.serial || f.expiresAt <= now then h
    else if FloorOf(env.digest, h.log) != Floor(head.value.height, head.value.hash) then h
    else h.(challenges := h.challenges[f.runtime := h.challenges[f.runtime].(proof := Some(f.answer))])
  }

  function Step(env: Env, s: State, e: Event): State {
    var h := s.hub;
    match e
    case Announced(i, member) =>
      var r := Announce(h.rows, i, member);
      if r.Ok? then s.(hub := h.(rows := r.value)) else s
    case Submit(id, record) => if id in s.frames then s else s.(frames := s.frames[id := Submitted(record)])
    case SignatureChecked(id) =>
      if id in s.frames && s.frames[id].Submitted? && env.signed(s.frames[id].record)
      then s.(frames := s.frames[id := Replaying(s.frames[id].record, h.log)]) else s
    case Replayed(id) =>
      if id in s.frames && s.frames[id].Replaying? then
        var f := s.frames[id];
        var current := Replay(env, f.snapshot);
        if current.None? || f.record in f.snapshot || Apply(env, current.value, f.record).None? then s.(frames := s.frames - {id})
        else s.(frames := s.frames[id := Committing(f.record, f.snapshot)])
      else s
    case Commit(id, ok) =>
      if id in s.frames && s.frames[id].Committing?
      then s.(hub := CommitTransaction(env, h, s.frames[id].record, s.frames[id].snapshot, ok), frames := s.frames - {id}) else s
    case Drop(id) => s.(frames := s.frames - {id})
    case ChallengeSubmitted(id, runtime, nonce, addressed, now) =>
      if addressed.None? then s.(hub := Challenged(h, runtime, nonce, None, now))
      else if id in s.frames || h.log == [] then s
      else s.(frames := s.frames[id := Challenging(runtime, nonce, addressed.value, h.log)])
    case ChallengeChecked(id, now) =>
      if id in s.frames && s.frames[id].Challenging?
      then s.(hub := Addressed(env, h, s.frames[id], now), frames := s.frames - {id}) else s
    case Signed(signature) => s.(signatures := s.signatures + {signature})
    case AnswerSubmitted(id, runtime, account, answer, now) =>
      if id in s.frames || runtime !in h.challenges || h.log == [] then s
      else
        var request, owner := h.challenges[runtime], env.read(h.log[0].body).signer;
        if request.expiresAt < now || answer.nonce != request.nonce || owner.user != account then s
        else s.(frames := s.frames[id := Answering(runtime, request.serial, request.expiresAt,
                                                   if request.addressed.Some? then request.addressed.value else owner, h.log, answer)])
    case AnswerChecked(id, now) =>
      if id in s.frames && s.frames[id].Answering?
      then s.(hub := Publish(env, h, s.frames[id], SignatureOf(s.frames[id]) in s.signatures, now), frames := s.frames - {id}) else s
  }

  function Run(env: Env, s: State, events: seq<Event>): State
    decreases |events|
  {
    if events == [] then s else Run(env, Step(env, s, events[0]), events[1..])
  }

  /** An empty log beside whatever rows were there before the log existed. */
  function Opened(rows: Table): State { State(Hub([], rows, map[], 0), map[], {}) }

  // ---- the invariant ----

  /** The keys of the verified entries, by slot. */
  function VerifiedOf(t: Table): map<Slot, Keys> { map s | s in t && t[s].standing.Verified? :: t[s].keys }

  ghost predicate FrameInv(env: Env, h: Hub, f: Frame) {
    match f
    case Submitted(_) => true
    case Replaying(record, snapshot) => snapshot <= h.log && env.signed(record)
    case Committing(record, snapshot) =>
      snapshot <= h.log && env.signed(record) && Replay(env, snapshot).Some? && Apply(env, Replay(env, snapshot).value, record).Some?
    case Challenging(_, _, _, snapshot) => snapshot <= h.log
    case Answering(runtime, serial, expiresAt, _, snapshot, answer) =>
      && snapshot <= h.log
      && (runtime in h.challenges && h.challenges[runtime].serial == serial ==>
            h.challenges[runtime].expiresAt == expiresAt && h.challenges[runtime].nonce == answer.nonce)
      && serial < h.serials
  }

  ghost predicate HubInv(env: Env, h: Hub) {
    && Replay(env, h.log).Some?
    && (h.log != [] ==> VerifiedOf(h.rows) == VerifiedOf(Replay(env, h.log).value.endpoints))
    && (forall r :: r in h.challenges ==> h.challenges[r].serial < h.serials)
  }

  ghost predicate Inv(env: Env, s: State) {
    HubInv(env, s.hub) && (forall id :: id in s.frames ==> FrameInv(env, s.hub, s.frames[id]))
  }

  // ---- replay is a linear chain ----

  lemma {:induction false} ReplayIsChain(env: Env, log: Log)
    requires Replay(env, log).Some?
    ensures Replay(env, log).value.height == |log| && Replay(env, log).value.hash == HeadHash(env.digest, log)
    ensures Chained(env.digest, log)
  {
    if log != [] {
      var n := |log| - 1;
      ReplayIsChain(env, log[..n]);
      forall k | 0 <= k < |log| ensures log[k].previous == HeadHash(env.digest, log[..k]) {
        if k < n { assert log[..n][..k] == log[..k] && log[..n][k] == log[k]; }
      }
    }
  }

  /** Every stored record was accepted against the replay of exactly the records before it. */
  lemma {:induction false} ReplayValidatesEach(env: Env, log: Log, k: nat)
    requires Replay(env, log).Some? && k < |log|
    ensures Replay(env, log[..k]).Some? && env.signed(log[k]) && env.read(log[k].body).height == k + 1
    ensures Apply(env, Replay(env, log[..k]).value, log[k]).Some?
  {
    var n := |log| - 1;
    ReplayIsChain(env, log[..n]);
    if k < n {
      ReplayValidatesEach(env, log[..n], k);
      assert log[..n][..k] == log[..k] && log[..n][k] == log[k];
    }
  }

  // ---- the table follows the log ----

  lemma AnnounceAddsNoTrust(rows: Table, i: Identity, member: bool)
    ensures Announce(rows, i, member).Ok? ==> VerifiedOf(Announce(rows, i, member).value) == VerifiedOf(rows)
  {
  }

  lemma DemotedHasNone(t: Table)
    ensures VerifiedOf(Demoted(t)) == map[]
  {
  }

  lemma PromotionAdds(t: Table, slot: Slot, keys: Keys)
    ensures VerifiedOf(t[slot := Entry(keys, Verified)]) == VerifiedOf(t)[slot := keys]
  {
  }

  lemma RevocationRemoves(t: Table, slot: Slot)
    requires slot in t
    ensures VerifiedOf(t[slot := t[slot].(standing := Revoked)]) == VerifiedOf(t) - {slot}
  {
  }

  /** What one accepted record does to the verified endpoints. */
  function Trusted(before: map<Slot, Keys>, op: Op): map<Slot, Keys> {
    match op.action
    case Bootstrap(_, _) => map[SlotOf(op.signer) := op.signer.keys]
    case OwnerRecover(_, _) => map[SlotOf(op.signer) := op.signer.keys]
    case Confirm(_, target) => before[SlotOf(target) := target.keys]
    case RevokeEndpoint(victim) => before - {victim}
    case _ => before
  }

  lemma ApplyTrusts(env: Env, m: Membership, r: Record)
    requires Apply(env, m, r).Some? && (m.height == 0 ==> m.endpoints == map[])
    ensures VerifiedOf(Apply(env, m, r).value.endpoints) == Trusted(VerifiedOf(m.endpoints), env.read(r.body))
  {
    var op := env.read(r.body);
    match op.action
    case Bootstrap(_, keys) => PromotionAdds(m.endpoints, SlotOf(op.signer), keys);
    case OwnerRecover(_, _) =>
      DemotedHasNone(m.endpoints);
      PromotionAdds(Demoted(m.endpoints), SlotOf(op.signer), op.signer.keys);
    case Confirm(_, target) => PromotionAdds(m.endpoints, SlotOf(target), target.keys);
    case RevokeEndpoint(victim) => RevocationRemoves(m.endpoints, victim);
    case _ =>
  }

  lemma MutateTrusts(env: Env, rows: Table, op: Op, ok: bool)
    requires Mutate(env, rows, op, ok).Ok?
    requires op.action.Bootstrap? ==> op.action.device == op.signer.device && op.action.keys == op.signer.keys
    ensures VerifiedOf(Mutate(env, rows, op, ok).value) == Trusted(VerifiedOf(rows), op)
  {
    match op.action
    case Bootstrap(device, keys) =>
      var announced := Announce(rows, Identity(op.signer.user, device, keys), ok).value;
      DemotedHasNone(announced);
      PromotionAdds(Demoted(announced), SlotOf(op.signer), keys);
    case OwnerRecover(_, _) =>
      var announced := Announce(rows, op.signer, ok).value;
      DemotedHasNone(announced);
      PromotionAdds(Demoted(announced), SlotOf(op.signer), op.signer.keys);
    case Confirm(_, target) => PromotionAdds(rows, SlotOf(target), target.keys);
    case RevokeEndpoint(victim) => RevocationRemoves(rows, victim);
    case _ =>
  }

  // ---- every step keeps the invariant ----

  lemma PrefixOfSameLength(x: Log, y: Log)
    requires x <= y && |x| == |y|
    ensures x == y
  {
  }

  lemma AppendReplays(env: Env, log: Log, r: Record)
    requires Replay(env, log).Some? && env.signed(r) && Apply(env, Replay(env, log).value, r).Some?
    ensures Replay(env, log + [r]) == Some(Apply(env, Replay(env, log).value, r).value.(hash := env.digest(r)))
  {
    assert (log + [r])[..|log|] == log;
  }

  lemma CommitKeepsHubInv(env: Env, h: Hub, record: Record, snapshot: Log, ok: bool)
    requires HubInv(env, h) && FrameInv(env, h, Committing(record, snapshot))
    ensures HubInv(env, CommitTransaction(env, h, record, snapshot, ok))
    ensures h.log <= CommitTransaction(env, h, record, snapshot, ok).log
  {
    var h' := CommitTransaction(env, h, record, snapshot, ok);
    if h' != h {
      PrefixOfSameLength(snapshot, h.log);
      ReplayIsChain(env, h.log);
      AppendReplays(env, h.log, record);
      var op, m := env.read(record.body), Replay(env, h.log).value;
      ApplyTrusts(env, m, record);
      MutateTrusts(env, h.rows, op, ok);
      if h.log == [] { assert op.action.Bootstrap?; }
    }
  }

  /** Frames survive a log that only grows and challenges that keep their identity. */
  lemma FramesSurvive(env: Env, h: Hub, h': Hub, f: Frame)
    requires FrameInv(env, h, f) && h.log <= h'.log && h.serials <= h'.serials
    requires forall r :: r in h'.challenges && h'.challenges[r].serial < h.serials ==>
               r in h.challenges && h'.challenges[r] == h.challenges[r].(proof := h'.challenges[r].proof)
    ensures FrameInv(env, h', f)
  {
  }

  lemma StepKeepsHub(env: Env, s: State, e: Event)
    requires Inv(env, s)
    ensures HubInv(env, Step(env, s, e).hub)
    ensures s.hub.log <= Step(env, s, e).hub.log && s.hub.serials <= Step(env, s, e).hub.serials
  {
    match e
    case Announced(i, member) => AnnounceAddsNoTrust(s.hub.rows, i, member);
    case Commit(id, ok) =>
      if id in s.frames && s.frames[id].Committing? {
        assert FrameInv(env, s.hub, s.frames[id]);
        CommitKeepsHubInv(env, s.hub, s.frames[id].record, s.frames[id].snapshot, ok);
      }
    case _ =>
  }

  lemma StepKeepsInv(env: Env, s: State, e: Event)
    requires Inv(env, s)
    ensures Inv(env, Step(env, s, e))
  {
    var s' := Step(env, s, e);
    StepKeepsHub(env, s, e);
    forall id | id in s'.frames ensures FrameInv(env, s'.hub, s'.frames[id]) {
      if id in s.frames && s.frames[id] == s'.frames[id] {
        FramesSurvive(env, s.hub, s'.hub, s.frames[id]);
      } else if id in s.frames {
        assert FrameInv(env, s.hub, s.frames[id]);
      }
    }
  }

  lemma {:induction false} RunKeepsInv(env: Env, s: State, events: seq<Event>)
    requires Inv(env, s)
    ensures Inv(env, Run(env, s, events))
    decreases |events|
  {
    if events != [] {
      StepKeepsInv(env, s, events[0]);
      RunKeepsInv(env, Step(env, s, events[0]), events[1..]);
    }
  }

  /** Under any interleaving of mutations and announcements, from any table: one chain, each record
      accepted on top of exactly its predecessors and allowed by what those told, and the relay's verified
      rows are the log's fold. */
  lemma OneValidatedChain(env: Env, rows: Table, events: seq<Event>)
    ensures var h := Run(env, Opened(rows), events).hub;
      && Chained(env.digest, h.log) && Lawful(env, h.log) && RowsInv(env, h)
      && (forall k :: 0 <= k < |h.log| ==>
            && env.signed(h.log[k]) && env.read(h.log[k].body).height == k + 1
            && Replay(env, h.log[..k]).Some? && Apply(env, Replay(env, h.log[..k]).value, h.log[k]).Some?
            && var op := env.read(h.log[k].body);
               op.action.Bootstrap? || op.action.OwnerRecover? || Trusts(TrustOf(env, h.log[..k]), op.signer))
      && (h.log != [] ==> VerifiedOf(h.rows) == TrustOf(env, h.log))
  {
    RunKeepsInv(env, Opened(rows), events);
    RunKeepsRows(env, Opened(rows), events);
    var h := Run(env, Opened(rows), events).hub;
    ReplayIsChain(env, h.log);
    ReplayIsPolicy(env, h.log);
    forall k | 0 <= k < |h.log|
      ensures && env.signed(h.log[k]) && env.read(h.log[k].body).height == k + 1
              && Replay(env, h.log[..k]).Some? && Apply(env, Replay(env, h.log[..k]).value, h.log[k]).Some?
      ensures var op := env.read(h.log[k].body);
              op.action.Bootstrap? || op.action.OwnerRecover? || Trusts(TrustOf(env, h.log[..k]), op.signer)
    {
      ReplayValidatesEach(env, h.log, k);
      SignersAreVerified(env, h.log, k);
    }
    TrustIsReplay(env, h.log);
  }

  /** The verified endpoints as a plain fold over what the records say. */
  function TrustOf(env: Env, log: Log): map<Slot, Keys> {
    if log == [] then map[] else Trusted(TrustOf(env, log[..|log| - 1]), env.read(log[|log| - 1].body))
  }

  lemma {:induction false} TrustIsReplay(env: Env, log: Log)
    requires Replay(env, log).Some?
    ensures VerifiedOf(Replay(env, log).value.endpoints) == TrustOf(env, log)
    ensures log == [] ==> Replay(env, log).value.endpoints == map[]
  {
    if log != [] {
      var n := |log| - 1;
      TrustIsReplay(env, log[..n]);
      ReplayIsChain(env, log[..n]);
      ApplyTrusts(env, Replay(env, log[..n]).value, log[n]);
    }
  }

  // ---- what a log tells, whoever may say it ----

  /** Everything the records of a log claim, taken at their word: who was admitted and removed, and how
      recovery stands. */
  datatype Told = Told(owner: Option<Identity>, admitted: set<Identity>, removed: set<Slot>,
                       descriptor: bool, generations: nat, epoch: nat, epochs: set<nat>)

  function Hear(t: Told, op: Op): Told {
    match op.action
    case Bootstrap(_, _) => t.(owner := Some(op.signer), admitted := t.admitted + {op.signer})
    case Confirm(_, target) => t.(admitted := t.admitted + {target})
    case RevokeEndpoint(victim) => t.(removed := t.removed + {victim})
    case OwnerRecover(_, epoch) => t.(admitted := t.admitted + {op.signer}, epoch := epoch, epochs := t.epochs + {epoch})
    case RecoveryConfigure(_) => t.(descriptor := true, generations := t.generations + 1)
    case RecoveryRevoke(_) => t.(descriptor := false)
    case Other => t
  }

  function ToldBy(env: Env, log: Log): Told {
    if log == [] then Told(None, {}, {}, false, 0, 0, {}) else Hear(ToldBy(env, log[..|log| - 1]), env.read(log[|log| - 1].body))
  }

  predicate Trusts(trusted: map<Slot, Keys>, i: Identity) { SlotOf(i) in trusted && trusted[SlotOf(i)] == i.keys }

  /** The policy: who may say what, after a log that told `t` and whose verified endpoints are `trusted`. */
  ghost predicate MaySay(t: Told, trusted: map<Slot, Keys>, op: Op) {
    if op.action.Bootstrap? then op.signer.device == op.action.device && op.signer.keys == op.action.keys
    else
      t.owner.Some?
      && var byOwner := op.signer.user == t.owner.value.user;
         match op.action
         case OwnerRecover(generation, epoch) => // a device never seen before takes over
           && byOwner && t.descriptor && generation == t.generations && epoch != 0 && epoch !in t.epochs
           && (forall i :: i in t.admitted && i.user == op.signer.user ==>
                 i.device != op.signer.device && i.keys.ed25519 != op.signer.keys.ed25519 && i.keys.curve25519 != op.signer.keys.curve25519)
         case Confirm(from, target) =>
           && Trusts(trusted, op.signer) && from == op.signer.device && SlotOf(target) !in t.removed
           && (forall i :: i in t.admitted && SlotOf(i) == SlotOf(target) ==> i == target)
         case RevokeEndpoint(victim) => // the genesis may be removed only by another device of the owner
           && Trusts(trusted, op.signer) && (byOwner || op.signer.user == victim.user)
           && (exists i :: i in t.admitted && SlotOf(i) == victim)
           && (victim == SlotOf(t.owner.value) ==> byOwner && op.signer != t.owner.value)
         case RecoveryConfigure(next) => Trusts(trusted, op.signer) && byOwner && next == t.generations + 1
         case RecoveryRevoke(current) => Trusts(trusted, op.signer) && byOwner && t.descriptor && current == t.generations
         case _ => Trusts(trusted, op.signer)
  }

  /** The record may follow the log: signed, in its place, linked to what is before it, said by one who may
      say it, and allowed by the policies that are parameters. */
  ghost predicate MayFollow(env: Env, log: Log, r: Record) {
    var op := env.read(r.body);
    && env.signed(r) && op.height == |log| + 1 && r.previous == HeadHash(env.digest, log)
    && (op.action.Bootstrap? <==> log == [])
    && MaySay(ToldBy(env, log), TrustOf(env, log), op)
    && (op.action.Bootstrap? || (Replay(env, log).Some? && env.permits(Replay(env, log).value, r)))
  }

  ghost predicate Lawful(env: Env, log: Log) { forall k :: 0 <= k < |log| ==> MayFollow(env, log[..k], log[k]) }

  /** The replayed state holds what the log told, and nothing else. */
  ghost predicate Reflects(m: Membership, t: Told) {
    && m.owner == t.owner && m.descriptor == t.descriptor && m.generation == t.generations && m.epoch == t.epoch && m.epochs == t.epochs
    && (m.owner.Some? ==> m.owner.value in t.admitted)
    && EndpointsReflect(m.endpoints, t)
  }

  ghost predicate EndpointsReflect(endpoints: Table, t: Told) {
    && (forall i :: i in t.admitted ==> SlotOf(i) in endpoints && endpoints[SlotOf(i)].keys == i.keys)
    && (forall s :: s in endpoints ==> Identity(s.user, s.device, endpoints[s].keys) in t.admitted)
    && (forall s :: s in endpoints ==> (endpoints[s].standing.Revoked? <==> s in t.removed))
    && (forall s :: s in t.removed ==> s in endpoints)
  }

  lemma ApplyReflects(env: Env, m: Membership, t: Told, r: Record)
    requires Reflects(m, t) && Apply(env, m, r).Some? && (m.height == 0 ==> t == ToldBy(env, []) && m.endpoints == map[])
    ensures Reflects(Apply(env, m, r).value, Hear(t, env.read(r.body)))
  {
    var op := env.read(r.body);
    var e, e', t' := m.endpoints, Apply(env, m, r).value.endpoints, Hear(t, op);
    match op.action
    case Confirm(_, target) => AdmissionReflects(e, t, target, e', t');
    case Bootstrap(_, _) => AdmissionReflects(e, t, op.signer, e', t');
    case OwnerRecover(_, _) => AdmissionReflects(Demoted(e), t, op.signer, e', t');
    case _ =>
  }

  lemma AdmissionReflects(e: Table, t: Told, i: Identity, e': Table, t': Told)
    requires EndpointsReflect(e, t) && e' == e[SlotOf(i) := Entry(i.keys, Verified)]
    requires t'.admitted == t.admitted + {i} && t'.removed == t.removed
    requires SlotOf(i) in e ==> e[SlotOf(i)].keys == i.keys && !e[SlotOf(i)].standing.Revoked?
    ensures EndpointsReflect(e', t')
  {
    forall s | s in e' ensures Identity(s.user, s.device, e'[s].keys) in t'.admitted {
      if s == SlotOf(i) { assert Identity(s.user, s.device, e'[s].keys) == i; }
    }
  }

  lemma {:induction false} ReplayReflects(env: Env, log: Log)
    requires Replay(env, log).Some?
    ensures Reflects(Replay(env, log).value, ToldBy(env, log))
    ensures log != [] ==> ToldBy(env, log).owner.Some?
  {
    if log != [] {
      var n := |log| - 1;
      ReplayReflects(env, log[..n]);
      ReplayIsChain(env, log[..n]);
      TrustIsReplay(env, log[..n]);
      ApplyReflects(env, Replay(env, log[..n]).value, ToldBy(env, log[..n]), log[n]);
    }
  }

  /** One record is accepted exactly when policy lets it follow. */
  lemma ApplyIsPolicy(env: Env, log: Log, r: Record)
    requires Replay(env, log).Some?
    ensures env.signed(r) && Apply(env, Replay(env, log).value, r).Some? <==> MayFollow(env, log, r)
  {
    var m, t, op := Replay(env, log).value, ToldBy(env, log), env.read(r.body);
    ReplayReflects(env, log);
    ReplayIsChain(env, log);
    TrustIsReplay(env, log);
    assert Holds(m.endpoints, op.signer) <==> Trusts(TrustOf(env, log), op.signer);
    match op.action
    case OwnerRecover(_, _) => NeverSeen(m.endpoints, t, op.signer);
    case Confirm(_, target) => SameAsAdmitted(m.endpoints, t, target);
    case RevokeEndpoint(victim) =>
      assert victim in m.endpoints ==> SlotOf(Identity(victim.user, victim.device, m.endpoints[victim].keys)) == victim;
    case _ =>
  }

  lemma NeverSeen(e: Table, t: Told, i: Identity)
    requires EndpointsReflect(e, t)
    ensures (SlotOf(i) !in e && !exists s :: s in e && s.user == i.user && (e[s].keys.ed25519 == i.keys.ed25519 || e[s].keys.curve25519 == i.keys.curve25519))
       <==> (forall j :: j in t.admitted && j.user == i.user ==>
               j.device != i.device && j.keys.ed25519 != i.keys.ed25519 && j.keys.curve25519 != i.keys.curve25519)
  {
    if forall j :: j in t.admitted && j.user == i.user ==>
         j.device != i.device && j.keys.ed25519 != i.keys.ed25519 && j.keys.curve25519 != i.keys.curve25519 {
      forall s | s in e && s.user == i.user ensures s != SlotOf(i) && e[s].keys.ed25519 != i.keys.ed25519 && e[s].keys.curve25519 != i.keys.curve25519 {
        assert Identity(s.user, s.device, e[s].keys) in t.admitted;
      }
    } else {
      var j :| j in t.admitted && j.user == i.user && (j.device == i.device || j.keys.ed25519 == i.keys.ed25519 || j.keys.curve25519 == i.keys.curve25519);
      assert SlotOf(j) in e;
    }
  }

  lemma SameAsAdmitted(e: Table, t: Told, i: Identity)
    requires EndpointsReflect(e, t)
    ensures !(SlotOf(i) in e && (e[SlotOf(i)].keys != i.keys || e[SlotOf(i)].standing.Revoked?))
       <==> SlotOf(i) !in t.removed && forall j :: j in t.admitted && SlotOf(j) == SlotOf(i) ==> j == i
  {
    if SlotOf(i) in e {
      var j := Identity(i.user, i.device, e[SlotOf(i)].keys);
      assert j in t.admitted && SlotOf(j) == SlotOf(i);
      if e[SlotOf(i)].keys == i.keys { assert j == i; }
    }
  }

  /** A log replays if and only if every record may follow the ones before it, judged by nothing but what
      those told and whom they left verified. */
  lemma {:induction false} ReplayIsPolicy(env: Env, log: Log)
    ensures Replay(env, log).Some? <==> Lawful(env, log)
  {
    if log != [] {
      var n := |log| - 1;
      ReplayIsPolicy(env, log[..n]);
      if Lawful(env, log) {
        LawfulPrefix(env, log, n);
      }
      if Replay(env, log[..n]).Some? {
        ApplyIsPolicy(env, log[..n], log[n]);
        if Lawful(env, log[..n]) && MayFollow(env, log[..n], log[n]) { LawfulGrows(env, log); }
      }
    }
  }

  lemma LawfulPrefix(env: Env, log: Log, n: nat)
    requires Lawful(env, log) && n <= |log|
    ensures Lawful(env, log[..n])
  {
    forall k | 0 <= k < n ensures MayFollow(env, log[..n][..k], log[..n][k]) {
      assert log[..n][..k] == log[..k];
      assert MayFollow(env, log[..k], log[k]);
    }
  }

  lemma SamePlace(env: Env, log: Log, n: nat, k: nat)
    requires k < n <= |log|
    ensures log[..n][..k] == log[..k] && log[..n][k] == log[k]
  {
  }

  lemma LawfulGrows(env: Env, log: Log)
    requires log != [] && Lawful(env, log[..|log| - 1]) && MayFollow(env, log[..|log| - 1], log[|log| - 1])
    ensures Lawful(env, log)
  {
    var n := |log| - 1;
    var before := log[..n];
    forall k | 0 <= k < |log| ensures MayFollow(env, log[..k], log[k]) {
      if k < n {
        SamePlace(env, log, n, k);
        assert MayFollow(env, before[..k], before[k]);
      }
    }
  }

  /** Nobody speaks who is not verified at that point, save the genesis that opens the log and the owner's
      new device that recovers it. */
  lemma SignersAreVerified(env: Env, log: Log, k: nat)
    requires Replay(env, log).Some? && k < |log|
    ensures var op := env.read(log[k].body);
      op.action.Bootstrap? || op.action.OwnerRecover? || Trusts(TrustOf(env, log[..k]), op.signer)
  {
    ReplayIsPolicy(env, log);
    assert MayFollow(env, log[..k], log[k]);
  }

  // ---- the relay's table and the policy ----

  /** The relay holds a row with the right keys for everyone the log admitted, and has revoked everyone it
      removed. */
  ghost predicate RowsKnow(rows: Table, t: Told) {
    && (forall i :: i in t.admitted ==> SlotOf(i) in rows && rows[SlotOf(i)].keys == i.keys)
    && (forall s :: s in t.removed ==> s in rows && rows[s].standing.Revoked?)
  }

  ghost predicate RowsInv(env: Env, h: Hub) {
    h.log != [] ==>
      && RowsKnow(h.rows, ToldBy(env, h.log))
      && ToldBy(env, h.log).owner.Some? && ToldBy(env, h.log).owner.value.user == env.teamOwner
  }

  /** Beyond the policy of the log, the relay asks that a device it is told about is the one that announced
      itself: the first one the team owner's, one confirmed announced and not revoked, one that recovers new. */
  ghost predicate RowsAgree(env: Env, rows: Table, op: Op) {
    match op.action
    case Bootstrap(_, _) => op.signer.user == env.teamOwner && (SlotOf(op.signer) in rows ==> rows[SlotOf(op.signer)].keys == op.signer.keys)
    case Confirm(_, target) => SlotOf(target) in rows && rows[SlotOf(target)].keys == target.keys && !rows[SlotOf(target)].standing.Revoked?
    case OwnerRecover(_, _) => SlotOf(op.signer) in rows ==> rows[SlotOf(op.signer)] == Entry(op.signer.keys, Pending)
    case _ => true
  }

  lemma MutateFollows(env: Env, rows: Table, op: Op, ok: bool, t: Told)
    requires Mutate(env, rows, op, ok).Ok? && RowsKnow(rows, t)
    requires op.action.Bootstrap? ==> t.removed == {} && op.action.device == op.signer.device && op.action.keys == op.signer.keys
    ensures RowsKnow(Mutate(env, rows, op, ok).value, Hear(t, op))
  {
  }

  lemma MutateAgrees(env: Env, rows: Table, op: Op, ok: bool, t: Told, trusted: map<Slot, Keys>)
    requires MaySay(t, trusted, op)
    requires !op.action.Bootstrap? ==> RowsKnow(rows, t) && t.owner.Some? && t.owner.value.user == env.teamOwner && VerifiedOf(rows) == trusted
    ensures Mutate(env, rows, op, ok).Ok? <==> ok && RowsAgree(env, rows, op)
  {
    assert Trusts(VerifiedOf(rows), op.signer) ==> SlotOf(op.signer) in rows && rows[SlotOf(op.signer)].standing.Verified?;
  }

  lemma CommitKeepsRows(env: Env, h: Hub, record: Record, snapshot: Log, ok: bool)
    requires HubInv(env, h) && RowsInv(env, h) && FrameInv(env, h, Committing(record, snapshot))
    ensures RowsInv(env, CommitTransaction(env, h, record, snapshot, ok))
  {
    var h' := CommitTransaction(env, h, record, snapshot, ok);
    if h' != h {
      PrefixOfSameLength(snapshot, h.log);
      ApplyIsPolicy(env, h.log, record);
      MutateFollows(env, h.rows, env.read(record.body), ok, ToldBy(env, h.log));
      assert h'.log[..|h'.log| - 1] == h.log;
    }
  }

  /** A mutation whose record was accepted over its snapshot commits if and only if nothing was committed
      since, the checks that are parameters pass, and what it says agrees with the announced rows. */
  lemma CommitsExactly(env: Env, h: Hub, record: Record, snapshot: Log, ok: bool)
    requires HubInv(env, h) && RowsInv(env, h) && FrameInv(env, h, Committing(record, snapshot))
    ensures var h' := CommitTransaction(env, h, record, snapshot, ok);
      && (h'.log == h.log + [record] <==> snapshot == h.log && ok && RowsAgree(env, h.rows, env.read(record.body)))
      && (h'.log != h.log + [record] ==> h' == h) && h'.challenges == h.challenges && h'.serials == h.serials
  {
    if |snapshot| == |h.log| {
      PrefixOfSameLength(snapshot, h.log);
      ApplyIsPolicy(env, h.log, record);
      TrustIsReplay(env, h.log);
      MutateAgrees(env, h.rows, env.read(record.body), ok, ToldBy(env, h.log), TrustOf(env, h.log));
    }
  }

  lemma AnnounceKeepsRows(rows: Table, i: Identity, member: bool, t: Told)
    requires RowsKnow(rows, t) && Announce(rows, i, member).Ok?
    ensures RowsKnow(Announce(rows, i, member).value, t)
  {
  }

  /** An announcement is taken exactly from a member whose device is new or comes with the keys it had; a new
      one waits to be confirmed, and every other row is untouched. */
  lemma AnnounceExactly(rows: Table, i: Identity, member: bool)
    ensures Announce(rows, i, member).Ok? <==> member && (SlotOf(i) in rows ==> rows[SlotOf(i)].keys == i.keys)
    ensures var r := Announce(rows, i, member);
      r.Ok? ==> forall s :: s in r.value <==> s in rows || s == SlotOf(i)
    ensures var r := Announce(rows, i, member);
      r.Ok? ==> forall s :: s in r.value ==> r.value[s] == if s in rows then rows[s] else Entry(i.keys, Pending)
  {
  }

  /** So an announcement that is taken changes its row alone, and one that is not changes nothing. */
  lemma AnnouncesExactly(env: Env, s: State, i: Identity, member: bool)
    ensures var s', rows := Step(env, s, Announced(i, member)), s.hub.rows;
      && s' == s.(hub := s.hub.(rows := s'.hub.rows))
      && (if member && SlotOf(i) !in rows then s'.hub.rows == rows[SlotOf(i) := Entry(i.keys, Pending)] else s'.hub.rows == rows)
  {
  }

  lemma StepKeepsRows(env: Env, s: State, e: Event)
    requires Inv(env, s) && RowsInv(env, s.hub)
    ensures RowsInv(env, Step(env, s, e).hub)
  {
    match e
    case Announced(i, member) =>
      if s.hub.log != [] && Announce(s.hub.rows, i, member).Ok? { AnnounceKeepsRows(s.hub.rows, i, member, ToldBy(env, s.hub.log)); }
    case Commit(id, ok) =>
      if id in s.frames && s.frames[id].Committing? {
        assert FrameInv(env, s.hub, s.frames[id]);
        CommitKeepsRows(env, s.hub, s.frames[id].record, s.frames[id].snapshot, ok);
      }
    case _ =>
  }

  lemma {:induction false} RunKeepsRows(env: Env, s: State, events: seq<Event>)
    requires Inv(env, s) && RowsInv(env, s.hub)
    ensures RowsInv(env, Run(env, s, events).hub)
    decreases |events|
  {
    if events != [] {
      StepKeepsInv(env, s, events[0]);
      StepKeepsRows(env, s, events[0]);
      RunKeepsRows(env, Step(env, s, events[0]), events[1..]);
    }
  }

  // ---- undisturbed requests ----

  /** A mutation that nothing overtakes is committed if and only if its record is not stored yet, may follow
      the log, agrees with the announced rows, and the checks that are parameters pass. Nothing else of the
      relay changes but the rows. */
  lemma UndisturbedMutation(env: Env, s: State, id: Id, record: Record, ok: bool)
    requires Inv(env, s) && RowsInv(env, s.hub) && id !in s.frames
    ensures var s' := Step(env, Step(env, Step(env, Step(env, s, Submit(id, record)), SignatureChecked(id)), Replayed(id)), Commit(id, ok));
      && (if record !in s.hub.log && MayFollow(env, s.hub.log, record) && ok && RowsAgree(env, s.hub.rows, env.read(record.body))
          then s'.hub.log == s.hub.log + [record] else s'.hub == s.hub)
      && s'.hub.challenges == s.hub.challenges && s'.signatures == s.signatures
      && s'.frames - {id} == s.frames && (id in s'.frames ==> !env.signed(record))
  {
    var s1 := Step(env, s, Submit(id, record));
    var s2 := Step(env, s1, SignatureChecked(id));
    var s3 := Step(env, s2, Replayed(id));
    ApplyIsPolicy(env, s.hub.log, record);
    if id in s3.frames && s3.frames[id].Committing? {
      assert s3.frames[id] == Committing(record, s.hub.log);
      CommitsExactly(env, s.hub, record, s.hub.log, ok);
    }
  }

  /** The owner's endpoint, as the log tells it. */
  ghost predicate OwnersVerified(env: Env, log: Log, signer: Identity) {
    log != [] && signer.user == env.read(log[0].body).signer.user && Trusts(TrustOf(env, log), signer)
  }

  lemma OwnersVerifiedReplays(env: Env, log: Log, signer: Identity)
    requires Replay(env, log).Some?
    ensures OwnerEndpoint(Replay(env, log).value, signer) <==> OwnersVerified(env, log, signer)
  {
    ReplayReflects(env, log);
    TrustIsReplay(env, log);
    if log != [] { OwnerIsFirst(env, log); }
    assert Holds(Replay(env, log).value.endpoints, signer) <==> Trusts(TrustOf(env, log), signer);
  }

  lemma {:induction false} OwnerIsFirst(env: Env, log: Log)
    requires log != [] && Replay(env, log).Some?
    ensures Replay(env, log).value.owner == Some(env.read(log[0].body).signer)
  {
    var n := |log| - 1;
    ReplayIsChain(env, log[..n]);
    if n > 0 { OwnerIsFirst(env, log[..n]); }
  }

  /** A host's challenge is put up, for its time and without a proof, if and only if it is addressed to
      nobody in particular or to a verified endpoint of the owner. */
  lemma UndisturbedChallenge(env: Env, s: State, id: Id, runtime: Id, nonce: nat, addressed: Option<Identity>, now: nat)
    requires Inv(env, s) && id !in s.frames
    ensures var s' := Step(env, Step(env, s, ChallengeSubmitted(id, runtime, nonce, addressed, now)), ChallengeChecked(id, now));
      && s'.hub.log == s.hub.log && s'.hub.rows == s.hub.rows && s'.frames == s.frames
      && s'.hub.challenges == if addressed.None? || OwnersVerified(env, s.hub.log, addressed.value)
           then s.hub.challenges[runtime := Challenge(s.hub.serials, nonce, addressed, now + 60000, None)] else s.hub.challenges
  {
    if addressed.Some? { OwnersVerifiedReplays(env, s.hub.log, addressed.value); }
  }

  /** Whom a challenge is addressed to, or else the genesis. */
  function AskedOf(env: Env, h: Hub, runtime: Id): Identity
    requires runtime in h.challenges && h.log != []
  {
    if h.challenges[runtime].addressed.Some? then h.challenges[runtime].addressed.value else env.read(h.log[0].body).signer
  }

  /** The owner may answer for this signer. */
  ghost predicate Answerable(env: Env, h: Hub, runtime: Id, account: User, signer: Identity) {
    && runtime in h.challenges && h.log != [] && env.read(h.log[0].body).signer.user == account
    && signer == AskedOf(env, h, runtime) && OwnersVerified(env, h.log, signer)
  }

  /** An answer that nothing overtakes is published if and only if it comes from the owner's account, is for
      the nonce asked, in time, and was signed by the one asked, who is still verified. */
  lemma UndisturbedAnswer(env: Env, s: State, id: Id, runtime: Id, account: User, answer: Answer, signer: Identity, now: nat)
    requires Inv(env, s) && id !in s.frames && runtime in s.hub.challenges && s.hub.challenges[runtime].proof.None?
    requires s.hub.log != [] ==> signer == AskedOf(env, s.hub, runtime)
    ensures var s' := Step(env, Step(env, s, AnswerSubmitted(id, runtime, account, answer, now)), AnswerChecked(id, now));
      s'.hub == if Answerable(env, s.hub, runtime, account, signer) && answer.nonce == s.hub.challenges[runtime].nonce
                   && now < s.hub.challenges[runtime].expiresAt && Signature(signer, runtime, answer.nonce, answer.head) in s.signatures
                then s.hub.(challenges := s.hub.challenges[runtime := s.hub.challenges[runtime].(proof := Some(answer))]) else s.hub
    ensures Step(env, Step(env, s, AnswerSubmitted(id, runtime, account, answer, now)), AnswerChecked(id, now)).frames == s.frames
  {
    OwnersVerifiedReplays(env, s.hub.log, signer);
    ReplayIsChain(env, s.hub.log);
  }

  predicate RevokedAt(endpoints: Table, slot: Slot) { slot in endpoints && endpoints[slot].standing.Revoked? }

  lemma StaysRevoked(env: Env, m: Membership, r: Record, slot: Slot)
    requires Apply(env, m, r).Some? && RevokedAt(m.endpoints, slot) && m.height > 0
    ensures RevokedAt(Apply(env, m, r).value.endpoints, slot)
  {
  }

  /** Once an authenticated log has removed an endpoint, no valid continuation of it trusts that slot again. */
  lemma {:induction false} RevokedForever(env: Env, log: Log, more: Log, slot: Slot)
    requires Replay(env, log).Some? && Replay(env, log + more).Some?
    requires slot in Replay(env, log).value.endpoints && Replay(env, log).value.endpoints[slot].standing.Revoked?
    ensures slot in Replay(env, log + more).value.endpoints && Replay(env, log + more).value.endpoints[slot].standing.Revoked?
  {
    if more == [] {
      assert log + more == log;
    } else {
      var n := |more| - 1;
      var before := log + more[..n];
      assert (log + more)[..|log + more| - 1] == before;
      RevokedForever(env, log, more[..n], slot);
      ReplayIsChain(env, before);
      TrustIsReplay(env, before);
      StaysRevoked(env, Replay(env, before).value, (log + more)[|log + more| - 1], slot);
    }
  }

  /** Nor does the relay's table, once there is a log. */
  lemma RevokedRowStays(env: Env, s: State, e: Event, slot: Slot)
    requires Inv(env, s) && s.hub.log != [] && slot in s.hub.rows && s.hub.rows[slot].standing.Revoked?
    ensures var rows := Step(env, s, e).hub.rows; slot in rows && rows[slot] == s.hub.rows[slot]
  {
    if e.Commit? && e.id in s.frames && s.frames[e.id].Committing? {
      var f := s.frames[e.id];
      assert FrameInv(env, s.hub, f);
      if FloorOf(env.digest, s.hub.log) == FloorOf(env.digest, f.snapshot) {
        PrefixOfSameLength(f.snapshot, s.hub.log);
        ReplayIsChain(env, f.snapshot);
        assert !env.read(f.record.body).action.Bootstrap?;
      }
    }
  }

  /** A proof is published only while its challenge is the current, unexpired one, and only if its
      signer is a verified owner endpoint of the log as it stands at that instant, in replay and in the
      relay's own table, whatever was committed while the signature was being checked; and that signer did sign this
      answer for this challenge's nonce. */
  lemma PublishedProofIsLive(env: Env, rows: Table, events: seq<Event>, e: Event, runtime: Id)
    requires var s := Run(env, Opened(rows), events);
      && runtime in s.hub.challenges && runtime in Step(env, s, e).hub.challenges
      && Step(env, s, e).hub.challenges[runtime].serial == s.hub.challenges[runtime].serial
      && Step(env, s, e).hub.challenges[runtime].proof != s.hub.challenges[runtime].proof
    ensures var s := Run(env, Opened(rows), events);
      && e.AnswerChecked? && e.id in s.frames && s.frames[e.id].Answering?
      && var f := s.frames[e.id];
         && f.runtime == runtime && s.hub.challenges[runtime].serial == f.serial && e.now < s.hub.challenges[runtime].expiresAt
         && f.answer.nonce == s.hub.challenges[runtime].nonce
         && Replay(env, s.hub.log).Some? && OwnerEndpoint(Replay(env, s.hub.log).value, f.signer)
         && Holds(s.hub.rows, f.signer)
         && Step(env, s, e).hub.challenges[runtime].proof == Some(f.answer)
         && Signature(f.signer, runtime, s.hub.challenges[runtime].nonce, f.answer.head) in s.signatures
  {
    var s := Run(env, Opened(rows), events);
    RunKeepsInv(env, Opened(rows), events);
    var f := s.frames[e.id];
    assert FrameInv(env, s.hub, f);
    ReplayIsChain(env, f.snapshot);
    PrefixOfSameLength(f.snapshot, s.hub.log);
    var m := Replay(env, s.hub.log).value;
    assert SlotOf(f.signer) in VerifiedOf(m.endpoints);
    assert SlotOf(f.signer) in VerifiedOf(s.hub.rows) && VerifiedOf(s.hub.rows)[SlotOf(f.signer)] == f.signer.keys;
  }

  // ---- the relay object ----

  class Enrollment {
    const env: Env
    var log: Log
    var rows: Table
    var challenges: map<Id, Challenge>
    var serials: nat

    ghost function Fields(): Hub
      reads this
    {
      Hub(log, rows, challenges, serials)
    }

    /** The log replays, and the verified rows are what it says. */
    ghost predicate Valid()
      reads this
    {
      HubInv(env, Fields())
    }

    constructor (env: Env, rows: Table)
      ensures Valid() && Fields() == Opened(rows).hub && this.env == env
    {
      this.env, this.rows := env, rows;
      log, challenges, serials := [], map[], 0;
    }

    method AnnounceEndpoint(i: Identity, member: bool) returns (ok: bool)
      requires Valid()
      modifies this`rows
      ensures Valid() && Fields() == Step(env, State(old(Fields()), map[], {}), Announced(i, member)).hub
      ensures ok == Announce(old(rows), i, member).Ok?
    {
      AnnounceAddsNoTrust(rows, i, member);
      if !member { return false; }
      if SlotOf(i) in rows { return rows[SlotOf(i)].keys == i.keys; }
      rows := rows[SlotOf(i) := Entry(i.keys, Pending)];
      ok := true;
    }

    /** The transaction at the end of signedMutation. */
    method CommitMutation(record: Record, snapshot: Log, ok: bool) returns (committed: bool)
      requires Valid() && FrameInv(env, Fields(), Committing(record, snapshot))
      modifies this`rows, this`log
      ensures Valid() && Fields() == CommitTransaction(env, old(Fields()), record, snapshot, ok)
      ensures committed <==> |log| == |old(log)| + 1
    {
      CommitKeepsHubInv(env, Fields(), record, snapshot, ok);
      if FloorOf(env.digest, log) != FloorOf(env.digest, snapshot) { return false; }
      var next := Mutate(env, rows, env.read(record.body), ok);
      if next.Refused? { return false; }
      rows := next.value;
      log := log + [record];
      committed := true;
    }

    method PutChallenge(runtime: Id, nonce: nat, addressed: Option<Identity>, now: nat)
      requires Valid()
      modifies this`challenges, this`serials
      ensures Valid() && Fields() == Challenged(old(Fields()), runtime, nonce, addressed, now)
    {
      challenges := challenges[runtime := Challenge(serials, nonce, addressed, now + WINDOW, None)];
      serials := serials + 1;
    }

    /** After the replay of the snapshot; the signer it is addressed to must stand in it. */
    method PutAddressedChallenge(f: Frame, now: nat) returns (put: bool)
      requires Valid() && f.Challenging?
      modifies this`challenges, this`serials
      ensures Valid() && Fields() == Addressed(env, old(Fields()), f, now)
      ensures put <==> Replay(env, f.snapshot).Some? && OwnerEndpoint(Replay(env, f.snapshot).value, f.addressed)
    {
      var head := Replay(env, f.snapshot);
      if head.None? || !OwnerEndpoint(head.value, f.addressed) { return false; }
      PutChallenge(f.runtime, f.nonce, Some(f.addressed), now);
      put := true;
    }

    method AnswerChallenge(f: Frame, verified: bool, now: nat) returns (answered: bool)
      requires Valid() && f.Answering?
      modifies this`challenges
      ensures Valid() && Fields() == Publish(env, old(Fields()), f, verified, now)
      ensures answered ==> f.runtime in challenges && challenges[f.runtime].proof == Some(f.answer)
    {
      var head := Replay(env, f.snapshot);
      if !verified || head.None? || !OwnerEndpoint(head.value, f.signer) { return false; }
      if f.runtime !in challenges || challenges[f.runtime].serial != f.serial || f.expiresAt <= now { return false; }
      if FloorOf(env.digest, log) != Floor(head.value.height, head.value.hash) { return false; }
      challenges := challenges[f.runtime := challenges[f.runtime].(proof := Some(f.answer))];
      answered := true;
    }
  }
}
