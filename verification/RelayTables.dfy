/** The relay's content tables: packages/hub/encrypted-tasks.js, packages/hub/retention.js, the project
    grants of packages/hub/enrollment.js and the mailbox and recovery archives of
    packages/hub/key-exchange.js. Each SQL table is a map or a set keyed by its primary key, and each
    request handler or transaction is one atomic step. */
module RelayTables {
  import opened Wrappers

  type Team = nat
  type Project = nat
  type TaskId = nat
  type Account = nat // a person or an execution host
  type Scope = nat

  datatype Task = Task(team: Team, project: Project, runtime: Account, creator: Account, request: nat)

  /** A stored log record: its place, its event id, and the rest of its encoding. */
  datatype Record = Record(at: nat, event: nat, body: nat)

  datatype EventKey = EventKey(task: TaskId, at: nat)

  datatype GrantKey = GrantKey(team: Team, project: Project, user: Account)

  datatype Grant = Grant(owner: bool, live: bool)

  datatype Tomb = TaskTomb(team: Team, task: TaskId) | ProjectTomb(team: Team, project: Project)

  datatype Mail = Mail(to: Account, device: nat, envelope: nat, task: Option<TaskId>)

  datatype Archive = Archive(user: Account, scope: Scope)

  datatype Indexed = Indexed(archive: Archive, task: TaskId)

  datatype Db = Db(tasks: map<TaskId, Task>, events: map<EventKey, Record>, grants: map<GrantKey, Grant>, tombs: set<Tomb>,
                   mail: map<nat, Mail>, nextMail: nat, archives: map<Archive, nat>, index: set<Indexed>, retired: set<Archive>)

  datatype Snapshot = Snapshot(tasks: map<TaskId, Task>, events: map<EventKey, Record>)

  datatype Result = Ok(db: Db) | Refused

  // ---- lookups ----

  predicate Deleted(tombs: set<Tomb>, team: Team, project: Project, task: TaskId) {
    ProjectTomb(team, project) in tombs || TaskTomb(team, task) in tombs
  }

  /** A project is deleted as a whole; an empty task id matches no tombstone. */
  predicate ProjectDeleted(tombs: set<Tomb>, team: Team, project: Project) { ProjectTomb(team, project) in tombs }

  predicate LiveIn(grants: map<GrantKey, Grant>, team: Team, project: Project, user: Account) {
    var k := GrantKey(team, project, user);
    k in grants && grants[k].live
  }

  predicate LiveGrant(db: Db, team: Team, project: Project, user: Account) { LiveIn(db.grants, team, project, user) }

  predicate Participant(db: Db, team: Team, project: Project, user: Account) {
    !ProjectDeleted(db.tombs, team, project) && LiveGrant(db, team, project, user)
  }

  /** n is one more than the largest stored place of the task's log. */
  predicate IsNext(events: map<EventKey, Record>, task: TaskId, n: nat) {
    && n >= 1 && (n == 1 || EventKey(task, n - 1) in events)
    && (forall k :: k in events && k.task == task ==> k.at < n)
  }

  // ---- requests ----

  function OwnProject(db: Db, team: Team, project: Project, user: Account): Result {
    if ProjectDeleted(db.tombs, team, project) then Refused
    else if LiveGrant(db, team, project, user) then Ok(db)
    else Ok(db.(grants := db.grants[GrantKey(team, project, user) := Grant(true, true)]))
  }

  /** `ok` stands for the membership, pairing and protocol checks against tables not modelled here. */
  function Create(db: Db, id: TaskId, task: Task, ok: bool): Result {
    if !ok || Deleted(db.tombs, task.team, task.project, id) then Refused
    else if id in db.tasks then (if db.tasks[id] == task then Ok(db) else Refused)
    else OwnProject(db.(tasks := db.tasks[id := task]), task.team, task.project, task.creator)
  }

  function Append(db: Db, id: TaskId, record: Record, valid: bool): Result {
    if id !in db.tasks || Deleted(db.tombs, db.tasks[id].team, db.tasks[id].project, id) || !valid then Refused
    else if exists k :: k in db.events && k.task == id && db.events[k].event == record.event then
      (if exists k :: k in db.events && k.task == id && db.events[k] == record then Ok(db) else Refused)
    else if !IsNext(db.events, id, record.at) then Refused
    else Ok(db.(events := db.events[EventKey(id, record.at) := record]))
  }

  function GrantAccess(db: Db, team: Team, project: Project, granter: Account, user: Account, owner: bool, ok: bool): Result {
    if !Participant(db, team, project, granter) || !ok then Refused
    else Ok(db.(grants := db.grants[GrantKey(team, project, user) := Grant(owner, true)]))
  }

  function RevokeAccess(db: Db, team: Team, project: Project, actor: Account, user: Account): Result {
    var k := GrantKey(team, project, user);
    if k !in db.grants || !Participant(db, team, project, actor) || (db.grants[k].owner && actor != user) then Refused
    else Ok(db.(grants := db.grants[k := db.grants[k].(live := false)]))
  }

  /** Owner recovery revokes every live grant of the team. */
  function ResetGrants(db: Db, team: Team): Db {
    db.(grants := map k | k in db.grants :: if k.team == team then db.grants[k].(live := false) else db.grants[k])
  }

  /** `sender` is the account delivering, or None for a paired execution host. */
  function Deliver(db: Db, sender: Option<Account>, mail: Mail, ok: bool): Result {
    if !ok then Refused
    else if mail.task.Some? && (mail.task.value !in db.tasks ||
              (sender.Some? && !LiveGrant(db, db.tasks[mail.task.value].team, db.tasks[mail.task.value].project, sender.value))) then Refused
    else Ok(db.(mail := db.mail[db.nextMail := mail], nextMail := db.nextMail + 1))
  }

  function Drain(db: Db, user: Account, device: nat): Db {
    db.(mail := map n | n in db.mail && !(db.mail[n].to == user && db.mail[n].device == device) :: db.mail[n])
  }

  predicate MayIndex(db: Db, user: Account, task: TaskId) {
    task in db.tasks && LiveGrant(db, db.tasks[task].team, db.tasks[task].project, user)
  }

  function PutRecovery(db: Db, archive: Archive, blob: nat, tasks: set<TaskId>, ok: bool): Result {
    if !ok || archive in db.retired || (exists t :: t in tasks && !MayIndex(db, archive.user, t)) then Refused
    else Ok(db.(archives := db.archives[archive := blob],
                index := (set x | x in db.index && x.archive != archive) + (set t | t in tasks :: Indexed(archive, t))))
  }

  // ---- deletion ----

  datatype Deletion = DeleteTask(team: Team, project: Project, task: TaskId, runtime: Account)
                    | DeleteProject(team: Team, project: Project, listed: map<TaskId, Account>)

  function TombOf(d: Deletion): Tomb { if d.DeleteTask? then TaskTomb(d.team, d.task) else ProjectTomb(d.team, d.project) }

  function Doomed(db: Db, d: Deletion): set<TaskId> {
    set id | id in db.tasks && db.tasks[id].team == d.team && db.tasks[id].project == d.project && (d.DeleteProject? || id == d.task)
  }

  predicate MayDelete(db: Db, d: Deletion) {
    && TombOf(d) !in db.tombs
    && (d.DeleteTask? ==> d.task in Doomed(db, d) && db.tasks[d.task].runtime == d.runtime)
    && (d.DeleteProject? ==>
          && (exists k :: k in db.grants && k.team == d.team && k.project == d.project)
          && d.listed == map id | id in Doomed(db, d) :: db.tasks[id].runtime)
  }

  function RemoveArchives(db: Db, gone: set<Archive>): Db {
    db.(retired := db.retired + gone, archives := db.archives - gone, index := set x | x in db.index && x.archive !in gone)
  }

  function EventsWithout(events: map<EventKey, Record>, ids: set<TaskId>): map<EventKey, Record> {
    map k | k in events && k.task !in ids :: events[k]
  }

  function MailWithout(mail: map<nat, Mail>, ids: set<TaskId>): map<nat, Mail> {
    map n | n in mail && !(mail[n].task.Some? && mail[n].task.value in ids) :: mail[n]
  }

  function Indexing(index: set<Indexed>, ids: set<TaskId>): set<Archive> { set x | x in index && x.task in ids :: x.archive }

  /** The tasks' rows, their events, every archive that indexes one of them, and their tagged mail. */
  function RemoveTasks(db: Db, ids: set<TaskId>): Db {
    RemoveArchives(db, Indexing(db.index, ids))
      .(tasks := db.tasks - ids, events := EventsWithout(db.events, ids), mail := MailWithout(db.mail, ids))
  }

  /** Everyone whose untagged mail and unindexed archives may hold what is being deleted. */
  function Affected(db: Db, d: Deletion): set<Account> {
    (set k | k in db.grants && k.team == d.team && k.project == d.project :: k.user) + (set id | id in Doomed(db, d) :: db.tasks[id].runtime)
  }

  function Unindexed(db: Db, users: set<Account>): set<Archive> {
    set a | a in db.archives && a.user in users && (forall x :: x in db.index ==> x.archive != a)
  }

  function RemoveLegacy(db: Db, users: set<Account>): Db {
    RemoveArchives(db, Unindexed(db, users))
      .(mail := map n | n in db.mail && !(db.mail[n].task.None? && db.mail[n].to in users) :: db.mail[n])
  }

  function Delete(db: Db, d: Deletion): Result {
    if !MayDelete(db, d) then Refused
    else
      var cleared := RemoveLegacy(RemoveTasks(db, Doomed(db, d)), Affected(db, d));
      Ok(cleared.(tombs := db.tombs + {TombOf(d)},
                  grants := if d.DeleteTask? then db.grants
                            else map k | k in db.grants :: if k.team == d.team && k.project == d.project then db.grants[k].(live := false) else db.grants[k]))
  }

  // ---- snapshot and restore ----

  function SnapshotOf(db: Db): Snapshot { Snapshot(db.tasks, db.events) }

  /** `known` are the tasks whose runtime pairing and creator membership are still current. */
  function Restorable(db: Db, snap: Snapshot, known: set<TaskId>): set<TaskId> {
    set id | id in snap.tasks && id in known && id !in db.tasks && !Deleted(db.tombs, snap.tasks[id].team, snap.tasks[id].project, id)
             && LiveGrant(db, snap.tasks[id].team, snap.tasks[id].project, snap.tasks[id].creator)
  }

  /** A leftover row in the way of a restored one makes the whole transaction roll back. */
  predicate Conflicts(db: Db, snap: Snapshot, ids: set<TaskId>) {
    exists k, j :: k in db.events && j in snap.events && k.task == j.task && k.task in ids
                   && (k.at == j.at || db.events[k].event == snap.events[j].event)
  }

  function TasksIn(snap: Snapshot, ids: set<TaskId>): map<TaskId, Task> { map id | id in snap.tasks && id in ids :: snap.tasks[id] }

  function EventsIn(snap: Snapshot, ids: set<TaskId>): map<EventKey, Record> { map k | k in snap.events && k.task in ids :: snap.events[k] }

  function RestoreTasks(db: Db, snap: Snapshot, ids: set<TaskId>): Db {
    db.(tasks := db.tasks + TasksIn(snap, ids), events := db.events + EventsIn(snap, ids))
  }

  function Restore(db: Db, snap: Snapshot, known: set<TaskId>): Result {
    var ids := Restorable(db, snap, known);
    if Conflicts(db, snap, ids) then Refused else Ok(RestoreTasks(db, snap, ids))
  }

  /** Losing content: everything held about the tasks that are not kept. */
  function Lose(db: Db, kept: set<TaskId>): Db {
    db.(tasks := map id | id in db.tasks && id in kept :: db.tasks[id],
        events := map k | k in db.events && k.task in kept :: db.events[k],
        mail := map n | n in db.mail && (db.mail[n].task.Some? ==> db.mail[n].task.value in kept) :: db.mail[n],
        index := set x | x in db.index && x.task in kept)
  }

  // ---- runs ----

  datatype State = State(db: Db, backups: set<Snapshot>)

  datatype Request =
    | DoCreate(id: TaskId, task: Task, ok: bool)
    | DoAppend(id: TaskId, record: Record, valid: bool)
    | DoOwn(team: Team, project: Project, user: Account)
    | DoGrant(team: Team, project: Project, granter: Account, user: Account, owner: bool, ok: bool)
    | DoRevoke(team: Team, project: Project, actor: Account, user: Account)
    | DoReset(team: Team)
    | DoDeliver(sender: Option<Account>, mail: Mail, ok: bool)
    | DoDrain(user: Account, device: nat)
    | DoPutRecovery(archive: Archive, blob: nat, tasks: set<TaskId>, ok: bool)
    | DoDelete(deletion: Deletion)
    | DoSnapshot
    | DoRestore(snapshot: Snapshot, known: set<TaskId>)
    | DoLose(kept: set<TaskId>)

  function Outcome(db: Db, r: Request): Result {
    match r
    case DoCreate(id, task, ok) => Create(db, id, task, ok)
    case DoAppend(id, record, valid) => Append(db, id, record, valid)
    case DoOwn(team, project, user) => OwnProject(db, team, project, user)
    case DoGrant(team, project, granter, user, owner, ok) => GrantAccess(db, team, project, granter, user, owner, ok)
    case DoRevoke(team, project, actor, user) => RevokeAccess(db, team, project, actor, user)
    case DoReset(team) => Ok(ResetGrants(db, team))
    case DoDeliver(sender, mail, ok) => Deliver(db, sender, mail, ok)
    case DoDrain(user, device) => Ok(Drain(db, user, device))
    case DoPutRecovery(archive, blob, tasks, ok) => PutRecovery(db, archive, blob, tasks, ok)
    case DoDelete(d) => Delete(db, d)
    case DoSnapshot => Ok(db)
    case DoRestore(snapshot, known) => Restore(db, snapshot, known)
    case DoLose(kept) => Ok(Lose(db, kept))
  }

  /** A refused request changes nothing; only snapshots taken here are ever restored. */
  function Step(s: State, r: Request): State {
    if r.DoRestore? && r.snapshot !in s.backups then s
    else
      var o := Outcome(s.db, r);
      if o.Refused? then s
      else State(o.db, if r.DoSnapshot? then s.backups + {SnapshotOf(s.db)} else s.backups)
  }

  function Run(s: State, rs: seq<Request>): State
    decreases |rs|
  {
    if rs == [] then s else Run(Step(s, rs[0]), rs[1..])
  }

  const EMPTY: State := State(Db(map[], map[], map[], {}, map[], 0, map[], {}, {}), {})

  // ---- the invariant ----

  /** Every log is places 1..n without gaps, each record at its own place, under distinct event ids, and
      belongs to a stored task. */
  ghost predicate LogsOk(tasks: map<TaskId, Task>, events: map<EventKey, Record>) {
    && (forall k :: k in events ==> k.task in tasks && k.at >= 1 && events[k].at == k.at)
    && (forall k, m: nat :: k in events && 1 <= m < k.at ==> EventKey(k.task, m) in events)
    && (forall k, j :: k in events && j in events && k.task == j.task && events[k].event == events[j].event ==> k == j)
  }

  ghost predicate NothingDeleted(db: Db) {
    && (forall id :: id in db.tasks ==> !Deleted(db.tombs, db.tasks[id].team, db.tasks[id].project, id))
    && (forall k :: k in db.grants && ProjectDeleted(db.tombs, k.team, k.project) ==> !db.grants[k].live)
  }

  ghost predicate HeldForTasks(db: Db) {
    && (forall n :: n in db.mail && db.mail[n].task.Some? ==> db.mail[n].task.value in db.tasks)
    && (forall x :: x in db.index ==> x.task in db.tasks && x.archive in db.archives)
    && (forall a :: a in db.retired ==> a !in db.archives)
    && (forall n :: n in db.mail ==> n < db.nextMail)
  }

  ghost predicate Inv(s: State) {
    && LogsOk(s.db.tasks, s.db.events) && NothingDeleted(s.db) && HeldForTasks(s.db)
    && (forall b :: b in s.backups ==> LogsOk(b.tasks, b.events))
  }

  lemma AppendKeepsLogs(db: Db, id: TaskId, record: Record, valid: bool)
    requires LogsOk(db.tasks, db.events) && Append(db, id, record, valid).Ok?
    ensures var db' := Append(db, id, record, valid).db; LogsOk(db'.tasks, db'.events)
  {
    var db' := Append(db, id, record, valid).db;
    if db' != db {
      var added := EventKey(id, record.at);
      forall k, m: nat | k in db'.events && 1 <= m < k.at ensures EventKey(k.task, m) in db'.events {
        if k == added && m < record.at - 1 { assert EventKey(id, record.at - 1) in db.events; }
      }
    }
  }

  lemma RestoreKeepsInv(db: Db, snap: Snapshot, known: set<TaskId>)
    requires LogsOk(db.tasks, db.events) && NothingDeleted(db) && HeldForTasks(db) && LogsOk(snap.tasks, snap.events)
    requires Restore(db, snap, known).Ok?
    ensures var db' := Restore(db, snap, known).db; LogsOk(db'.tasks, db'.events) && NothingDeleted(db') && HeldForTasks(db')
  {
    var db' := Restore(db, snap, known).db;
    var ids := Restorable(db, snap, known);
    forall k | k in db'.events ensures if k.task in ids then k in snap.events && db'.events[k] == snap.events[k]
                                       else k in db.events && db'.events[k] == db.events[k] {}
    forall k, m: nat | k in db'.events && 1 <= m < k.at ensures EventKey(k.task, m) in db'.events {
      if k.task in ids { assert EventKey(k.task, m) in snap.events; } else { assert EventKey(k.task, m) in db.events; }
    }
  }

  lemma RemovalsKeepLogs(db: Db, ids: set<TaskId>)
    requires LogsOk(db.tasks, db.events)
    ensures var db' := RemoveTasks(db, ids); LogsOk(db'.tasks, db'.events)
  {
    var db' := RemoveTasks(db, ids);
    forall k, m: nat | k in db'.events && 1 <= m < k.at ensures EventKey(k.task, m) in db'.events {
      assert EventKey(k.task, m) in db.events;
    }
  }

  lemma DeleteKeepsInv(db: Db, d: Deletion)
    requires LogsOk(db.tasks, db.events) && NothingDeleted(db) && HeldForTasks(db) && Delete(db, d).Ok?
    ensures var db' := Delete(db, d).db; LogsOk(db'.tasks, db'.events) && NothingDeleted(db') && HeldForTasks(db')
  {
    var ids := Doomed(db, d);
    RemovalsKeepLogs(db, ids);
    var db1 := RemoveTasks(db, ids);
    assert HeldForTasks(db1) by { RemoveTasksHeld(db, ids); }
    assert HeldForTasks(RemoveLegacy(db1, Affected(db, d)));
  }

  lemma RemoveTasksHeld(db: Db, ids: set<TaskId>)
    requires HeldForTasks(db)
    ensures HeldForTasks(RemoveTasks(db, ids))
  {
    var db' := RemoveTasks(db, ids);
    forall x | x in db'.index ensures x.task in db'.tasks && x.archive in db'.archives {
      assert x in db.index;
    }
  }

  lemma LoseKeepsInv(db: Db, kept: set<TaskId>)
    requires LogsOk(db.tasks, db.events) && NothingDeleted(db) && HeldForTasks(db)
    ensures var db' := Lose(db, kept); LogsOk(db'.tasks, db'.events) && NothingDeleted(db') && HeldForTasks(db')
  {
    var db' := Lose(db, kept);
    forall k, m: nat | k in db'.events && 1 <= m < k.at ensures EventKey(k.task, m) in db'.events {
      assert EventKey(k.task, m) in db.events;
    }
  }

  lemma StepKeepsInv(s: State, r: Request)
    requires Inv(s)
    ensures Inv(Step(s, r))
  {
    if Step(s, r) != s {
      match r
      case DoAppend(id, record, valid) => AppendKeepsLogs(s.db, id, record, valid);
      case DoDelete(d) => DeleteKeepsInv(s.db, d);
      case DoRestore(snapshot, known) => RestoreKeepsInv(s.db, snapshot, known);
      case DoLose(kept) => LoseKeepsInv(s.db, kept);
      case _ =>
    }
  }

  lemma {:induction false} RunKeepsInv(s: State, rs: seq<Request>)
    requires Inv(s)
    ensures Inv(Run(s, rs))
    decreases |rs|
  {
    if rs != [] {
      StepKeepsInv(s, rs[0]);
      RunKeepsInv(Step(s, rs[0]), rs[1..]);
    }
  }

  // ---- deletion is permanent ----

  lemma TombsGrow(s: State, r: Request)
    ensures s.db.tombs <= Step(s, r).db.tombs && s.db.retired <= Step(s, r).db.retired
  {
  }

  lemma {:induction false} TombsStay(s: State, rs: seq<Request>)
    ensures s.db.tombs <= Run(s, rs).db.tombs && s.db.retired <= Run(s, rs).db.retired
    decreases |rs|
  {
    if rs != [] {
      TombsGrow(s, rs[0]);
      TombsStay(Step(s, rs[0]), rs[1..]);
    }
  }

  /** Nothing is held for a task that has no row. */
  ghost predicate NothingHeld(db: Db, task: TaskId) {
    && (forall k :: k in db.events ==> k.task != task)
    && (forall n :: n in db.mail ==> db.mail[n].task != Some(task))
    && (forall x :: x in db.index ==> x.task != task)
  }

  /** Over every run of requests, with snapshots, restores and losses: once a task is deleted from a
      team, that team never has a row for it again, and while no team has one nothing is held for it;
      a deleted project never again has a task row or a live grant. */
  lemma DeletionIsPermanent(before: seq<Request>, after: seq<Request>, team: Team, project: Project, task: TaskId)
    ensures var tombs := Run(EMPTY, before).db.tombs;
      var db := Run(Run(EMPTY, before), after).db;
      && (TaskTomb(team, task) in tombs ==> !(task in db.tasks && db.tasks[task].team == team))
      && (task !in db.tasks ==> NothingHeld(db, task))
      && (ProjectTomb(team, project) in tombs ==>
            && (forall id :: id in db.tasks ==> !(db.tasks[id].team == team && db.tasks[id].project == project))
            && (forall user :: !LiveGrant(db, team, project, user)))
  {
    RunKeepsInv(EMPTY, before);
    TombsStay(Run(EMPTY, before), after);
    RunKeepsInv(Run(EMPTY, before), after);
  }

  /** A retired archive scope is never stored again. */
  lemma RetiredIsPermanent(before: seq<Request>, after: seq<Request>, archive: Archive)
    requires archive in Run(EMPTY, before).db.retired
    ensures archive !in Run(Run(EMPTY, before), after).db.archives
    ensures forall x :: x in Run(Run(EMPTY, before), after).db.index ==> x.archive != archive
  {
    RunKeepsInv(EMPTY, before);
    TombsStay(Run(EMPTY, before), after);
    RunKeepsInv(Run(EMPTY, before), after);
  }

  /** A deletion that is accepted leaves nothing of what it names, and takes every archive that indexed
      it out of circulation. */
  lemma DeletionRemoves(s: State, d: Deletion)
    requires Inv(s) && Delete(s.db, d).Ok?
    ensures var db := Delete(s.db, d).db; forall id :: Names(s.db, d, id) ==>
      id !in db.tasks && NothingHeld(db, id) && (forall x :: x in s.db.index && x.task == id ==> x.archive in db.retired && x.archive !in db.archives)
  {
    DeleteKeepsInv(s.db, d);
    forall id ensures id in Doomed(s.db, d) <==> Names(s.db, d, id) { DoomedIsNamed(s.db, d, id); }
  }

  // ---- what a deletion takes, and what it leaves ----

  /** The request names this task: it is of that team and project, and of that id if only one is to go. */
  ghost predicate Names(db: Db, d: Deletion, id: TaskId) {
    && id in db.tasks && db.tasks[id].team == d.team && db.tasks[id].project == d.project
    && match d { case DeleteTask(_, _, task, _) => id == task case DeleteProject(_, _, _) => true }
  }

  /** Whoever was ever given access to the project, and the hosts that ran what is going. */
  ghost predicate Touches(db: Db, d: Deletion, user: Account) {
    GrantKey(d.team, d.project, user) in db.grants || exists id :: Names(db, d, id) && db.tasks[id].runtime == user
  }

  /** The archive lists a task that is going, or lists nothing and belongs to someone touched. */
  ghost predicate Retires(db: Db, d: Deletion, a: Archive) {
    || (exists id :: Indexed(a, id) in db.index && Names(db, d, id))
    || (a in db.archives && Touches(db, d, a.user) && forall id :: Indexed(a, id) !in db.index)
  }

  ghost predicate RowsTaken(db: Db, d: Deletion, db': Db) {
    && (forall id :: id in db'.tasks <==> id in db.tasks && !Names(db, d, id))
    && (forall id :: id in db'.tasks ==> db'.tasks[id] == db.tasks[id])
    && (forall k :: k in db'.events <==> k in db.events && !Names(db, d, k.task))
    && (forall k :: k in db'.events ==> db'.events[k] == db.events[k])
  }

  ghost predicate MailTaken(db: Db, d: Deletion, db': Db) {
    && (forall n :: n in db'.mail ==> n in db.mail && db'.mail[n] == db.mail[n])
    && (forall n :: n in db.mail ==>
          (n !in db'.mail <==> if db.mail[n].task.Some? then Names(db, d, db.mail[n].task.value) else Touches(db, d, db.mail[n].to)))
    && db'.nextMail == db.nextMail
  }

  ghost predicate ArchivesTaken(db: Db, d: Deletion, db': Db) {
    && (forall a :: a in db'.archives <==> a in db.archives && !Retires(db, d, a))
    && (forall a :: a in db'.archives ==> db'.archives[a] == db.archives[a])
    && (forall a :: a in db'.retired <==> a in db.retired || Retires(db, d, a))
    && (forall x :: x in db'.index <==> x in db.index && !Retires(db, d, x.archive))
  }

  ghost predicate GrantsTaken(db: Db, d: Deletion, db': Db) {
    && (forall k :: k in db'.grants <==> k in db.grants)
    && (forall k :: k in db.grants ==>
          db'.grants[k] == Grant(db.grants[k].owner, db.grants[k].live && !(d.DeleteProject? && k.team == d.team && k.project == d.project)))
  }

  lemma DoomedIsNamed(db: Db, d: Deletion, id: TaskId)
    ensures id in Doomed(db, d) <==> Names(db, d, id)
  {
  }

  lemma AffectedIsTouched(db: Db, d: Deletion, user: Account)
    ensures user in Affected(db, d) <==> Touches(db, d, user)
  {
    forall id ensures id in Doomed(db, d) <==> Names(db, d, id) { DoomedIsNamed(db, d, id); }
    if GrantKey(d.team, d.project, user) in db.grants { assert GrantKey(d.team, d.project, user).user == user; }
  }

  lemma ArchivesGoing(db: Db, d: Deletion, a: Archive)
    requires HeldForTasks(db)
    ensures var mid := RemoveTasks(db, Doomed(db, d));
      a in Indexing(db.index, Doomed(db, d)) || a in Unindexed(mid, Affected(db, d)) <==> Retires(db, d, a)
  {
    var mid := RemoveTasks(db, Doomed(db, d));
    forall id ensures id in Doomed(db, d) <==> Names(db, d, id) { DoomedIsNamed(db, d, id); }
    AffectedIsTouched(db, d, a.user);
    if a in Indexing(db.index, Doomed(db, d)) {
      var x :| x in db.index && x.task in Doomed(db, d) && x.archive == a;
      assert x == Indexed(a, x.task);
    } else {
      forall x | x in db.index && x.archive == a ensures x in mid.index {}
      forall id | Indexed(a, id) in db.index ensures !Names(db, d, id) { assert Indexed(a, id).archive == a; }
      if forall id :: Indexed(a, id) !in db.index {
        forall x | x in mid.index ensures x.archive != a { assert x == Indexed(x.archive, x.task); }
      }
    }
  }

  lemma RowsAreTaken(db: Db, d: Deletion)
    requires Delete(db, d).Ok?
    ensures RowsTaken(db, d, Delete(db, d).db)
  {
    forall id ensures id in Doomed(db, d) <==> Names(db, d, id) { DoomedIsNamed(db, d, id); }
  }

  lemma MailIsTaken(db: Db, d: Deletion)
    requires Delete(db, d).Ok?
    ensures MailTaken(db, d, Delete(db, d).db)
  {
    forall id ensures id in Doomed(db, d) <==> Names(db, d, id) { DoomedIsNamed(db, d, id); }
    forall user ensures user in Affected(db, d) <==> Touches(db, d, user) { AffectedIsTouched(db, d, user); }
  }

  lemma ArchivesAreTaken(db: Db, d: Deletion)
    requires HeldForTasks(db) && Delete(db, d).Ok?
    ensures ArchivesTaken(db, d, Delete(db, d).db)
  {
    forall a ensures a in Indexing(db.index, Doomed(db, d)) || a in Unindexed(RemoveTasks(db, Doomed(db, d)), Affected(db, d)) <==> Retires(db, d, a) {
      ArchivesGoing(db, d, a);
    }
  }

  /** A deletion is accepted exactly once, and only if it names what is there: the task with its project and
      host, or a project someone was given access to, with exactly its tasks and their hosts. */
  lemma DeletesExactly(db: Db, d: Deletion)
    ensures Delete(db, d).Ok? <==>
      match d
      case DeleteTask(team, project, task, runtime) =>
        TaskTomb(team, task) !in db.tombs && task in db.tasks
        && (db.tasks[task].team, db.tasks[task].project, db.tasks[task].runtime) == (team, project, runtime)
      case DeleteProject(team, project, listed) =>
        ProjectTomb(team, project) !in db.tombs && (exists user :: GrantKey(team, project, user) in db.grants)
        && (forall id :: id in listed <==> id in db.tasks && db.tasks[id].team == team && db.tasks[id].project == project)
        && (forall id :: id in listed ==> listed[id] == db.tasks[id].runtime)
  {
    forall id ensures id in Doomed(db, d) <==> Names(db, d, id) { DoomedIsNamed(db, d, id); }
    forall k | k in db.grants && k.team == d.team && k.project == d.project ensures k == GrantKey(d.team, d.project, k.user) {}
    if d.DeleteProject? {
      var there := map id | id in Doomed(db, d) :: db.tasks[id].runtime;
      assert d.listed == there <==> d.listed.Keys == there.Keys && forall id :: id in d.listed ==> d.listed[id] == there[id];
      assert (exists user :: GrantKey(d.team, d.project, user) in db.grants) ==> exists k :: k in db.grants && k.team == d.team && k.project == d.project;
    }
  }

  /** And then it takes exactly what it names: those tasks' rows, logs and tagged mail, the archives that list
      one of them, and, of everyone touched, the mail and archives that say nothing of their tasks. Every other
      row, log, letter and archive is as it was. A task leaves every grant as it was; a project ends its own. */
  lemma DeletionTakesExactly(s: State, d: Deletion)
    requires Inv(s) && Delete(s.db, d).Ok?
    ensures var db := Delete(s.db, d).db;
      && RowsTaken(s.db, d, db) && MailTaken(s.db, d, db) && ArchivesTaken(s.db, d, db) && GrantsTaken(s.db, d, db)
      && db.tombs == s.db.tombs + {if d.DeleteTask? then TaskTomb(d.team, d.task) else ProjectTomb(d.team, d.project)}
  {
    RowsAreTaken(s.db, d);
    MailIsTaken(s.db, d);
    ArchivesAreTaken(s.db, d);
  }

  /** So deleting one task changes nothing of any other. */
  lemma OtherTasksAreLeft(s: State, d: Deletion, other: TaskId)
    requires Inv(s) && d.DeleteTask? && Delete(s.db, d).Ok? && other in s.db.tasks && other != d.task
    ensures var db := Delete(s.db, d).db;
      && other in db.tasks && db.tasks[other] == s.db.tasks[other] && db.grants == s.db.grants
      && (forall at :: EventKey(other, at) in s.db.events <==> EventKey(other, at) in db.events)
      && (forall at :: EventKey(other, at) in db.events ==> db.events[EventKey(other, at)] == s.db.events[EventKey(other, at)])
      && (forall n :: n in s.db.mail && s.db.mail[n].task == Some(other) ==> n in db.mail && db.mail[n] == s.db.mail[n])
  {
    DeletionTakesExactly(s, d);
    assert !Names(s.db, d, other);
  }

  // ---- what each request may change ----

  /** The request gives this person access: their own new project or task, or someone with access grants it. */
  ghost predicate Gives(db: Db, r: Request, k: GrantKey) {
    && ProjectTomb(k.team, k.project) !in db.tombs
    && match r
       case DoOwn(team, project, user) => k == GrantKey(team, project, user)
       case DoCreate(id, task, ok) => ok && TaskTomb(task.team, id) !in db.tombs && id !in db.tasks && k == GrantKey(task.team, task.project, task.creator)
       case DoGrant(team, project, granter, user, _, ok) =>
         var g := GrantKey(team, project, granter);
         ok && k == GrantKey(team, project, user) && g in db.grants && db.grants[g].live
       case _ => false
  }

  /** The request ends it: someone with access revokes it, an owner's only the owner; owner recovery; or the
      deletion of the project. */
  ghost predicate Ends(db: Db, r: Request, k: GrantKey) {
    match r
    case DoRevoke(team, project, actor, user) =>
      var a := GrantKey(team, project, actor);
      k == GrantKey(team, project, user) && k in db.grants && a in db.grants && db.grants[a].live && (db.grants[k].owner ==> actor == user)
    case DoReset(team) => k.team == team
    case DoDelete(d) => d.DeleteProject? && k.team == d.team && k.project == d.project && Delete(db, d).Ok?
    case _ => false
  }

  predicate HasAccess(grants: map<GrantKey, Grant>, k: GrantKey) { k in grants && grants[k].live }

  /** Access is gained by exactly these requests. */
  lemma AccessIsGiven(s: State, r: Request, k: GrantKey)
    requires Inv(s) && !HasAccess(s.db.grants, k)
    ensures HasAccess(Step(s, r).db.grants, k) <==> Gives(s.db, r, k)
    ensures HasAccess(Step(s, r).db.grants, k) ==> Step(s, r).db.grants[k].owner == (r.DoGrant? ==> r.owner)
  {
  }

  /** And lost by exactly these; a new grant to someone who has it may change what it is. */
  lemma AccessIsEnded(s: State, r: Request, k: GrantKey)
    requires Inv(s) && HasAccess(s.db.grants, k)
    ensures !HasAccess(Step(s, r).db.grants, k) <==> Ends(s.db, r, k)
    ensures HasAccess(Step(s, r).db.grants, k) ==>
      Step(s, r).db.grants[k].owner == (if r.DoGrant? && Gives(s.db, r, k) then r.owner else s.db.grants[k].owner)
  {
  }

  /** A task is created, or was already, exactly as asked; one under its id that differs is refused. */
  lemma CreatesExactly(s: State, id: TaskId, task: Task, ok: bool)
    requires Inv(s)
    ensures var o := Create(s.db, id, task, ok);
      && (o.Ok? <==> ok && TaskTomb(task.team, id) !in s.db.tombs && ProjectTomb(task.team, task.project) !in s.db.tombs
                     && (id in s.db.tasks ==> s.db.tasks[id] == task))
      && (o.Ok? ==> id in o.db.tasks && o.db.tasks[id] == task && (id in s.db.tasks ==> o.db == s.db))
  {
  }

  /** An event is accepted exactly if it is the next of a task that is there, under an id of its own, or is
      already stored as it is. */
  lemma AppendsExactly(s: State, id: TaskId, record: Record, valid: bool, log: seq<Record>)
    requires Inv(s) && IsLog(s.db.events, id, log)
    ensures Append(s.db, id, record, valid).Ok? <==>
      valid && id in s.db.tasks && (record in log || (record.at == |log| + 1 && forall n :: 0 <= n < |log| ==> log[n].event != record.event))
  {
    NextIsLength(s.db.events, id, log, record.at);
    KnowsRow(s.db.events, id, log, record.event);
    if record in log {
      var n :| 0 <= n < |log| && log[n] == record;
      assert EventKey(id, n + 1) in s.db.events && s.db.events[EventKey(id, n + 1)] == record;
    }
    if exists k :: k in s.db.events && k.task == id && s.db.events[k] == record {
      var k :| k in s.db.events && k.task == id && s.db.events[k] == record;
      assert EventKey(id, k.at) == k && log[k.at - 1] == record;
    }
  }

  /** A task that comes back: nothing has deleted it, it is not there, it was known when asked, and its
      creator still has access. */
  ghost predicate ComesBack(db: Db, snap: Snapshot, known: set<TaskId>, id: TaskId) {
    && id in snap.tasks && id in known && id !in db.tasks
    && var task := snap.tasks[id];
       && TaskTomb(task.team, id) !in db.tombs && ProjectTomb(task.team, task.project) !in db.tombs
       && var k := GrantKey(task.team, task.project, task.creator); k in db.grants && db.grants[k].live
  }

  /** A restore of a snapshot taken here never has to roll back: a task that comes back has left nothing. */
  lemma RestoreGoesThrough(s: State, snap: Snapshot, known: set<TaskId>)
    requires Inv(s) && snap in s.backups
    ensures Restore(s.db, snap, known).Ok?
  {
    if Conflicts(s.db, snap, Restorable(s.db, snap, known)) {
      var k, j :| k in s.db.events && j in snap.events && k.task == j.task && k.task in Restorable(s.db, snap, known);
      assert false;
    }
  }

  /** Rows of tasks appear only when created or restored, just as they were given, vanish only when deleted or
      lost, and never change. */
  lemma TasksMove(s: State, r: Request, id: TaskId)
    requires Inv(s)
    ensures var db' := Step(s, r).db;
      && (id !in s.db.tasks && id in db'.tasks <==>
            || (r.DoCreate? && r.ok && r.id == id && id !in s.db.tasks && ProjectTomb(r.task.team, r.task.project) !in s.db.tombs && TaskTomb(r.task.team, id) !in s.db.tombs)
            || (r.DoRestore? && r.snapshot in s.backups && ComesBack(s.db, r.snapshot, r.known, id)))
      && (id in s.db.tasks && id !in db'.tasks <==>
            id in s.db.tasks && ((r.DoDelete? && Delete(s.db, r.deletion).Ok? && Names(s.db, r.deletion, id)) || (r.DoLose? && id !in r.kept)))
      && (id in db'.tasks ==> db'.tasks[id] == if id in s.db.tasks then s.db.tasks[id] else if r.DoCreate? then r.task else r.snapshot.tasks[id])
  {
    if r.DoDelete? && Delete(s.db, r.deletion).Ok? { RowsAreTaken(s.db, r.deletion); }
    if r.DoRestore? && r.snapshot in s.backups { RestoreGoesThrough(s, r.snapshot, r.known); }
  }

  /** May be delivered: untagged, or for a task that is there, from its host or someone with access. */
  ghost predicate MayDeliver(db: Db, sender: Option<Account>, mail: Mail) {
    mail.task.Some? ==>
      && mail.task.value in db.tasks
      && (sender.Some? ==>
            var task := db.tasks[mail.task.value];
            var k := GrantKey(task.team, task.project, sender.value); k in db.grants && db.grants[k].live)
  }

  /** Letters appear only when delivered, just as they were sent, and vanish only when their recipient fetches
      them, or with what they are about; those of others stay. */
  lemma MailMoves(s: State, r: Request, n: nat)
    requires Inv(s)
    ensures var db' := Step(s, r).db;
      && (n !in s.db.mail && n in db'.mail <==> r.DoDeliver? && r.ok && MayDeliver(s.db, r.sender, r.mail) && n == s.db.nextMail)
      && (n in s.db.mail && n !in db'.mail <==>
            n in s.db.mail
            && var m := s.db.mail[n];
               match r
               case DoDrain(user, device) => m.to == user && m.device == device
               case DoDelete(d) => Delete(s.db, d).Ok? && if m.task.Some? then Names(s.db, d, m.task.value) else Touches(s.db, d, m.to)
               case DoLose(kept) => m.task.Some? && m.task.value !in kept
               case _ => false)
      && (n in db'.mail ==> db'.mail[n] == if n in s.db.mail then s.db.mail[n] else r.mail)
  {
    if r.DoDelete? && Delete(s.db, r.deletion).Ok? { MailIsTaken(s.db, r.deletion); }
  }

  /** May be stored: not retired, and listing only tasks that are there and that its owner has access to. */
  ghost predicate MayStore(db: Db, a: Archive, tasks: set<TaskId>) {
    && a !in db.retired
    && forall id :: id in tasks ==>
         && id in db.tasks
         && var k := GrantKey(db.tasks[id].team, db.tasks[id].project, a.user); k in db.grants && db.grants[k].live
  }

  /** An archive and its list change only when it is stored again, to what was given, and vanish only with what
      it lists; a loss of content shortens the lists. */
  lemma ArchivesMove(s: State, r: Request, a: Archive)
    requires Inv(s)
    ensures var db' := Step(s, r).db;
      var stored := r.DoPutRecovery? && r.ok && r.archive == a && MayStore(s.db, a, r.tasks);
      && (a in db'.archives <==> stored || (a in s.db.archives && !(r.DoDelete? && Delete(s.db, r.deletion).Ok? && Retires(s.db, r.deletion, a))))
      && (a in db'.archives ==> db'.archives[a] == if stored then r.blob else s.db.archives[a])
      && (forall id :: Indexed(a, id) in db'.index <==>
            if stored then id in r.tasks
            else a in db'.archives && Indexed(a, id) in s.db.index && (r.DoLose? ==> id in r.kept))
  {
    if r.DoDelete? && Delete(s.db, r.deletion).Ok? { ArchivesAreTaken(s.db, r.deletion); }
    if r.DoPutRecovery? && r.ok {
      assert MayStore(s.db, r.archive, r.tasks) <==> Outcome(s.db, r).Ok?;
    }
  }

  // ---- one log per task ----

  /** The stored rows of a task spell this log. */
  ghost predicate IsLog(events: map<EventKey, Record>, task: TaskId, log: seq<Record>) {
    && (forall k :: k in events && k.task == task ==> 1 <= k.at <= |log|)
    && (forall n :: 1 <= n <= |log| ==> EventKey(task, n) in events && events[EventKey(task, n)] == log[n - 1])
  }

  predicate Knows(log: seq<Record>, event: nat) { exists n :: 0 <= n < |log| && log[n].event == event }

  /** What a log makes of one submission. */
  function Accept(log: seq<Record>, r: Record): seq<Record> {
    if Knows(log, r.event) || r.at != |log| + 1 then log else log + [r]
  }

  function AcceptAll(log: seq<Record>, rs: seq<Record>): seq<Record>
    decreases |rs|
  {
    if rs == [] then log else AcceptAll(Accept(log, rs[0]), rs[1..])
  }

  function AppendAll(db: Db, id: TaskId, rs: seq<Record>): Db
    decreases |rs|
  {
    if rs == [] then db
    else
      var o := Append(db, id, rs[0], true);
      AppendAll(if o.Ok? then o.db else db, id, rs[1..])
  }

  lemma NextIsLength(events: map<EventKey, Record>, task: TaskId, log: seq<Record>, n: nat)
    requires IsLog(events, task, log)
    ensures IsNext(events, task, n) <==> n == |log| + 1
  {
    if IsNext(events, task, n) && |log| > 0 { assert EventKey(task, |log|) in events; }
    if n == |log| + 1 && n > 1 { assert EventKey(task, n - 1) in events; }
  }

  lemma KnowsRow(events: map<EventKey, Record>, task: TaskId, log: seq<Record>, event: nat)
    requires IsLog(events, task, log)
    ensures Knows(log, event) <==> exists k :: k in events && k.task == task && events[k].event == event
  {
    if Knows(log, event) {
      var n :| 0 <= n < |log| && log[n].event == event;
      assert EventKey(task, n + 1) in events;
    }
    if exists k :: k in events && k.task == task && events[k].event == event {
      var k :| k in events && k.task == task && events[k].event == event;
      assert EventKey(task, k.at) == k && log[k.at - 1].event == event;
    }
  }

  /** Appending to the table is accepting into the log; every other task's log is untouched. */
  lemma AppendAccepts(db: Db, id: TaskId, r: Record, log: seq<Record>)
    requires LogsOk(db.tasks, db.events) && NothingDeleted(db) && id in db.tasks && IsLog(db.events, id, log)
    ensures var o := Append(db, id, r, true);
      var db' := if o.Ok? then o.db else db;
      && IsLog(db'.events, id, Accept(log, r)) && db' == db.(events := db'.events) && LogsOk(db'.tasks, db'.events)
      && (forall k: EventKey :: k.task != id ==> (k in db'.events <==> k in db.events) && (k in db.events ==> db'.events[k] == db.events[k]))
  {
    KnowsRow(db.events, id, log, r.event);
    NextIsLength(db.events, id, log, r.at);
    if Append(db, id, r, true).Ok? { AppendKeepsLogs(db, id, r, true); }
  }

  lemma {:induction false} AppendAllAccepts(db: Db, id: TaskId, rs: seq<Record>, log: seq<Record>)
    requires LogsOk(db.tasks, db.events) && NothingDeleted(db) && id in db.tasks && IsLog(db.events, id, log)
    ensures IsLog(AppendAll(db, id, rs).events, id, AcceptAll(log, rs))
    decreases |rs|
  {
    if rs != [] {
      AppendAccepts(db, id, rs[0], log);
      var o := Append(db, id, rs[0], true);
      AppendAllAccepts(if o.Ok? then o.db else db, id, rs[1..], Accept(log, rs[0]));
    }
  }

  lemma {:induction false} AcceptAllExtends(log: seq<Record>, rs: seq<Record>)
    ensures log <= AcceptAll(log, rs)
    decreases |rs|
  {
    if rs != [] { AcceptAllExtends(Accept(log, rs[0]), rs[1..]); }
  }

  lemma {:induction false} AcceptAllSplits(log: seq<Record>, first: seq<Record>, second: seq<Record>)
    ensures AcceptAll(log, first + second) == AcceptAll(AcceptAll(log, first), second)
    decreases |first|
  {
    if first == [] {
      assert first + second == second;
    } else {
      assert (first + second)[1..] == first[1..] + second;
      AcceptAllSplits(Accept(log, first[0]), first[1..], second);
    }
  }

  /** Submitting again an event the log already has, with the same or another record, anywhere in the
      traffic, makes no difference to the log that results. */
  lemma RetryIsInvisible(db: Db, id: TaskId, first: seq<Record>, retry: Record, second: seq<Record>, log: seq<Record>)
    requires LogsOk(db.tasks, db.events) && NothingDeleted(db) && id in db.tasks && IsLog(db.events, id, log)
    requires Knows(AcceptAll(log, first), retry.event)
    ensures IsLog(AppendAll(db, id, first + [retry] + second).events, id, AcceptAll(log, first + second))
    ensures log <= AcceptAll(log, first + second)
  {
    AppendAllAccepts(db, id, first + [retry] + second, log);
    AcceptAllSplits(log, first + [retry], second);
    AcceptAllSplits(log, first, [retry]);
    assert [retry][1..] == [];
    assert AcceptAll(AcceptAll(log, first), [retry]) == AcceptAll(log, first);
    AcceptAllSplits(log, first, second);
    AcceptAllExtends(log, first + second);
  }

  /** Except for its own deletion or loss, a stored log is only ever extended. */
  lemma LogsOnlyExtend(s: State, r: Request, id: TaskId, log: seq<Record>)
    requires Inv(s) && id in s.db.tasks && IsLog(s.db.events, id, log)
    requires (r.DoDelete? ==> !(Delete(s.db, r.deletion).Ok? && Names(s.db, r.deletion, id))) && (r.DoLose? ==> id in r.kept)
    ensures exists more :: IsLog(Step(s, r).db.events, id, log + more)
  {
    assert log + [] == log;
    if r.DoAppend? && r.id == id && r.valid {
      AppendAccepts(s.db, id, r.record, log);
      assert Accept(log, r.record) == log + (if Accept(log, r.record) == log then [] else [r.record]);
    } else {
      LogIsLeft(s, r, id, log);
      assert IsLog(Step(s, r).db.events, id, log + []);
    }
  }

  lemma LogIsLeft(s: State, r: Request, id: TaskId, log: seq<Record>)
    requires Inv(s) && id in s.db.tasks && IsLog(s.db.events, id, log) && !(r.DoAppend? && r.id == id && r.valid)
    requires (r.DoDelete? ==> !(Delete(s.db, r.deletion).Ok? && Names(s.db, r.deletion, id))) && (r.DoLose? ==> id in r.kept)
    ensures IsLog(Step(s, r).db.events, id, log)
  {
    if r.DoDelete? && Delete(s.db, r.deletion).Ok? { RowsAreTaken(s.db, r.deletion); }
  }

  // ---- paging ----

  /** `SELECT ... WHERE seq > after AND seq <= through ORDER BY seq LIMIT limit` */
  function Page(events: map<EventKey, Record>, task: TaskId, after: nat, through: nat, limit: nat): seq<Record>
    decreases if after < through then through - after else 0
  {
    if after >= through || limit == 0 then []
    else if EventKey(task, after + 1) in events
      then [events[EventKey(task, after + 1)]] + Page(events, task, after + 1, through, limit - 1)
    else Page(events, task, after + 1, through, limit)
  }

  function Least(x: nat, y: nat): nat { if x < y then x else y }

  lemma {:induction false} PageIsSlice(events: map<EventKey, Record>, task: TaskId, after: nat, through: nat, limit: nat, log: seq<Record>)
    requires IsLog(events, task, log) && after <= through <= |log|
    ensures Page(events, task, after, through, limit) == log[after..Least(after + limit, through)]
    decreases through - after
  {
    if after < through && limit > 0 {
      PageIsSlice(events, task, after + 1, through, limit - 1, log);
      assert log[after..Least(after + limit, through)] == [log[after]] + log[after + 1..Least(after + limit, through)];
    }
  }

  /** A reader's replay: ask for the page after what it has, with `through` pinned to the head it was
      first told, until it is there. Each page is served from the table as it is by then. */
  function Collect(views: seq<map<EventKey, Record>>, task: TaskId, after: nat, through: nat, limit: nat): seq<Record>
    decreases |views|
  {
    if after == through || views == [] then []
    else
      var page := Page(views[0], task, after, through, limit);
      page + Collect(views[1..], task, after + |page|, through, limit)
  }

  /** The table holds this log, perhaps with more after it. */
  ghost predicate Serves(view: map<EventKey, Record>, task: TaskId, log: seq<Record>) {
    exists more :: IsLog(view, task, log + more)
  }

  /** However much is appended between pages, replay collects exactly the log as it was when it began,
      and no more pages than there were records to fetch. */
  lemma {:induction false} ReplayCollects(views: seq<map<EventKey, Record>>, task: TaskId, after: nat, limit: nat, log: seq<Record>)
    requires after <= |log| && limit >= 1 && |views| >= |log| - after
    requires forall v :: v in views ==> Serves(v, task, log)
    ensures Collect(views, task, after, |log|, limit) == log[after..]
    decreases |views|
  {
    if after < |log| {
      assert Serves(views[0], task, log);
      var more :| IsLog(views[0], task, log + more);
      PageIsSlice(views[0], task, after, |log|, limit, log + more);
      var next := Least(after + limit, |log|);
      assert (log + more)[after..next] == log[after..next];
      assert Collect(views, task, after, |log|, limit) == log[after..next] + Collect(views[1..], task, next, |log|, limit);
      ReplayCollects(views[1..], task, next, limit, log);
      assert log[after..] == log[after..next] + log[next..];
    }
  }

  // ---- restore ----

  /** Restoring brings back exactly the snapshot's log of every task it restores, and changes nothing
      about any task that is still there. */
  lemma RestoreReproduces(s: State, snap: Snapshot, known: set<TaskId>, id: TaskId, log: seq<Record>)
    requires Inv(s) && LogsOk(snap.tasks, snap.events)
    ensures Restore(s.db, snap, known).Ok?
    ensures var db := Restore(s.db, snap, known).db;
      && (id in Restorable(s.db, snap, known) && IsLog(snap.events, id, log) ==> db.tasks[id] == snap.tasks[id] && IsLog(db.events, id, log))
      && (id in s.db.tasks && IsLog(s.db.events, id, log) ==> id in db.tasks && db.tasks[id] == s.db.tasks[id] && IsLog(db.events, id, log))
      && (id !in s.db.tasks && id !in Restorable(s.db, snap, known) ==> id !in db.tasks)
  {
    RestoreKeepsInv(s.db, snap, known);
  }

  /** A snapshot is kept as the tables are; nothing else adds one, and nothing takes one away. */
  lemma SnapshotsExactly(s: State, r: Request)
    ensures Step(s, r).backups == if r.DoSnapshot? then s.backups + {Snapshot(s.db.tasks, s.db.events)} else s.backups
  {
  }

  /** A task that was backed up, then lost, comes back as it was, as long as its creator still has access. */
  lemma BackupUndoesLoss(s: State, kept: set<TaskId>, known: set<TaskId>, id: TaskId, log: seq<Record>)
    requires Inv(s) && id in s.db.tasks && id in known && IsLog(s.db.events, id, log)
    requires LiveGrant(s.db, s.db.tasks[id].team, s.db.tasks[id].project, s.db.tasks[id].creator)
    ensures var db := Step(Step(Step(s, DoSnapshot), DoLose(kept)), DoRestore(SnapshotOf(s.db), known)).db;
      id in db.tasks && db.tasks[id] == s.db.tasks[id] && IsLog(db.events, id, log)
  {
    var backedUp := Step(s, DoSnapshot);
    var lost := Step(backedUp, DoLose(kept));
    LostWithSnapshot(s, kept);
    RestoreGoesThrough(lost, SnapshotOf(s.db), known);
    RestoredIs(lost, SnapshotOf(s.db), known);
    BroughtBack(lost, s.db, kept, known, id, log);
  }

  lemma LostWithSnapshot(s: State, kept: set<TaskId>)
    requires Inv(s)
    ensures var lost := Step(Step(s, DoSnapshot), DoLose(kept)); Inv(lost) && lost.db == Lose(s.db, kept) && SnapshotOf(s.db) in lost.backups
  {
    StepKeepsInv(s, DoSnapshot);
    StepKeepsInv(Step(s, DoSnapshot), DoLose(kept));
  }

  lemma RestoredIs(s: State, snap: Snapshot, known: set<TaskId>)
    requires snap in s.backups && Restore(s.db, snap, known).Ok?
    ensures Step(s, DoRestore(snap, known)).db == Restore(s.db, snap, known).db
  {
  }

  lemma BroughtBack(lost: State, db: Db, kept: set<TaskId>, known: set<TaskId>, id: TaskId, log: seq<Record>)
    requires Inv(lost) && lost.db == Lose(db, kept) && LogsOk(db.tasks, db.events) && NothingDeleted(db)
    requires id in db.tasks && id in known && IsLog(db.events, id, log) && Restore(lost.db, SnapshotOf(db), known).Ok?
    requires LiveGrant(db, db.tasks[id].team, db.tasks[id].project, db.tasks[id].creator)
    ensures var after := Restore(lost.db, SnapshotOf(db), known).db;
      id in after.tasks && after.tasks[id] == db.tasks[id] && IsLog(after.events, id, log)
  {
    if id in kept { assert IsLog(lost.db.events, id, log); }
    assert id in lost.db.tasks || id in Restorable(lost.db, SnapshotOf(db), known);
    RestoreReproduces(State(lost.db, {}), SnapshotOf(db), known, id, log);
  }

  // ---- the relay's objects ----

  class Relay {
    var tasks: map<TaskId, Task>
    var events: map<EventKey, Record>
    var grants: map<GrantKey, Grant>
    var tombs: set<Tomb>
    var mail: map<nat, Mail>
    var nextMail: nat
    var archives: map<Archive, nat>
    var index: set<Indexed>
    var retired: set<Archive>

    ghost function Tables(): Db
      reads this
    {
      Db(tasks, events, grants, tombs, mail, nextMail, archives, index, retired)
    }

    constructor ()
      ensures Tables() == EMPTY.db
    {
      tasks, events, grants, tombs, mail, nextMail, archives, index, retired := map[], map[], map[], {}, map[], 0, map[], {}, {};
    }

    /** `SELECT COALESCE(MAX(seq),0)`: the next place is one past the largest. */
    method Head(id: TaskId) returns (head: nat)
      requires forall k :: k in events ==> k.at >= 1
      ensures IsNext(events, id, head + 1)
    {
      head := 0;
      var keys := events.Keys;
      while keys != {}
        invariant keys <= events.Keys
        invariant head == 0 || EventKey(id, head) in events
        invariant forall k :: k in events && k !in keys && k.task == id ==> k.at <= head
        decreases keys
      {
        var k :| k in keys;
        if k.task == id && k.at > head { head := k.at; }
        keys := keys - {k};
      }
    }

    method TakeProject(team: Team, project: Project, user: Account) returns (ok: bool)
      modifies this`grants
      ensures var o := OwnProject(old(Tables()), team, project, user);
        ok == o.Ok? && Tables() == if ok then o.db else old(Tables())
    {
      if ProjectTomb(team, project) in tombs { return false; }
      if !LiveIn(grants, team, project, user) { grants := grants[GrantKey(team, project, user) := Grant(true, true)]; }
      ok := true;
    }

    method CreateTask(id: TaskId, task: Task, allowed: bool) returns (ok: bool)
      modifies this`tasks, this`grants
      ensures var o := Create(old(Tables()), id, task, allowed);
        ok == o.Ok? && Tables() == if ok then o.db else old(Tables())
    {
      if !allowed || Deleted(tombs, task.team, task.project, id) { return false; }
      if id in tasks { return tasks[id] == task; }
      tasks := tasks[id := task];
      ok := TakeProject(task.team, task.project, task.creator);
    }

    method AppendRecord(id: TaskId, record: Record, valid: bool) returns (ok: bool)
      requires LogsOk(tasks, events)
      modifies this`events
      ensures var o := Append(old(Tables()), id, record, valid);
        ok == o.Ok? && Tables() == if ok then o.db else old(Tables())
    {
      if id !in tasks || Deleted(tombs, tasks[id].team, tasks[id].project, id) || !valid { return false; }
      if k :| k in events && k.task == id && events[k].event == record.event {
        return events[k] == record;
      }
      var head := Head(id);
      OneNext(events, id, head + 1);
      if record.at != head + 1 { return false; }
      events := events[EventKey(id, record.at) := record];
      ok := true;
    }

    method DeliverMail(sender: Option<Account>, m: Mail, allowed: bool) returns (ok: bool)
      modifies this`mail, this`nextMail
      ensures var o := Deliver(old(Tables()), sender, m, allowed);
        ok == o.Ok? && Tables() == if ok then o.db else old(Tables())
    {
      if !allowed { return false; }
      if m.task.Some? {
        if m.task.value !in tasks { return false; }
        if sender.Some? {
          if !LiveIn(grants, tasks[m.task.value].team, tasks[m.task.value].project, sender.value) { return false; }
        }
      }
      mail := mail[nextMail := m];
      nextMail := nextMail + 1;
      ok := true;
    }

    method StoreRecovery(archive: Archive, blob: nat, taskIds: seq<TaskId>, allowed: bool) returns (ok: bool)
      modifies this`archives, this`index
      ensures var o := PutRecovery(old(Tables()), archive, blob, (set t | t in taskIds), allowed);
        ok == o.Ok? && Tables() == if ok then o.db else old(Tables())
    {
      if !allowed || archive in retired { return false; }
      for i := 0 to |taskIds|
        invariant forall t :: t in taskIds[..i] ==> MayIndex(Tables(), archive.user, t)
      {
        var t := taskIds[i];
        assert t in set u | u in taskIds;
        if t !in tasks || !LiveIn(grants, tasks[t].team, tasks[t].project, archive.user) {
          assert !MayIndex(Tables(), archive.user, t);
          return false;
        }
      }
      assert taskIds[..|taskIds|] == taskIds;
      archives := archives[archive := blob];
      index := (set x | x in index && x.archive != archive) + (set t | t in taskIds :: Indexed(archive, t));
      ok := true;
    }

    method RemoveArchive(archive: Archive)
      modifies this`archives, this`index, this`retired
      ensures Tables() == RemoveArchives(old(Tables()), {archive})
    {
      retired := retired + {archive};
      archives := archives - {archive};
      index := set x | x in index && x.archive !in {archive};
    }

    method RemoveAll(gone: set<Archive>)
      modifies this`archives, this`index, this`retired
      ensures Tables() == RemoveArchives(old(Tables()), gone)
    {
      ghost var before := Tables();
      var todo := gone;
      ghost var done: set<Archive> := {};
      RemoveNone(before);
      while todo != {}
        invariant todo !! done && todo + done == gone
        invariant Tables() == RemoveArchives(before, done)
        decreases todo
      {
        var archive :| archive in todo;
        RemoveArchive(archive);
        RemoveMore(before, done, archive);
        todo, done := todo - {archive}, done + {archive};
      }
      assert done == gone;
    }

    /** The task loop of a deletion, one task at a time. */
    method RemoveTask(id: TaskId)
      modifies this
      ensures Tables() == RemoveTasks(old(Tables()), {id})
    {
      events := EventsWithout(events, {id});
      tasks := tasks - {id};
      RemoveAll(Indexing(index, {id}));
      mail := MailWithout(mail, {id});
    }

    method RemoveEach(ids: set<TaskId>)
      modifies this
      ensures Tables() == RemoveTasks(old(Tables()), ids)
    {
      ghost var before := Tables();
      var todo := ids;
      ghost var done: set<TaskId> := {};
      RemoveNoTask(before);
      while todo != {}
        invariant todo !! done && todo + done == ids
        invariant Tables() == RemoveTasks(before, done)
        decreases todo
      {
        var id :| id in todo;
        RemoveTask(id);
        RemoveMoreTasks(before, done, id);
        todo, done := todo - {id}, done + {id};
      }
      assert done == ids;
    }

    method CheckDeletion(d: Deletion) returns (ok: bool)
      ensures ok == MayDelete(Tables(), d)
    {
      var doomed := set id | id in tasks && tasks[id].team == d.team && tasks[id].project == d.project && (d.DeleteProject? || id == d.task);
      assert doomed == Doomed(Tables(), d);
      if TombOf(d) in tombs { return false; }
      if d.DeleteTask? { return d.task in doomed && tasks[d.task].runtime == d.runtime; }
      ok := (exists k :: k in grants && k.team == d.team && k.project == d.project) && d.listed == map id | id in doomed :: tasks[id].runtime;
    }

    /** The legacy part: untagged mail and unindexed archives of everyone affected. */
    method PurgeLegacy(users: set<Account>)
      modifies this`archives, this`index, this`retired, this`mail
      ensures Tables() == RemoveLegacy(old(Tables()), users)
    {
      mail := map n | n in mail && !(mail[n].task.None? && mail[n].to in users) :: mail[n];
      RemoveAll(set a | a in archives && a.user in users && (forall x :: x in index ==> x.archive != a));
    }

    /** The deletion part of a signed mutation's transaction. */
    method ApplyDeletion(d: Deletion) returns (ok: bool)
      modifies this
      ensures var o := Delete(old(Tables()), d);
        ok == o.Ok? && Tables() == if ok then o.db else old(Tables())
    {
      ok := CheckDeletion(d);
      if !ok { return; }
      ghost var before := Tables();
      var doomed := set id | id in tasks && tasks[id].team == d.team && tasks[id].project == d.project && (d.DeleteProject? || id == d.task);
      var users := (set k | k in grants && k.team == d.team && k.project == d.project :: k.user) + (set id | id in doomed :: tasks[id].runtime);
      assert doomed == Doomed(before, d) && users == Affected(before, d);
      RemoveEach(doomed);
      PurgeLegacy(users);
      assert Tables() == RemoveLegacy(RemoveTasks(before, doomed), users);
      tombs := tombs + {TombOf(d)};
      if d.DeleteProject? {
        grants := map k | k in grants :: if k.team == d.team && k.project == d.project then grants[k].(live := false) else grants[k];
      }
    }

    /** One task of a snapshot; false when a leftover row is in the way. */
    method RestoreTask(snap: Snapshot, id: TaskId) returns (ok: bool)
      requires id in snap.tasks
      modifies this`tasks, this`events
      ensures ok <==> !Conflicts(old(Tables()), snap, {id})
      ensures Tables() == if ok then RestoreTasks(old(Tables()), snap, {id}) else old(Tables())
    {
      if exists e, j :: e in events && j in snap.events && e.task == j.task && e.task in {id}
                        && (e.at == j.at || events[e].event == snap.events[j].event) {
        return false;
      }
      OneTaskIn(snap, id);
      tasks := tasks[id := snap.tasks[id]];
      events := events + EventsIn(snap, {id});
      ok := true;
    }

    /** The loop over a snapshot's tasks, stopped by the first conflict. */
    method RestoreRows(snap: Snapshot, known: set<TaskId>) returns (ok: bool)
      modifies this`tasks, this`events
      ensures ok <==> !Conflicts(old(Tables()), snap, Restorable(old(Tables()), snap, known))
      ensures ok ==> Tables() == RestoreTasks(old(Tables()), snap, Restorable(old(Tables()), snap, known))
    {
      ghost var before := Tables();
      var todo := snap.tasks.Keys;
      HalfwayStart(before, snap, known);
      while todo != {}
        invariant Halfway(before, snap, known, todo, Tables())
        decreases todo
      {
        var id :| id in todo;
        HalfwayStep(before, snap, known, todo, Tables(), id);
        todo := todo - {id};
        if Missing(tasks, tombs, grants, snap, known, id) {
          var restored := RestoreTask(snap, id);
          if !restored { return false; }
        }
      }
      assert Restorable(before, snap, known) - {} == Restorable(before, snap, known);
      ok := true;
    }

    /** Restores task by task, and rolls back if a leftover row is in the way. */
    method RestoreSnapshot(snap: Snapshot, known: set<TaskId>) returns (ok: bool)
      modifies this`tasks, this`events
      ensures var o := Restore(old(Tables()), snap, known);
        ok == o.Ok? && Tables() == if ok then o.db else old(Tables())
    {
      var tasks0, events0 := tasks, events;
      ok := RestoreRows(snap, known);
      if !ok { tasks, events := tasks0, events0; }
    }
  }

  lemma OneNext(events: map<EventKey, Record>, task: TaskId, m: nat)
    requires IsNext(events, task, m)
    ensures forall n :: IsNext(events, task, n) ==> n == m
  {
    assert m > 1 ==> EventKey(task, m - 1) in events;
  }

  lemma RemoveNone(db: Db)
    ensures RemoveArchives(db, {}) == db
  {
    assert (set x | x in db.index && x.archive !in {}) == db.index;
  }

  lemma RemoveMore(db: Db, gone: set<Archive>, archive: Archive)
    ensures RemoveArchives(RemoveArchives(db, gone), {archive}) == RemoveArchives(db, gone + {archive})
  {
    var x, y := RemoveArchives(RemoveArchives(db, gone), {archive}), RemoveArchives(db, gone + {archive});
    assert x.retired == y.retired && x.archives == y.archives && x.index == y.index;
  }

  lemma RemoveBoth(db: Db, first: set<Archive>, second: set<Archive>)
    ensures RemoveArchives(RemoveArchives(db, first), second) == RemoveArchives(db, first + second)
  {
    var x, y := RemoveArchives(RemoveArchives(db, first), second), RemoveArchives(db, first + second);
    assert x.retired == y.retired && x.archives == y.archives && x.index == y.index;
  }

  lemma RemoveNoTask(db: Db)
    ensures RemoveTasks(db, {}) == db
  {
    RemoveNone(db);
    assert Indexing(db.index, {}) == {};
    assert EventsWithout(db.events, {}) == db.events && MailWithout(db.mail, {}) == db.mail && db.tasks - {} == db.tasks;
  }

  lemma WithoutMore(events: map<EventKey, Record>, mail: map<nat, Mail>, ids: set<TaskId>, id: TaskId)
    ensures EventsWithout(EventsWithout(events, ids), {id}) == EventsWithout(events, ids + {id})
    ensures MailWithout(MailWithout(mail, ids), {id}) == MailWithout(mail, ids + {id})
  {
  }

  /** Archives indexing one more task are those found before plus those still indexed under it. */
  lemma IndexingMore(db: Db, ids: set<TaskId>, id: TaskId)
    ensures Indexing(db.index, ids + {id}) == Indexing(db.index, ids) + Indexing(RemoveArchives(db, Indexing(db.index, ids)).index, {id})
  {
    var first := Indexing(db.index, ids);
    var left := RemoveArchives(db, first).index;
    forall a | a in Indexing(db.index, ids + {id}) && a !in first ensures a in Indexing(left, {id}) {
      var w :| w in db.index && w.task in ids + {id} && w.archive == a;
      assert w.task == id && w in left;
    }
  }

  lemma RemoveMoreTasks(db: Db, ids: set<TaskId>, id: TaskId)
    ensures RemoveTasks(RemoveTasks(db, ids), {id}) == RemoveTasks(db, ids + {id})
  {
    var first := Indexing(db.index, ids);
    var second := Indexing(RemoveArchives(db, first).index, {id});
    IndexingMore(db, ids, id);
    RemoveBoth(db, first, second);
    WithoutMore(db.events, db.mail, ids, id);
    assert db.tasks - ids - {id} == db.tasks - (ids + {id});
  }

  lemma OneTaskIn(snap: Snapshot, id: TaskId)
    requires id in snap.tasks
    ensures forall tasks: map<TaskId, Task> :: tasks + TasksIn(snap, {id}) == tasks[id := snap.tasks[id]]
  {
    assert TasksIn(snap, {id}) == map[id := snap.tasks[id]];
  }

  lemma RestoreNone(db: Db, snap: Snapshot)
    ensures RestoreTasks(db, snap, {}) == db
  {
    assert TasksIn(snap, {}) == map[] && EventsIn(snap, {}) == map[];
    assert db.tasks + map[] == db.tasks && db.events + map[] == db.events;
  }

  lemma OthersUntouched(db: Db, snap: Snapshot, ids: set<TaskId>, k: EventKey)
    requires k.task !in ids
    ensures var events := RestoreTasks(db, snap, ids).events; (k in events <==> k in db.events) && (k in db.events ==> events[k] == db.events[k])
  {
  }

  lemma ConflictStays(db: Db, snap: Snapshot, ids: set<TaskId>, id: TaskId)
    requires id !in ids && !Conflicts(db, snap, ids) && Conflicts(db, snap, ids + {id})
    ensures Conflicts(RestoreTasks(db, snap, ids), snap, {id})
  {
    var k, j :| k in db.events && j in snap.events && k.task == j.task && k.task in ids + {id}
                && (k.at == j.at || db.events[k].event == snap.events[j].event);
    assert k.task == id;
    OthersUntouched(db, snap, ids, k);
  }

  lemma ConflictWas(db: Db, snap: Snapshot, ids: set<TaskId>, id: TaskId)
    requires id !in ids && Conflicts(RestoreTasks(db, snap, ids), snap, {id})
    ensures Conflicts(db, snap, ids + {id})
  {
    var db' := RestoreTasks(db, snap, ids);
    var k, j :| k in db'.events && j in snap.events && k.task == j.task && k.task in {id}
                && (k.at == j.at || db'.events[k].event == snap.events[j].event);
    OthersUntouched(db, snap, ids, k);
  }

  /** Restoring one more task after others is restoring them all, and meets the same conflicts. */
  lemma RestoreOneMore(db: Db, snap: Snapshot, ids: set<TaskId>, id: TaskId)
    requires id !in ids && !Conflicts(db, snap, ids)
    ensures RestoreTasks(RestoreTasks(db, snap, ids), snap, {id}) == RestoreTasks(db, snap, ids + {id})
    ensures Conflicts(RestoreTasks(db, snap, ids), snap, {id}) <==> Conflicts(db, snap, ids + {id})
  {
    AddTwice(db.tasks, db.events, snap, ids, id);
    if Conflicts(db, snap, ids + {id}) { ConflictStays(db, snap, ids, id); }
    if Conflicts(RestoreTasks(db, snap, ids), snap, {id}) { ConflictWas(db, snap, ids, id); }
  }

  /** The tests the loop makes of one task, against the tables as they are by then. */
  predicate Missing(tasks: map<TaskId, Task>, tombs: set<Tomb>, grants: map<GrantKey, Grant>, snap: Snapshot, known: set<TaskId>, id: TaskId)
    requires id in snap.tasks
  {
    var t := snap.tasks[id];
    id in known && !Deleted(tombs, t.team, t.project, id) && LiveIn(grants, t.team, t.project, t.creator) && id !in tasks
  }

  ghost predicate Halfway(before: Db, snap: Snapshot, known: set<TaskId>, todo: set<TaskId>, db: Db) {
    var done := Restorable(before, snap, known) - todo;
    todo <= snap.tasks.Keys && db == RestoreTasks(before, snap, done) && !Conflicts(before, snap, done)
  }

  lemma HalfwayStart(before: Db, snap: Snapshot, known: set<TaskId>)
    ensures Halfway(before, snap, known, snap.tasks.Keys, before)
  {
    RestoreNone(before, snap);
    assert Restorable(before, snap, known) - snap.tasks.Keys == {};
  }

  lemma HalfwayStep(before: Db, snap: Snapshot, known: set<TaskId>, todo: set<TaskId>, db: Db, id: TaskId)
    requires id in todo && Halfway(before, snap, known, todo, db)
    ensures !Missing(db.tasks, db.tombs, db.grants, snap, known, id) ==> Halfway(before, snap, known, todo - {id}, db)
    ensures Missing(db.tasks, db.tombs, db.grants, snap, known, id) ==>
              if Conflicts(db, snap, {id}) then Conflicts(before, snap, Restorable(before, snap, known))
              else Halfway(before, snap, known, todo - {id}, RestoreTasks(db, snap, {id}))
  {
    var ids := Restorable(before, snap, known);
    var done := ids - todo;
    assert Missing(db.tasks, db.tombs, db.grants, snap, known, id) <==> id in ids;
    if id in ids {
      assert ids - (todo - {id}) == done + {id};
      RestoreOneMore(before, snap, done, id);
      if Conflicts(db, snap, {id}) { ConflictsGrow(before, snap, done + {id}, ids); }
    } else {
      assert ids - (todo - {id}) == done;
    }
  }

  lemma AddTwice(tasks: map<TaskId, Task>, events: map<EventKey, Record>, snap: Snapshot, ids: set<TaskId>, id: TaskId)
    ensures tasks + TasksIn(snap, ids) + TasksIn(snap, {id}) == tasks + TasksIn(snap, ids + {id})
    ensures events + EventsIn(snap, ids) + EventsIn(snap, {id}) == events + EventsIn(snap, ids + {id})
  {
  }

  lemma ConflictsGrow(db: Db, snap: Snapshot, some: set<TaskId>, all: set<TaskId>)
    requires some <= all && Conflicts(db, snap, some)
    ensures Conflicts(db, snap, all)
  {
  }
}
