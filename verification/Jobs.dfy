/** The server's job queue (cloud/src/jobs.ts). `create` and `result` wait for a signature check, so
    each is two steps: the part before the await, which captures a task, and the part after it.
    Between them anything may happen to the queue, to the sessions and to the vault root. */
module Jobs {
  import opened Text
  import opened Wire
  import Account

  type Device = Account.Device

  datatype Status = Queued | Running | Succeeded | Failed | RestartRequired | Cancelled | Expired

  datatype Code = NoCode | AccessChanged | NotReceived | ReceiptMissing | Reported(code: string, count: nat)

  /** What a browser asks for, and signs. */
  datatype Spec = Spec(id: string, device: string, action: string, version: string, expires: int, signature: Signature)

  /** A row. `serial` numbers rows in order of creation, as an id may come back after its row went. */
  datatype Job = Job(spec: Spec, root: string, digest: string, created: int, updated: int,
                     status: Status, code: Code, claim: Option<string>, receipt: Option<Signature>, serial: nat)

  /** What the queue reads of the account: its root and its sessions. */
  datatype Access = Access(root: string, devices: seq<Device>)

  datatype Outcome = Outcome(status: Status, code: string, count: nat, receipt: Signature)

  datatype Task =
    | CreateTask(actor: Device, target: Device, job: Job)
    | ResultTask(actor: Device, job: Job, outcome: Outcome)

  datatype Queue = Queue(jobs: map<string, Job>, tasks: set<Task>, serial: nat)

  const WeekMs := 7 * DayMs

  predicate Active(j: Job) {
    j.status.Queued? || j.status.Running?
  }

  function JobMessage(user: string, s: Spec): string {
    Fields('\n', ["sshm-job-v1", user, s.id, s.device, s.action, s.version, Numeral(s.expires)])
  }

  function StatusName(s: Status): string {
    match s
    case Queued => "queued"
    case Running => "running"
    case Succeeded => "succeeded"
    case Failed => "failed"
    case RestartRequired => "restart_required"
    case Cancelled => "cancelled"
    case Expired => "expired"
  }

  function ReceiptMessage(user: string, s: Spec, o: Outcome): string {
    Fields('\n', ["sshm-job-result-v1", user, s.id, s.device, StatusName(o.status), o.code, Numeral(o.count)])
  }

  predicate ValidSpec(s: Spec, now: nat) {
    && ValidId(s.id) && ValidId(s.device) && s.action in {"sync", "inspect", "update"}
    && (if s.action == "update" then ValidVersion(s.version) else s.version == "")
    && now < s.expires <= now + DayMs
  }

  const Codes := {"synced", "inspected", "up_to_date", "installed_restart_required", "operation_failed", "interrupted",
                  "update_check_failed", "release_changed", "update_install_failed", "inspection_failed",
                  "local_config_unavailable", "sync_failed"}

  predicate ValidOutcome(o: Outcome) {
    o.status in {Succeeded, Failed, RestartRequired} && o.code in Codes && o.count <= 100000
  }

  /** The first unexpired session of a device. */
  function Session(devices: seq<Device>, id: string, now: nat): Option<Device> {
    if devices == [] then None
    else if devices[0].id == id && devices[0].expires > now then Some(devices[0])
    else Session(devices[1..], id, now)
  }

  /** The same, passing over browsers. */
  function Worker(devices: seq<Device>, id: string, now: nat): Option<Device> {
    if devices == [] then None
    else if devices[0].id == id && devices[0].expires > now && devices[0].kind != "browser" then Some(devices[0])
    else Worker(devices[1..], id, now)
  }

  /** JavaScript's `some`: a session of this device, with this token, that has not expired. */
  predicate Has(devices: seq<Device>, d: Device, now: nat) {
    devices != []
    && ((devices[0].id == d.id && devices[0].digest == d.digest && devices[0].expires > now)
        || Has(devices[1..], d, now))
  }

  predicate Live(access: Option<Access>, d: Device, now: nat) {
    access.Some? && Has(access.value.devices, d, now)
  }

  /** The device is still signed in with the session that it made the request in. */
  ghost predicate StillIn(access: Option<Access>, d: Device, now: nat) {
    access.Some? && exists a :: a in access.value.devices && a.id == d.id && a.digest == d.digest && a.expires > now
  }

  lemma {:induction false} HasIff(devices: seq<Device>, d: Device, now: nat)
    ensures Has(devices, d, now) <==>
              exists a :: a in devices && a.id == d.id && a.digest == d.digest && a.expires > now
  {
    if devices != [] {
      HasIff(devices[1..], d, now);
      assert devices == [devices[0]] + devices[1..];
      assert forall a :: a in devices <==> a == devices[0] || a in devices[1..];
    }
  }

  lemma LiveIff(access: Option<Access>, d: Device, now: nat)
    ensures Live(access, d, now) <==> StillIn(access, d, now)
  {
    if access.Some? { HasIff(access.value.devices, d, now); }
  }

  /** The `i`-th session is the first unexpired one of the device. */
  predicate FirstSession(devices: seq<Device>, id: string, now: nat, i: int) {
    && 0 <= i < |devices| && devices[i].id == id && devices[i].expires > now
    && forall k | 0 <= k < i :: devices[k].id != id || devices[k].expires <= now
  }

  lemma {:induction false} SessionIff(devices: seq<Device>, id: string, now: nat)
    ensures Session(devices, id, now).None? <==> forall d | d in devices :: d.id != id || d.expires <= now
    ensures Session(devices, id, now).Some? ==>
              exists i :: FirstSession(devices, id, now, i) && devices[i] == Session(devices, id, now).value
  {
    if devices != [] {
      SessionIff(devices[1..], id, now);
      assert devices == [devices[0]] + devices[1..];
      assert forall d :: d in devices <==> d == devices[0] || d in devices[1..];
      if devices[0].id == id && devices[0].expires > now {
        assert FirstSession(devices, id, now, 0);
      } else if Session(devices[1..], id, now).Some? {
        var i :| FirstSession(devices[1..], id, now, i) && devices[1..][i] == Session(devices, id, now).value;
        assert FirstSession(devices, id, now, i + 1);
      }
    }
  }

  /** The device of the row still has the session that it was made for, under the root that signed it. */
  ghost predicate Entitled(j: Job, access: Option<Access>, now: nat) {
    && access.Some? && access.value.root == j.root
    && exists i ::
         FirstSession(access.value.devices, j.spec.device, now, i) && access.value.devices[i].digest == j.digest
  }

  // --- prune ---

  /** What pruning makes of a row that it keeps. */
  function Refreshed(j: Job, access: Option<Access>, now: nat): Job {
    if !Active(j) then j
    else
      var d := if access.None? then None else Session(access.value.devices, j.spec.device, now);
      if access.None? || access.value.root != j.root || d.None? || d.value.digest != j.digest then
        j.(status := Cancelled, code := AccessChanged, updated := now)
      else if j.status.Queued? && j.spec.expires <= now then j.(status := Expired, code := NotReceived, updated := now)
      else if j.status.Running? && j.updated < now - 600000 then
        j.(status := Failed, code := ReceiptMissing, updated := now)
      else j
  }

  /** What becomes of a row that is a week old at most: an active one is cancelled exactly if its device is not entitled
      to it any more; else it expires exactly if it waited too long, and fails exactly if nothing was heard of it
      for ten minutes. */
  ghost predicate RowOutcome(j: Job, access: Option<Access>, now: nat, n: Job) {
    var waits, runs := j.status.Queued?, j.status.Running?;
    if (waits || runs) && !Entitled(j, access, now) then
      n == j.(status := Cancelled, code := AccessChanged, updated := now)
    else if waits && j.spec.expires <= now then n == j.(status := Expired, code := NotReceived, updated := now)
    else if runs && j.updated + 600000 < now then n == j.(status := Failed, code := ReceiptMissing, updated := now)
    else n == j
  }

  lemma RefreshedIs(j: Job, access: Option<Access>, now: nat)
    ensures RowOutcome(j, access, now, Refreshed(j, access, now))
  {
    if access.Some? {
      var devices := access.value.devices;
      SessionIff(devices, j.spec.device, now);
      forall i, k | FirstSession(devices, j.spec.device, now, i) && FirstSession(devices, j.spec.device, now, k)
        ensures i == k {}
    }
  }

  /** Every row is gone exactly if it is older than a week, and else refreshed. */
  ghost predicate RowsOutcome(jobs: map<string, Job>, access: Option<Access>, now: nat, n: map<string, Job>) {
    && (forall id :: id in n <==> id in jobs && now <= jobs[id].created + 7 * 86400000)
    && (forall id | id in n :: RowOutcome(jobs[id], access, now, n[id]))
  }

  lemma PrunedIs(jobs: map<string, Job>, access: Option<Access>, now: nat)
    ensures RowsOutcome(jobs, access, now, Pruned(jobs, access, now))
  {
    hide Refreshed, RowOutcome;
    forall id | id in Pruned(jobs, access, now)
      ensures RowOutcome(jobs[id], access, now, Pruned(jobs, access, now)[id]) {
      RefreshedIs(jobs[id], access, now);
    }
  }

  function Pruned(jobs: map<string, Job>, access: Option<Access>, now: nat): map<string, Job> {
    map id | id in jobs && jobs[id].created >= now - WeekMs :: Refreshed(jobs[id], access, now)
  }

  // --- requests ---

  datatype Request =
    | Poll(actor: Device)
    | Create(actor: Device, spec: Spec)
    | FinishCreate(task: Task, victim: string)
    | Cancel(actor: Device, id: string)
    | Claim(actor: Device, id: string, claim: string)
    | Report(actor: Device, id: string, claim: string, outcome: Outcome)
    | FinishReport(task: Task)

  datatype Reply = Listed(ids: set<string>) | Shown(job: Job) | Suspended | Refused(status: nat)

  /** The active jobs of a device. */
  function Busy(jobs: map<string, Job>, device: string): set<string> {
    set id | id in jobs && jobs[id].spec.device == device && Active(jobs[id])
  }

  /** The jobs of a device that wait or run. */
  function Unfinished(jobs: map<string, Job>, device: string): set<string> {
    set id | id in jobs && jobs[id].spec.device == device && jobs[id].status in {Queued, Running}
  }

  lemma BusyIs(jobs: map<string, Job>, device: string)
    ensures Busy(jobs, device) == Unfinished(jobs, device)
  {}

  /** A finished row no younger than any other. Which of several is chosen is the database's affair. */
  predicate Oldest(jobs: map<string, Job>, id: string) {
    id in jobs && !Active(jobs[id]) && forall k | k in jobs && !Active(jobs[k]) :: jobs[id].created <= jobs[k].created
  }

  predicate Full(jobs: map<string, Job>) {
    |jobs| >= 200 && exists id | id in jobs :: !Active(jobs[id])
  }

  function Save(q: Queue, j: Job): Queue {
    q.(jobs := q.jobs[j.spec.id := j])
  }

  function DoCreate(user: string, q: Queue, access: Option<Access>, now: nat, actor: Device,
                    spec: Spec): (Queue, Reply) {
    if actor.kind != "browser" then (q, Refused(403))
    else if !ValidSpec(spec, now) then (q, Refused(400))
    else if access.None? then (q, Refused(500))
    else
      var d := Worker(access.value.devices, spec.device, now);
      if d.None? then (q, Refused(404))
      else
        var j := Job(spec, access.value.root, d.value.digest, now, now, Queued, NoCode, None, None, q.serial);
        if !Verify(j.root, spec.signature, JobMessage(user, spec)) then (q, Refused(403))
        else (q.(tasks := q.tasks + {CreateTask(actor, d.value, j)}), Suspended)
  }

  function DoFinishCreate(q: Queue, access: Option<Access>, now: nat, t: Task, victim: string): (Queue, Reply)
    requires t.CreateTask?
  {
    var id := t.job.spec.id;
    if access.None? || access.value.root != t.job.root || !Live(access, t.actor, now)
      || !Live(access, t.target, now) then (q, Refused(409))
    else if id in q.jobs then
      (q, if q.jobs[id].spec.signature == t.job.spec.signature then Shown(q.jobs[id]) else Refused(409))
    else if |Busy(q.jobs, t.job.spec.device)| >= 4 then (q, Refused(429))
    else if |q.jobs| >= 200 && !Full(q.jobs) then (q, Refused(429))
    else
      var kept := if Full(q.jobs) then q.jobs - {victim} else q.jobs;
      var j := t.job.(serial := q.serial);
      (q.(jobs := kept[id := j], serial := q.serial + 1), Shown(j))
  }

  function DoCancel(q: Queue, now: nat, actor: Device, id: string): (Queue, Reply) {
    if id !in q.jobs then (q, Refused(404))
    else if actor.kind != "browser" then (q, Refused(403))
    else if !q.jobs[id].status.Queued? then (q, Refused(409))
    else
      var j := q.jobs[id].(status := Cancelled, updated := now);
      (Save(q, j), Shown(j))
  }

  predicate Owns(actor: Device, j: Job) {
    actor.kind != "browser" && actor.id == j.spec.device && actor.digest == j.digest
  }

  function DoClaim(q: Queue, now: nat, actor: Device, id: string, claim: string): (Queue, Reply) {
    if id !in q.jobs then (q, Refused(404))
    else if !Owns(actor, q.jobs[id]) then (q, Refused(403))
    else if !ValidId(claim) then (q, Refused(400))
    else if q.jobs[id].status.Running? && q.jobs[id].claim == Some(claim) then (q, Shown(q.jobs[id]))
    else if !q.jobs[id].status.Queued? then (q, Refused(409))
    else
      var j := q.jobs[id].(status := Running, claim := Some(claim), updated := now);
      (Save(q, j), Shown(j))
  }

  function DoReport(user: string, q: Queue, actor: Device, id: string, claim: string, o: Outcome): (Queue, Reply) {
    if id !in q.jobs then (q, Refused(404))
    else if !Owns(actor, q.jobs[id]) then (q, Refused(403))
    else if !ValidId(claim) then (q, Refused(400))
    else if q.jobs[id].claim != Some(claim) then (q, Refused(409))
    else if !ValidOutcome(o) then (q, Refused(400))
    else if !Verify(q.jobs[id].root, o.receipt, ReceiptMessage(user, q.jobs[id].spec, o)) then (q, Refused(403))
    else (q.(tasks := q.tasks + {ResultTask(actor, q.jobs[id], o)}), Suspended)
  }

  function DoFinishReport(q: Queue, access: Option<Access>, now: nat, t: Task): (Queue, Reply)
    requires t.ResultTask?
  {
    var id := t.job.spec.id;
    if access.None? || access.value.root != t.job.root || !Live(access, t.actor, now) || id !in q.jobs then
      (q, Refused(409))
    else if q.jobs[id].receipt == Some(t.outcome.receipt) then (q, Shown(q.jobs[id]))
    else if !q.jobs[id].status.Running? then (q, Refused(409))
    else
      var o := t.outcome;
      var j := q.jobs[id].(status := o.status, code := Reported(o.code, o.count), receipt := Some(o.receipt),
                           updated := now);
      (Save(q, j), Shown(j))
  }

  function Serve(user: string, q: Queue, access: Option<Access>, now: nat, r: Request): (Queue, Reply) {
    var p := q.(jobs := Pruned(q.jobs, access, now));
    match r
    case Poll(actor) =>
      if actor.kind == "browser" then (p, Refused(403))
      else (p, Listed(set id | id in Busy(p.jobs, actor.id) && p.jobs[id].digest == actor.digest))
    case Create(actor, spec) => DoCreate(user, p, access, now, actor, spec)
    case FinishCreate(task, victim) =>
      if task.CreateTask? then DoFinishCreate(q, access, now, task, victim) else (q, Refused(400))
    case Cancel(actor, id) => DoCancel(p, now, actor, id)
    case Claim(actor, id, claim) => DoClaim(p, now, actor, id, claim)
    case Report(actor, id, claim, o) => DoReport(user, p, actor, id, claim, o)
    case FinishReport(task) => if task.ResultTask? then DoFinishReport(q, access, now, task) else (q, Refused(400))
  }

  /** Only suspended tasks resume, and an evicted row is an oldest finished one. */
  predicate Enabled(q: Queue, r: Request) {
    && (r.FinishCreate? ==> r.task in q.tasks && (Full(q.jobs) ==> Oldest(q.jobs, r.victim)))
    && (r.FinishReport? ==> r.task in q.tasks)
  }

  // --- what the queue keeps ---

  /** Cancelled by a browser, through the cancel request. */
  predicate Withdrawn(j: Job) {
    j.status.Cancelled? && j.code.NoCode?
  }

  /** A claim and a status agree: only a job that was claimed runs or reports, and one that is queued,
      expired or withdrawn never was claimed. */
  predicate JobOk(j: Job) {
    && (j.status.Queued? || j.status.Expired? || Withdrawn(j) ==> j.claim.None?)
    && (j.status.Running? || j.code.Reported? || j.code.ReceiptMissing? ==> j.claim.Some?)
    && (j.receipt.Some? ==> j.code.Reported?)
    && (j.status.Queued? || j.status.Running? ==> j.code.NoCode?)
  }

  ghost predicate RowsOk(q: Queue) {
    && (forall id | id in q.jobs :: q.jobs[id].spec.id == id && q.jobs[id].serial < q.serial && JobOk(q.jobs[id]))
    && (forall id, k | id in q.jobs && k in q.jobs && id != k :: q.jobs[id].serial != q.jobs[k].serial)
  }

  ghost predicate Bounded(jobs: map<string, Job>) {
    |jobs| <= 200 && forall d :: |Busy(jobs, d)| <= 4
  }

  ghost predicate TasksOk(user: string, q: Queue) {
    forall t | t in q.tasks ::
      match t
      case CreateTask(_, target, j) =>
        j.status.Queued? && j.code.NoCode? && j.claim.None? && j.receipt.None? && target.digest == j.digest
        && target.id == j.spec.device
        && Verify(j.root, j.spec.signature, JobMessage(user, j.spec))
      case ResultTask(_, j, o) => ValidOutcome(o) && Verify(j.root, o.receipt, ReceiptMessage(user, j.spec, o))
  }

  ghost predicate Inv(user: string, q: Queue) {
    RowsOk(q) && Bounded(q.jobs) && TasksOk(user, q)
  }

  /** Rows that go, and rows that cease to be active, keep the bounds. */
  lemma FewerIsBounded(jobs: map<string, Job>, fewer: map<string, Job>)
    requires Bounded(jobs) && fewer.Keys <= jobs.Keys
    requires forall id | id in fewer :: fewer[id].spec == jobs[id].spec && (Active(fewer[id]) ==> Active(jobs[id]))
    ensures Bounded(fewer)
  {
    SubsetSize(fewer.Keys, jobs.Keys);
    assert |fewer| == |fewer.Keys| && |jobs| == |jobs.Keys|;
    forall d ensures |Busy(fewer, d)| <= 4 {
      SubsetSize(Busy(fewer, d), Busy(jobs, d));
    }
  }

  lemma PruneKeeps(user: string, q: Queue, access: Option<Access>, now: nat)
    requires Inv(user, q)
    ensures Inv(user, q.(jobs := Pruned(q.jobs, access, now)))
  {
    hide Refreshed, JobOk;
    forall id | id in q.jobs ensures RefreshedOk(q.jobs[id], Refreshed(q.jobs[id], access, now)) {
      RefreshKeeps(q.jobs[id], access, now);
    }
    FewerIsBounded(q.jobs, Pruned(q.jobs, access, now));
  }

  ghost predicate RefreshedOk(j: Job, n: Job) {
    n.spec == j.spec && n.serial == j.serial && (JobOk(j) ==> JobOk(n)) && (Active(n) ==> Active(j))
  }

  lemma RefreshKeeps(j: Job, access: Option<Access>, now: nat)
    ensures RefreshedOk(j, Refreshed(j, access, now))
  {}

  lemma SessionFound(devices: seq<Device>, id: string, now: nat)
    ensures Worker(devices, id, now).Some? ==>
              Worker(devices, id, now).value.id == id && Worker(devices, id, now).value in devices
  {}

  lemma CreateKeeps(user: string, q: Queue, access: Option<Access>, now: nat, actor: Device, spec: Spec)
    requires Inv(user, q)
    ensures Inv(user, DoCreate(user, q, access, now, actor, spec).0)
  {
    if access.Some? { SessionFound(access.value.devices, spec.device, now); }
  }

  lemma AddedIsBounded(jobs: map<string, Job>, j: Job)
    requires Bounded(jobs) && |jobs| < 200 && j.spec.id !in jobs && |Busy(jobs, j.spec.device)| < 4
    ensures Bounded(jobs[j.spec.id := j])
  {
    var more := jobs[j.spec.id := j];
    assert more.Keys == jobs.Keys + {j.spec.id};
    assert |more| == |more.Keys| == |jobs.Keys| + 1 == |jobs| + 1;
    forall d ensures |Busy(more, d)| <= 4 {
      if d == j.spec.device {
        SubsetSize(Busy(more, d), Busy(jobs, d) + {j.spec.id});
      } else {
        SubsetSize(Busy(more, d), Busy(jobs, d));
      }
    }
  }

  /** Evicting a finished row makes room. */
  lemma Evicted(jobs: map<string, Job>, victim: string)
    requires Bounded(jobs) && victim in jobs
    ensures Bounded(jobs - {victim}) && |jobs - {victim}| < 200
  {
    var kept := jobs - {victim};
    FewerIsBounded(jobs, kept);
    assert kept.Keys == jobs.Keys - {victim};
    assert |kept| == |kept.Keys| && |jobs| == |jobs.Keys|;
  }

  lemma AddedRow(q: Queue, kept: map<string, Job>, j: Job)
    requires RowsOk(q) && kept.Keys <= q.jobs.Keys && (forall id | id in kept :: kept[id] == q.jobs[id])
    requires j.serial == q.serial && JobOk(j)
    ensures RowsOk(q.(jobs := kept[j.spec.id := j], serial := q.serial + 1))
  {}

  lemma SameTasks(user: string, q: Queue, n: Queue)
    requires TasksOk(user, q) && n.tasks == q.tasks
    ensures TasksOk(user, n)
  {}

  lemma FinishCreateKeeps(user: string, q: Queue, access: Option<Access>, now: nat, t: Task, victim: string)
    requires Inv(user, q) && t.CreateTask? && t in q.tasks && (Full(q.jobs) ==> Oldest(q.jobs, victim))
    ensures Inv(user, DoFinishCreate(q, access, now, t, victim).0)
  {
    var (n, reply) := DoFinishCreate(q, access, now, t, victim);
    if n != q {
      var kept := if Full(q.jobs) then q.jobs - {victim} else q.jobs;
      var j := t.job.(serial := q.serial);
      AddedRow(q, kept, j);
      assert Bounded(n.jobs) by {
        hide Bounded, TasksOk, RowsOk, Live;
        if Full(q.jobs) { Evicted(q.jobs, victim); }
        SubsetSize(Busy(kept, j.spec.device), Busy(q.jobs, j.spec.device));
        AddedIsBounded(kept, j);
      }
      hide TasksOk, Bounded, Live, RowsOk;
      assert n.tasks == q.tasks;
      assert TasksOk(user, n) by { SameTasks(user, q, n); }
    }
  }

  /** A row rewritten in place. */
  lemma RewriteKeeps(user: string, q: Queue, j: Job)
    requires Inv(user, q) && j.spec.id in q.jobs && JobOk(j)
    requires j.spec == q.jobs[j.spec.id].spec && j.serial == q.jobs[j.spec.id].serial && Active(q.jobs[j.spec.id])
    ensures Inv(user, Save(q, j))
  {
    var n := Save(q, j).jobs;
    assert n.Keys == q.jobs.Keys;
    FewerIsBounded(q.jobs, n);
  }

  lemma FinishReportKeeps(user: string, q: Queue, access: Option<Access>, now: nat, t: Task)
    requires Inv(user, q) && t.ResultTask? && t in q.tasks
    ensures Inv(user, DoFinishReport(q, access, now, t).0)
  {
    var (n, reply) := DoFinishReport(q, access, now, t);
    if n != q { RewriteKeeps(user, q, n.jobs[t.job.spec.id]); }
  }

  /** Every request, at either half, keeps the invariant. */
  lemma ServeKeeps(user: string, q: Queue, access: Option<Access>, now: nat, r: Request)
    requires Inv(user, q) && Enabled(q, r)
    ensures Inv(user, Serve(user, q, access, now, r).0)
  {
    hide Inv;
    PruneKeeps(user, q, access, now);
    var p := q.(jobs := Pruned(q.jobs, access, now));
    match r
    case Poll(_) =>
    case Create(actor, spec) => CreateKeeps(user, p, access, now, actor, spec);
    case FinishCreate(task, victim) => if task.CreateTask? { FinishCreateKeeps(user, q, access, now, task, victim); }
    case Cancel(actor, id) => if DoCancel(p, now, actor, id).0 != p { CancelKeeps(user, p, now, actor, id); }
    case Claim(actor, id, claim) =>
      if DoClaim(p, now, actor, id, claim).0 != p { ClaimKeeps(user, p, now, actor, id, claim); }
    case Report(actor, id, claim, o) => ReportKeeps(user, p, actor, id, claim, o);
    case FinishReport(task) => if task.ResultTask? { FinishReportKeeps(user, q, access, now, task); }
  }

  lemma CancelKeeps(user: string, q: Queue, now: nat, actor: Device, id: string)
    requires Inv(user, q) && DoCancel(q, now, actor, id).0 != q
    ensures Inv(user, DoCancel(q, now, actor, id).0)
  {
    RewriteKeeps(user, q, DoCancel(q, now, actor, id).0.jobs[id]);
  }

  lemma ClaimKeeps(user: string, q: Queue, now: nat, actor: Device, id: string, claim: string)
    requires Inv(user, q) && DoClaim(q, now, actor, id, claim).0 != q
    ensures Inv(user, DoClaim(q, now, actor, id, claim).0)
  {
    RewriteKeeps(user, q, DoClaim(q, now, actor, id, claim).0.jobs[id]);
  }

  lemma ReportKeeps(user: string, q: Queue, actor: Device, id: string, claim: string, o: Outcome)
    requires Inv(user, q)
    ensures Inv(user, DoReport(user, q, actor, id, claim, o).0)
  {}
}
