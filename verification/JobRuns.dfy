/** Safety of the job queue over whole runs, for any course of sessions, roots and clocks. */
module JobRuns {
  import opened Text
  import opened Wire
  import opened Jobs

  datatype Event = Event(access: Option<Access>, now: nat, request: Request)

  ghost predicate Stepped(user: string, q: Queue, e: Event, n: Queue) {
    Enabled(q, e.request) && n == Serve(user, q, e.access, e.now, e.request).0
  }

  ghost predicate Run(user: string, states: seq<Queue>, events: seq<Event>) {
    && |states| == |events| + 1 && states[0] == Queue(map[], {}, 0)
    && forall i | 0 <= i < |events| :: Stepped(user, states[i], events[i], states[i + 1])
  }

  lemma {:induction false} RunInv(user: string, states: seq<Queue>, events: seq<Event>, i: nat)
    requires Run(user, states, events) && i < |states|
    ensures Inv(user, states[i])
  {
    hide Serve;
    if i > 0 {
      RunInv(user, states, events, i - 1);
      assert Stepped(user, states[i - 1], events[i - 1], states[i]);
      ServeKeeps(user, states[i - 1], events[i - 1].access, events[i - 1].now, events[i - 1].request);
    } else {
      assert forall d :: Busy(states[0].jobs, d) == {};
    }
  }

  /** In every state of every run there are at most 200 jobs, and at most four per device that wait or run. */
  lemma RunKeepsBounds(user: string, states: seq<Queue>, events: seq<Event>, i: nat)
    requires Run(user, states, events) && i < |states|
    ensures |states[i].jobs| <= 200 && forall d :: |Unfinished(states[i].jobs, d)| <= 4
  {
    RunInv(user, states, events, i);
    forall d ensures |Unfinished(states[i].jobs, d)| <= 4 {
      BusyIs(states[i].jobs, d);
    }
    hide Busy, Unfinished;
  }

  /** A poll never lists more than four jobs, so the device never takes a list for invalid. */
  lemma PollsAreShort(user: string, states: seq<Queue>, events: seq<Event>, i: nat)
    requires Run(user, states, events) && i < |events| && events[i].request.Poll?
    ensures var reply := Serve(user, states[i], events[i].access, events[i].now, events[i].request).1;
            reply.Listed? ==> |reply.ids| <= 4
                              && forall id | id in reply.ids ::
                                   id in states[i + 1].jobs && Active(states[i + 1].jobs[id])
                                   && states[i + 1].jobs[id].spec.device == events[i].request.actor.id
  {
    RunInv(user, states, events, i + 1);
    assert Stepped(user, states[i], events[i], states[i + 1]);
    var reply := Serve(user, states[i], events[i].access, events[i].now, events[i].request).1;
    if reply.Listed? {
      SubsetSize(reply.ids, Busy(states[i + 1].jobs, events[i].request.actor.id));
    }
  }

  // --- rows only move forward ---

  /** What may become of a row: what was asked is fixed; a claim once set never changes; a finished
      row never changes at all; and a row that is queued was queued all along. */
  predicate Later(j: Job, n: Job) {
    && n.spec == j.spec && n.serial == j.serial && n.root == j.root && n.digest == j.digest && n.created == j.created
    && (j.claim.Some? ==> n.claim == j.claim)
    && (!Active(j) ==> n == j)
    && (n.status.Queued? ==> n == j)
  }

  /** Every row of `n` is a row of `q`, moved forward, or was created since. */
  ghost predicate Evolves(q: Queue, n: Queue) {
    q.serial <= n.serial
    && forall id | id in n.jobs && n.jobs[id].serial < q.serial :: id in q.jobs && Later(q.jobs[id], n.jobs[id])
  }

  lemma RefreshedLater(j: Job, access: Option<Access>, now: nat)
    requires JobOk(j)
    ensures Later(j, Refreshed(j, access, now))
  {}

  lemma PrunedEvolves(user: string, q: Queue, access: Option<Access>, now: nat)
    requires Inv(user, q)
    ensures Evolves(q, q.(jobs := Pruned(q.jobs, access, now)))
  {
    hide Refreshed, Later, Bounded, TasksOk;
    forall id | id in Pruned(q.jobs, access, now) ensures Later(q.jobs[id], Refreshed(q.jobs[id], access, now)) {
      RefreshedLater(q.jobs[id], access, now);
    }
  }

  lemma EvolvesTransitive(a: Queue, b: Queue, c: Queue)
    requires Evolves(a, b) && Evolves(b, c)
    ensures Evolves(a, c)
  {}

  /** One rewritten row. */
  lemma SavedEvolves(user: string, q: Queue, j: Job)
    requires Inv(user, q) && j.spec.id in q.jobs && Later(q.jobs[j.spec.id], j)
    ensures Evolves(q, Save(q, j))
  {
    hide Bounded, TasksOk;
  }

  lemma ClaimEvolves(user: string, q: Queue, now: nat, actor: Device, id: string, claim: string)
    requires Inv(user, q)
    ensures Evolves(q, DoClaim(q, now, actor, id, claim).0)
  {
    hide Bounded, TasksOk;
    var n := DoClaim(q, now, actor, id, claim).0;
    if n != q { SavedEvolves(user, q, n.jobs[id]); }
  }

  lemma CancelEvolves(user: string, q: Queue, now: nat, actor: Device, id: string)
    requires Inv(user, q)
    ensures Evolves(q, DoCancel(q, now, actor, id).0)
  {
    hide Bounded, TasksOk;
    var n := DoCancel(q, now, actor, id).0;
    if n != q { SavedEvolves(user, q, n.jobs[id]); }
  }

  lemma BodyEvolves(user: string, q: Queue, access: Option<Access>, now: nat, r: Request)
    requires Inv(user, q)
    ensures r.Create? ==> Evolves(q, DoCreate(user, q, access, now, r.actor, r.spec).0)
    ensures r.Cancel? ==> Evolves(q, DoCancel(q, now, r.actor, r.id).0)
    ensures r.Claim? ==> Evolves(q, DoClaim(q, now, r.actor, r.id, r.claim).0)
    ensures r.Report? ==> Evolves(q, DoReport(user, q, r.actor, r.id, r.claim, r.outcome).0)
  {
    hide Inv, DoClaim, DoCancel, ValidSpec, ValidOutcome;
    match r
    case Cancel(actor, id) => CancelEvolves(user, q, now, actor, id);
    case Claim(actor, id, claim) => ClaimEvolves(user, q, now, actor, id, claim);
    case _ => SelfEvolves(q);
  }

  lemma ResumedEvolves(user: string, q: Queue, access: Option<Access>, now: nat, r: Request)
    requires Inv(user, q) && Enabled(q, r)
    ensures r.FinishCreate? && r.task.CreateTask? ==> Evolves(q, DoFinishCreate(q, access, now, r.task, r.victim).0)
    ensures r.FinishReport? && r.task.ResultTask? ==> Evolves(q, DoFinishReport(q, access, now, r.task).0)
  {
    hide Bounded;
    if r.FinishReport? && r.task.ResultTask? {
      var n := DoFinishReport(q, access, now, r.task).0;
      if n != q { SavedEvolves(user, q, n.jobs[r.task.job.spec.id]); }
    }
  }

  lemma StepEvolves(user: string, q: Queue, e: Event, n: Queue)
    requires Inv(user, q) && Stepped(user, q, e, n)
    ensures Evolves(q, n)
  {
    var p := q.(jobs := Pruned(q.jobs, e.access, e.now));
    PruneKeeps(user, q, e.access, e.now);
    PrunedEvolves(user, q, e.access, e.now);
    BodyEvolves(user, p, e.access, e.now, e.request);
    ResumedEvolves(user, q, e.access, e.now, e.request);
    hide Evolves, Inv, DoCreate, DoCancel, DoClaim, DoReport, DoFinishCreate, DoFinishReport, Enabled;
    assert Evolves(p, n) ==> Evolves(q, n) by { if Evolves(p, n) { EvolvesTransitive(q, p, n); } }
    assert Evolves(q, q) && Evolves(p, p) by { SelfEvolves(q); SelfEvolves(p); }
  }

  lemma SelfEvolves(q: Queue)
    ensures Evolves(q, q)
  {}

  lemma {:induction false} RunEvolves(user: string, states: seq<Queue>, events: seq<Event>, i: nat, k: nat)
    requires Run(user, states, events) && i <= k < |states|
    ensures Evolves(states[i], states[k])
    decreases k - i
  {
    hide Evolves, Inv, Stepped;
    if i == k {
      SelfEvolves(states[i]);
    } else {
      RunEvolves(user, states, events, i, k - 1);
      RunInv(user, states, events, k - 1);
      assert Stepped(user, states[k - 1], events[k - 1], states[k]);
      StepEvolves(user, states[k - 1], events[k - 1], states[k]);
      EvolvesTransitive(states[i], states[k - 1], states[k]);
    }
  }

  /** Finished jobs are never touched again, and a claim never passes to another claimant: for any two
      moments of a run and the same row at both. */
  lemma RowsMoveForward(user: string, states: seq<Queue>, events: seq<Event>, i: nat, k: nat, id: string)
    requires Run(user, states, events) && i <= k < |states| && id in states[i].jobs
    requires id in states[k].jobs && states[k].jobs[id].serial == states[i].jobs[id].serial
    ensures Later(states[i].jobs[id], states[k].jobs[id])
  {
    RunEvolves(user, states, events, i, k);
    RunInv(user, states, events, i);
  }

  /** The row with this serial number, wherever it is. */
  predicate HasRow(q: Queue, id: string, serial: nat) {
    id in q.jobs && q.jobs[id].serial == serial
  }

  /** A job withdrawn through the cancel request has not been claimed before, and never will be. */
  lemma WithdrawnIsNeverClaimed(user: string, states: seq<Queue>, events: seq<Event>, i: nat, k: nat, id: string)
    requires Run(user, states, events) && i < |states| && k < |states|
    requires id in states[i].jobs && Withdrawn(states[i].jobs[id]) && HasRow(states[k], id, states[i].jobs[id].serial)
    ensures states[k].jobs[id].claim.None? && !states[k].jobs[id].status.Running?
  {
    RunInv(user, states, events, i);
    RunInv(user, states, events, k);
    if i <= k {
      RowsMoveForward(user, states, events, i, k, id);
    } else {
      RowsMoveForward(user, states, events, k, i, id);
    }
  }

  lemma AcceptedClaim(user: string, q: Queue, e: Event, n: Queue)
    requires Inv(user, q) && Stepped(user, q, e, n) && e.request.Claim?
    requires Serve(user, q, e.access, e.now, e.request).1.Shown?
    ensures e.request.id in n.jobs && n.jobs[e.request.id].status.Running?
            && n.jobs[e.request.id].claim == Some(e.request.claim)
  {
    hide Bounded, TasksOk, Pruned;
    PruneOnlyCloses(q, e.access, e.now);
  }

  /** An accepted claim, which is what a device waits for before it executes a job, is one of a row
      that runs under that claim; so the row is not withdrawn at any moment of the run. */
  lemma ExecutedIsNeverWithdrawn(user: string, states: seq<Queue>, events: seq<Event>, i: nat, k: nat)
    requires Run(user, states, events) && i < |events| && k < |states| && events[i].request.Claim?
    requires Serve(user, states[i], events[i].access, events[i].now, events[i].request).1.Shown?
    ensures var id := events[i].request.id;
            && id in states[i + 1].jobs && states[i + 1].jobs[id].status.Running?
            && states[i + 1].jobs[id].claim == Some(events[i].request.claim)
            && (HasRow(states[k], id, states[i + 1].jobs[id].serial) ==> !Withdrawn(states[k].jobs[id]))
  {
    var id := events[i].request.id;
    RunInv(user, states, events, i);
    AcceptedClaim(user, states[i], events[i], states[i + 1]);
    if HasRow(states[k], id, states[i + 1].jobs[id].serial) && Withdrawn(states[k].jobs[id]) {
      WithdrawnIsNeverClaimed(user, states, events, k, i + 1, id);
    }
  }

  // --- authority ---

  /** A suspended creation takes effect only if the browser that asked and the device it chose are
      both signed in, under the root that signed the job, at that very moment. */
  lemma CreationsAreCurrent(user: string, q: Queue, e: Event, n: Queue, id: string)
    requires Inv(user, q) && Stepped(user, q, e, n) && id in n.jobs && n.jobs[id].serial >= q.serial
    ensures e.request.FinishCreate? && e.request.task.CreateTask?
    ensures var t := e.request.task;
            && StillIn(e.access, t.actor, e.now) && StillIn(e.access, t.target, e.now)
            && e.access.value.root == n.jobs[id].root && t.target.id == n.jobs[id].spec.device
            && Verify(e.access.value.root, n.jobs[id].spec.signature, JobMessage(user, n.jobs[id].spec))
            && n.jobs[id] == t.job.(serial := q.serial) && n.serial == q.serial + 1 && id !in q.jobs
  {
    hide Refreshed, Bounded, JobOk;
    CreatedByFinish(user, q, e, n, id);
    LiveIff(e.access, e.request.task.actor, e.now);
    LiveIff(e.access, e.request.task.target, e.now);
    assert e.request.task in q.tasks;
  }

  lemma CreatedByFinish(user: string, q: Queue, e: Event, n: Queue, id: string)
    requires Inv(user, q) && Stepped(user, q, e, n) && id in n.jobs && n.jobs[id].serial >= q.serial
    ensures e.request.FinishCreate? && e.request.task.CreateTask? && n != q
  {
    hide Bounded, TasksOk, JobOk, Refreshed;
    PruneOnlyCloses(q, e.access, e.now);
  }

  /** Pruning gives out no receipts and no new rows. */
  lemma PruneOnlyCloses(q: Queue, access: Option<Access>, now: nat)
    ensures forall id | id in Pruned(q.jobs, access, now) ::
              id in q.jobs && Pruned(q.jobs, access, now)[id].serial == q.jobs[id].serial
              && Pruned(q.jobs, access, now)[id].receipt == q.jobs[id].receipt
              && Pruned(q.jobs, access, now)[id].spec == q.jobs[id].spec
  {}

  /** A suspended report was made by the device that owns the row, under the row's claim; and should
      that row still be there, it has only moved forward. */
  ghost predicate TaskRows(q: Queue) {
    forall t | t in q.tasks && t.ResultTask? ::
      && t.job.claim.Some? && t.job.serial < q.serial && Owns(t.actor, t.job)
      && (HasRow(q, t.job.spec.id, t.job.serial) ==> Later(t.job, q.jobs[t.job.spec.id]))
  }

  lemma NewReports(user: string, q: Queue, e: Event, n: Queue, t: Task)
    requires Inv(user, q) && Stepped(user, q, e, n) && t in n.tasks && t.ResultTask? && t !in q.tasks
    ensures t.job.claim.Some? && t.job.serial < q.serial && Owns(t.actor, t.job) && n.serial == q.serial
    ensures t.job.spec.id in n.jobs && n.jobs[t.job.spec.id] == t.job
  {
    hide Bounded, TasksOk, JobOk, Pruned, ValidSpec, ValidOutcome, Worker, Live, Fields;
    PruneOnlyCloses(q, e.access, e.now);
  }

  lemma StepKeepsTaskRows(user: string, q: Queue, e: Event, n: Queue)
    requires Inv(user, q) && Stepped(user, q, e, n) && TaskRows(q)
    ensures TaskRows(n)
  {
    StepEvolves(user, q, e, n);
    forall t | t in n.tasks && t.ResultTask?
      ensures t.job.claim.Some? && t.job.serial < n.serial && Owns(t.actor, t.job)
      ensures HasRow(n, t.job.spec.id, t.job.serial) ==> Later(t.job, n.jobs[t.job.spec.id])
    {
      hide Inv, Stepped;
      if t !in q.tasks { NewReports(user, q, e, n, t); }
    }
  }

  lemma {:induction false} RunKeepsTaskRows(user: string, states: seq<Queue>, events: seq<Event>, i: nat)
    requires Run(user, states, events) && i < |states|
    ensures TaskRows(states[i])
  {
    hide TaskRows, Inv, Stepped;
    if i > 0 {
      RunKeepsTaskRows(user, states, events, i - 1);
      RunInv(user, states, events, i - 1);
      assert Stepped(user, states[i - 1], events[i - 1], states[i]);
      StepKeepsTaskRows(user, states[i - 1], events[i - 1], states[i]);
    } else {
      assert TaskRows(states[0]) by { NoTasks(states[0]); }
    }
  }

  lemma NoTasks(q: Queue)
    requires q.tasks == {}
    ensures TaskRows(q)
  {}

  /** A suspended report takes effect only if the device that made it is signed in under the root of
      the job at that moment; it takes the signed outcome, and if the row is still the one the report
      was checked against, that row runs under the claim the device proved. */
  lemma ReportsAreCurrent(user: string, q: Queue, e: Event, n: Queue, id: string)
    requires Inv(user, q) && TaskRows(q) && Stepped(user, q, e, n)
    requires id in q.jobs && id in n.jobs && q.jobs[id].receipt != n.jobs[id].receipt
             && n.jobs[id].serial == q.jobs[id].serial
    ensures e.request.FinishReport? && e.request.task.ResultTask?
    ensures var t := e.request.task;
            && StillIn(e.access, t.actor, e.now) && e.access.value.root == t.job.root
            && q.jobs[id].status.Running? && t.job.spec.id == id
            && n.jobs[id].receipt == Some(t.outcome.receipt) && n.jobs[id].status == t.outcome.status
            && n.jobs[id].claim == q.jobs[id].claim
            && (t.job.serial == q.jobs[id].serial ==>
                  && q.jobs[id].claim == t.job.claim && t.actor.kind != "browser"
                  && t.actor.id == q.jobs[id].spec.device && t.actor.digest == q.jobs[id].digest)
            && Verify(e.access.value.root, t.outcome.receipt, ReceiptMessage(user, t.job.spec, t.outcome))
  {
    hide Bounded, JobOk;
    ReportedByFinish(user, q, e, n, id);
    LiveIff(e.access, e.request.task.actor, e.now);
    assert e.request.task in q.tasks;
  }

  lemma ReportedByFinish(user: string, q: Queue, e: Event, n: Queue, id: string)
    requires Inv(user, q) && Stepped(user, q, e, n)
    requires id in q.jobs && id in n.jobs && q.jobs[id].receipt != n.jobs[id].receipt
             && n.jobs[id].serial == q.jobs[id].serial
    ensures e.request.FinishReport? && e.request.task.ResultTask?
  {
    hide Bounded, TasksOk, JobOk, Pruned, ValidSpec, ValidOutcome, Worker, Live, Fields;
    PruneOnlyCloses(q, e.access, e.now);
  }

  // --- reports that reach another row ---

  /** What the second half of a report asks for. */
  ghost predicate Reports(q: Queue, access: Option<Access>, now: nat, t: Task)
    requires t.ResultTask?
  {
    && access.Some? && access.value.root == t.job.root && StillIn(access, t.actor, now)
    && t.job.spec.id in q.jobs && q.jobs[t.job.spec.id].status.Running?
    && q.jobs[t.job.spec.id].receipt != Some(t.outcome.receipt)
  }

  /** The step rewrites a row that is not the one the report was checked against. */
  predicate Misplaced(q: Queue, n: Queue, t: Task) {
    var id := t.job.spec.id;
    id in q.jobs && id in n.jobs && n.jobs[id] != q.jobs[id] && n.jobs[id].serial != t.job.serial
  }

  lemma FinishedReport(user: string, q: Queue, e: Event, n: Queue)
    requires Inv(user, q) && Stepped(user, q, e, n) && e.request.FinishReport? && e.request.task.ResultTask?
    ensures var t := e.request.task;
            if Reports(q, e.access, e.now, t) then
              var id := t.job.spec.id;
              id in n.jobs && n.jobs[id] != q.jobs[id] && n.jobs[id].serial == q.jobs[id].serial
            else n == q
  {
    hide Bounded, JobOk;
    LiveIff(e.access, e.request.task.actor, e.now);
    assert e.request.task in q.tasks;
  }

  /** Exactly when a suspended report lands on another row: its guards hold, and at some moment since it was
      checked the row it was checked against was gone. */
  lemma MisplacedIff(user: string, states: seq<Queue>, events: seq<Event>, i: nat, j: nat, t: Task)
    requires Run(user, states, events) && i <= j < |events|
    requires events[j].request == FinishReport(t) && t.ResultTask? && HasRow(states[i], t.job.spec.id, t.job.serial)
    ensures Misplaced(states[j], states[j + 1], t) <==>
            && Reports(states[j], events[j].access, events[j].now, t)
            && exists k :: i <= k <= j && !HasRow(states[k], t.job.spec.id, t.job.serial)
  {
    RunInv(user, states, events, i);
    RunInv(user, states, events, j);
    assert Stepped(user, states[j], events[j], states[j + 1]);
    FinishedReport(user, states[j], events[j], states[j + 1]);
    hide Stepped, StillIn;
    if k :| i <= k <= j && !HasRow(states[k], t.job.spec.id, t.job.serial) {
      RunEvolves(user, states, events, i, k);
      RunEvolves(user, states, events, k, j);
    }
  }

  const Again := 8 * DayMs
  const Name := "job00001"
  const Browser := Account.Device("browser1", "browser", "secret", 100 * DayMs, 0, "browser")
  const Machine := Account.Device("device01", "device", "token", 100 * DayMs, 0, "cli")
  const SignedIn := Access("root", [Browser, Machine])

  function Asked(user: string, at: nat): Spec {
    var s := Spec(Name, "device01", "sync", "", at + DayMs, Forged(""));
    s.(signature := Signature.Signed("root", JobMessage(user, s)))
  }

  function NewRow(user: string, at: nat, serial: nat): Job {
    Job(Asked(user, at), "root", "token", at, at, Queued, NoCode, None, None, serial)
  }

  function Success(user: string): Outcome {
    var o := Outcome(Succeeded, "synced", 0, Forged(""));
    o.(receipt := Signature.Signed("root", ReceiptMessage(user, Asked(user, 0), o)))
  }

  /** The tasks of the run below: two creations under one id, and the report for the first. */
  function Making(user: string, at: nat, serial: nat): Task {
    CreateTask(Browser, Machine, NewRow(user, at, serial))
  }

  function Running1(user: string): Job {
    NewRow(user, 0, 0).(status := Running, claim := Some("claim001"))
  }

  function Running2(user: string): Job {
    NewRow(user, Again, 1).(status := Running, claim := Some("claim002"))
  }

  function Reporting(user: string): Task {
    ResultTask(Machine, Running1(user), Success(user))
  }

  function Reported2(user: string): Job {
    Running2(user).(status := Succeeded, code := Reported("synced", 0), receipt := Some(Success(user).receipt))
  }

  lemma Sessions(now: nat)
    requires now <= Again
    ensures Session(SignedIn.devices, "device01", now) == Some(Machine)
            && Worker(SignedIn.devices, "device01", now) == Some(Machine)
    ensures Jobs.Live(Some(SignedIn), Browser, now) && Jobs.Live(Some(SignedIn), Machine, now)
    ensures StillIn(Some(SignedIn), Machine, now)
  {
    LiveIff(Some(SignedIn), Browser, now);
    LiveIff(Some(SignedIn), Machine, now);
    assert SignedIn.devices[1..] == [Machine];
    assert Browser in SignedIn.devices && Machine in SignedIn.devices;
  }

  lemma LateCreate(user: string, q: Queue, at: nat)
    requires at <= Again && Pruned(q.jobs, Some(SignedIn), at) == map[]
    ensures var j := NewRow(user, at, q.serial);
            Serve(user, q, Some(SignedIn), at, Create(Browser, Asked(user, at))).0
              == Queue(map[], q.tasks + {CreateTask(Browser, Machine, j)}, q.serial)
  {
    Sessions(at);
    assert ValidId(Name) && ValidId("device01");
    hide Fields, Numeral;
    assert JobMessage(user, Asked(user, at)) == JobMessage(user, Asked(user, at).(signature := Forged("")));
  }

  lemma LateFinish(user: string, q: Queue, at: nat)
    requires at <= Again && q.jobs == map[]
    ensures var t := CreateTask(Browser, Machine, NewRow(user, at, q.serial));
            Serve(user, q, Some(SignedIn), at, FinishCreate(t, "")).0
              == q.(jobs := map[Name := t.job], serial := q.serial + 1)
  {
    Sessions(at);
    assert Busy(q.jobs, "device01") == {};
  }

  lemma LateClaim(user: string, q: Queue, at: nat, serial: nat, claim: string)
    requires at <= Again && q.jobs == map[Name := NewRow(user, at, serial)] && ValidId(claim)
    ensures Serve(user, q, Some(SignedIn), at, Claim(Machine, Name, claim)).0 ==
            q.(jobs := map[Name := NewRow(user, at, serial).(status := Running, claim := Some(claim))])
  {
    Sessions(at);
    assert Pruned(q.jobs, Some(SignedIn), at) == q.jobs;
  }

  lemma LateReport(user: string, q: Queue)
    requires q.jobs == map[Name := Running1(user)]
    ensures Serve(user, q, Some(SignedIn), 0, Report(Machine, Name, "claim001", Success(user))).0
            == q.(tasks := q.tasks + {Reporting(user)})
  {
    Sessions(0);
    assert Pruned(q.jobs, Some(SignedIn), 0) == q.jobs;
    assert ValidId("claim001") && ValidOutcome(Success(user));
    hide Fields, Numeral;
    assert ReceiptMessage(user, Asked(user, 0), Success(user))
           == ReceiptMessage(user, Asked(user, 0), Success(user).(receipt := Forged("")));
  }

  lemma LateLanding(user: string, q: Queue)
    requires q.jobs == map[Name := Running2(user)]
    ensures Serve(user, q, Some(SignedIn), Again, FinishReport(Reporting(user))).0
            == q.(jobs := map[Name := Reported2(user)])
    ensures Misplaced(q, q.(jobs := map[Name := Reported2(user)]), Reporting(user))
  {
    Sessions(Again);
  }

  lemma RunGrows(user: string, states: seq<Queue>, events: seq<Event>, e: Event, n: Queue)
    requires Run(user, states, events) && Stepped(user, states[|states| - 1], e, n)
    ensures Run(user, states + [n], events + [e])
  {}

  /** The first half: a job is asked for, claimed, and its report waits. */
  lemma FirstReport(user: string) returns (states: seq<Queue>, events: seq<Event>)
    ensures Run(user, states, events) && |events| == 4
    ensures states[4] == Queue(map[Name := Running1(user)], {Making(user, 0, 0), Reporting(user)}, 1)
  {
    var q0 := Queue(map[], {}, 0);
    var q1 := Queue(map[], {Making(user, 0, 0)}, 0);
    var q2 := Queue(map[Name := NewRow(user, 0, 0)], {Making(user, 0, 0)}, 1);
    var q3 := q2.(jobs := map[Name := Running1(user)]);
    var q4 := q3.(tasks := {Making(user, 0, 0), Reporting(user)});
    var e0 := Event(Some(SignedIn), 0, Create(Browser, Asked(user, 0)));
    var e1 := Event(Some(SignedIn), 0, FinishCreate(Making(user, 0, 0), ""));
    var e2 := Event(Some(SignedIn), 0, Claim(Machine, Name, "claim001"));
    var e3 := Event(Some(SignedIn), 0, Report(Machine, Name, "claim001", Success(user)));
    LateCreate(user, q0, 0);
    LateFinish(user, q1, 0);
    LateClaim(user, q2, 0, 0, "claim001");
    LateReport(user, q3);
    hide Serve, Asked, NewRow, Running1, Success, Reporting;
    assert Run(user, [q0], []);
    RunGrows(user, [q0], [], e0, q1);
    RunGrows(user, [q0] + [q1], [] + [e0], e1, q2);
    RunGrows(user, [q0] + [q1] + [q2], [] + [e0] + [e1], e2, q3);
    RunGrows(user, [q0] + [q1] + [q2] + [q3], [] + [e0] + [e1] + [e2], e3, q4);
    states, events := [q0] + [q1] + [q2] + [q3] + [q4], [] + [e0] + [e1] + [e2] + [e3];
  }

  /** A run in which a report lands on a row that runs under a claim it never proved: it waits for its check for
      eight days; meanwhile its row is pruned, and the id comes back. */
  lemma ReportLandsLater(user: string) returns (states: seq<Queue>, events: seq<Event>)
    ensures Run(user, states, events) && |events| == 8 && events[7].request == FinishReport(Reporting(user))
    ensures Misplaced(states[7], states[8], Reporting(user)) && states[8].jobs == map[Name := Reported2(user)]
    ensures Reported2(user).claim == Some("claim002") && Reporting(user).job.claim == Some("claim001")
    ensures Reported2(user).receipt == Some(Reporting(user).outcome.receipt)
  {
    states, events := FirstReport(user);
    var q4 := states[4];
    var q5 := Queue(map[], q4.tasks + {Making(user, Again, 1)}, 1);
    var q6 := Queue(map[Name := NewRow(user, Again, 1)], q5.tasks, 2);
    var q7 := q6.(jobs := map[Name := Running2(user)]);
    var q8 := q7.(jobs := map[Name := Reported2(user)]);
    var e4 := Event(Some(SignedIn), Again, Create(Browser, Asked(user, Again)));
    var e5 := Event(Some(SignedIn), Again, FinishCreate(Making(user, Again, 1), ""));
    var e6 := Event(Some(SignedIn), Again, Claim(Machine, Name, "claim002"));
    var e7 := Event(Some(SignedIn), Again, FinishReport(Reporting(user)));
    assert Pruned(q4.jobs, Some(SignedIn), Again) == map[];
    LateCreate(user, q4, Again);
    LateFinish(user, q5, Again);
    LateClaim(user, q6, Again, 1, "claim002");
    LateLanding(user, q7);
    hide Serve, Asked, NewRow, Success, Misplaced;
    RunGrows(user, states, events, e4, q5);
    RunGrows(user, states + [q5], events + [e4], e5, q6);
    RunGrows(user, states + [q5] + [q6], events + [e4] + [e5], e6, q7);
    RunGrows(user, states + [q5] + [q6] + [q7], events + [e4] + [e5] + [e6], e7, q8);
    states, events := states + [q5] + [q6] + [q7] + [q8], events + [e4] + [e5] + [e6] + [e7];
  }
}
