/** The job queue in its own form: rows read, changed, saved and deleted (cloud/src/jobs.ts). */
module JobsCode {
  import opened Text
  import opened Wire
  import opened Jobs
  import opened JobRuns

  /** What may be asked: an update names its version, and nothing waits longer than a day. */
  predicate Askable(s: Spec, now: nat) {
    && ValidId(s.id) && ValidId(s.device) && now < s.expires && s.expires - now <= 86400000
    && (s.action == "sync" || s.action == "inspect" || s.action == "update")
    && (s.action != "update" ==> s.version == "") && (s.action == "update" ==> ValidVersion(s.version))
  }

  /** The row takes this claim: it waits for one, or runs under it. */
  predicate Claimable(j: Job, actor: Device, claim: string) {
    actor.kind != "browser" && actor.id == j.spec.device && actor.digest == j.digest && ValidId(claim)
    && (j.status.Queued? || (j.status.Running? && j.claim == Some(claim)))
  }

  /** The rows other than `id` are the same. */
  predicate SameOthers(jobs: map<string, Job>, after: map<string, Job>, id: string) {
    jobs - {id} == after - {id}
  }

  lemma RowsAreKeyed(user: string, q: Queue, access: Option<Access>, now: nat)
    requires Inv(user, q)
    ensures var rows := Pruned(q.jobs, access, now); forall k | k in rows :: rows[k].spec.id == k && JobOk(rows[k])
  {
    PruneKeeps(user, q, access, now);
  }

  /** A row that is still active was active before, its device is entitled to it, and if it waits it has not expired. */
  lemma ActiveRow(jobs: map<string, Job>, access: Option<Access>, now: nat, rows: map<string, Job>, id: string)
    requires RowsOutcome(jobs, access, now, rows)
    ensures id in rows && (rows[id].status.Queued? || rows[id].status.Running?) ==>
              && id in jobs && rows[id] == jobs[id] && Entitled(rows[id], access, now)
              && (rows[id].status.Queued? ==> now < rows[id].spec.expires)
    ensures forall j: Job, k: Job | j.spec == k.spec && j.root == k.root && j.digest == k.digest ::
              Entitled(j, access, now) == Entitled(k, access, now)
  {
    hide FirstSession;
  }

  lemma ServedClaim(user: string, q: Queue, e: Event)
    requires e.request.Claim?
    ensures var p := DoClaim(q.(jobs := Pruned(q.jobs, e.access, e.now)), e.now, e.request.actor, e.request.id,
                             e.request.claim);
            Stepped(user, q, e, p.0) && Serve(user, q, e.access, e.now, e.request) == p
  {}

  /** At no moment of the run the row is withdrawn. */
  ghost predicate NotWithdrawn(states: seq<Queue>, id: string, serial: nat) {
    forall i | 0 <= i < |states| && HasRow(states[i], id, serial) :: !Withdrawn(states[i].jobs[id])
  }

  lemma NeverWithdrawn(user: string, states: seq<Queue>, events: seq<Event>)
    requires Run(user, states, events) && events != [] && events[|events| - 1].request.Claim?
    requires var q, e := states[|events| - 1], events[|events| - 1]; Serve(user, q, e.access, e.now, e.request).1.Shown?
    ensures var n, id := states[|events|], events[|events| - 1].request.id;
            id in n.jobs && NotWithdrawn(states, id, n.jobs[id].serial)
  {
    hide Serve, Stepped;
    var k := |events| - 1;
    ExecutedIsNeverWithdrawn(user, states, events, k, k);
    var id := events[k].request.id;
    forall i | 0 <= i < |states| && HasRow(states[i], id, states[k + 1].jobs[id].serial)
      ensures !Withdrawn(states[i].jobs[id]) {
      ExecutedIsNeverWithdrawn(user, states, events, k, i);
    }
  }

  lemma ServedCancel(user: string, q: Queue, e: Event)
    requires e.request.Cancel?
    ensures var p := DoCancel(q.(jobs := Pruned(q.jobs, e.access, e.now)), e.now, e.request.actor, e.request.id);
            Stepped(user, q, e, p.0) && Serve(user, q, e.access, e.now, e.request) == p
  {}

  lemma ServedCreation(user: string, q: Queue, e: Event)
    requires e.request.FinishCreate? && e.request.task in q.tasks && e.request.task.CreateTask?
    requires Full(q.jobs) ==> Oldest(q.jobs, e.request.victim)
    ensures var p := DoFinishCreate(q, e.access, e.now, e.request.task, e.request.victim);
            Stepped(user, q, e, p.0) && Serve(user, q, e.access, e.now, e.request) == p
  {
    hide DoFinishCreate;
  }

  /** What the second half of a creation does. */
  lemma CreationIs(q: Queue, access: Option<Access>, now: nat, t: Task, victim: string)
    requires t.CreateTask? && (Full(q.jobs) ==> Oldest(q.jobs, victim))
    ensures var (n, reply) := DoFinishCreate(q, access, now, t, victim);
            var id := t.job.spec.id;
            && (reply.Shown? <==>
                  && access.Some? && access.value.root == t.job.root && StillIn(access, t.actor, now)
                  && StillIn(access, t.target, now)
                  && if id in q.jobs then q.jobs[id].spec.signature == t.job.spec.signature
                     else |Unfinished(q.jobs, t.job.spec.device)| < 4
                          && (|q.jobs| < 200 || exists k | k in q.jobs :: q.jobs[k].status !in {Queued, Running}))
            && (reply.Shown? ==>
                  id in n.jobs && n.jobs[id] == reply.job && reply.job.spec.signature == t.job.spec.signature)
            && (reply.Shown? && id !in q.jobs ==>
                  && n.jobs == (if |q.jobs| < 200 then q.jobs else q.jobs - {victim})[id := reply.job]
                  && reply.job == t.job.(serial := q.serial)
                  && (|q.jobs| >= 200 ==>
                        && victim in q.jobs && q.jobs[victim].status !in {Queued, Running}
                        && forall k | k in q.jobs && q.jobs[k].status !in {Queued, Running} ::
                             q.jobs[victim].created <= q.jobs[k].created))
            && (!reply.Shown? || id in q.jobs ==> n == q)
  {
    LiveIff(access, t.actor, now);
    LiveIff(access, t.target, now);
    BusyIs(q.jobs, t.job.spec.device);
    hide StillIn, Busy, Unfinished, Live;
  }

  /** The table keeps, as a ghost, the run it has been through. */
  class JobTable {
    const user: string
    var jobs: map<string, Job>
    var tasks: set<Task>
    var serial: nat
    ghost var states: seq<Queue>
    ghost var events: seq<Event>

    function Value(): Queue
      reads this
    {
      Queue(jobs, tasks, serial)
    }

    ghost predicate Valid()
      reads this
    {
      Run(user, states, events) && Value() == states[|states| - 1]
    }

    constructor (user: string)
      ensures this.user == user && Valid() && Value() == Queue(map[], {}, 0) && events == []
    {
      this.user, jobs, tasks, serial := user, map[], {}, 0;
      states, events := [Queue(map[], {}, 0)], [];
    }

    /** The request was served: the run is longer by it. */
    ghost method Record(e: Event)
      requires Run(user, states, events) && Stepped(user, states[|states| - 1], e, Value())
      modifies this`states, this`events
      ensures Valid() && Inv(user, Value()) && states == old(states) + [Value()] && events == old(events) + [e]
    {
      RunGrows(user, states, events, e, Value());
      states, events := states + [Value()], events + [e];
      RunInv(user, states, events, |events|);
    }

    /** `prune`: every row is visited, in any order; old ones go, stale ones are closed. */
    method Prune(access: Option<Access>, now: nat)
      modifies this`jobs
      ensures jobs == Pruned(old(jobs), access, now)
      ensures RowsOutcome(old(jobs), access, now, jobs)
    {
      PrunedIs(jobs, access, now);
      hide RowsOutcome, Refreshed;
      var rows := jobs;
      var left := rows.Keys;
      while left != {}
        invariant left <= rows.Keys
        invariant forall id | id in left :: id in jobs && jobs[id] == rows[id]
        invariant forall id | id in jobs :: id in rows
        invariant forall id | id in rows && id !in left :: id in jobs <==> rows[id].created >= now - WeekMs
        invariant forall id | id in jobs && id !in left :: jobs[id] == Refreshed(rows[id], access, now)
        decreases left
      {
        var id :| id in left;
        left := left - {id};
        PruneRow(id, rows[id], access, now);
      }
    }

    method PruneRow(id: string, row: Job, access: Option<Access>, now: nat)
      requires id in jobs && jobs[id] == row
      modifies this`jobs
      ensures jobs == if row.created < now - WeekMs then old(jobs) - {id}
                      else old(jobs)[id := Refreshed(row, access, now)]
    {
      if row.created < now - WeekMs {
        jobs := jobs - {id};
        return;
      }
      if !(row.status in {Queued, Running}) {
        assert jobs == old(jobs)[id := row];
        return;
      }
      var j := row;
      var d := if access.None? then None else Session(access.value.devices, j.spec.device, now);
      if access.None? || access.value.root != j.root || d.None? || d.value.digest != j.digest {
        j := j.(status := Cancelled, code := AccessChanged);
      } else if j.status == Queued && j.spec.expires <= now {
        j := j.(status := Expired, code := NotReceived);
      } else if j.status == Running && j.updated < now - 600000 {
        j := j.(status := Failed, code := ReceiptMissing);
      } else {
        assert jobs == old(jobs)[id := row];
        return;
      }
      j := j.(updated := now);
      jobs := jobs[id := j];
    }

    /** The first of the finished rows in order of creation, if any. */
    method FindOldest() returns (victim: Option<string>)
      ensures victim.Some? ==>
                && victim.value in jobs && jobs[victim.value].status !in {Queued, Running}
                && forall k | k in jobs && jobs[k].status !in {Queued, Running} ::
                     jobs[victim.value].created <= jobs[k].created
      ensures victim.None? ==> forall id | id in jobs :: jobs[id].status in {Queued, Running}
    {
      victim := None;
      var left := jobs.Keys;
      while left != {}
        invariant left <= jobs.Keys
        invariant victim.Some? ==> victim.value in jobs && !Active(jobs[victim.value])
        invariant victim.Some? ==> forall k | k in jobs && k !in left && !Active(jobs[k]) ::
                    jobs[victim.value].created <= jobs[k].created
        invariant victim.None? ==> forall k | k in jobs && k !in left :: Active(jobs[k])
        decreases left
      {
        var k :| k in left;
        if !Active(jobs[k]) && (victim.None? || jobs[k].created < jobs[victim.value].created) {
          victim := Some(k);
        }
        left := left - {k};
      }
    }

    /** The transaction that ends a creation. */
    method WriteCreation(access: Option<Access>, now: nat, t: Task) returns (reply: Reply, ghost victim: string)
      requires t.CreateTask?
      modifies this`jobs, this`serial
      ensures Full(old(jobs)) ==> Oldest(old(jobs), victim)
      ensures (Value(), reply) == DoFinishCreate(old(Value()), access, now, t, victim)
    {
      victim := "";
      var oldest := FindOldest();
      if oldest.Some? {
        victim := oldest.value;
      }
      if access.None? || access.value.root != t.job.root || !Live(access, t.actor, now)
        || !Live(access, t.target, now) {
        reply := Refused(409);
        return;
      }
      var id := t.job.spec.id;
      if id in jobs {
        reply := if jobs[id].spec.signature == t.job.spec.signature then Shown(jobs[id]) else Refused(409);
        return;
      }
      if |Busy(jobs, t.job.spec.device)| >= 4 {
        reply := Refused(429);
        return;
      }
      if |jobs| >= 200 {
        if oldest.None? {
          reply := Refused(429);
          return;
        }
        jobs := jobs - {oldest.value};
      }
      var j := t.job.(serial := serial);
      jobs := jobs[id := j];
      serial := serial + 1;
      reply := Shown(j);
    }

    /** A creation ends with its row in the table, exactly if browser, device and root still stand and there is
        room, or the same request has made it before; a full table gives up an oldest finished row. */
    method FinishCreation(access: Option<Access>, now: nat, t: Task) returns (reply: Reply, ghost victim: string)
      requires Valid() && t in tasks && t.CreateTask?
      modifies this`jobs, this`serial, this`states, this`events
      ensures Valid() && Inv(user, Value()) && events == old(events) + [Event(access, now, FinishCreate(t, victim))]
      ensures reply.Shown? <==>
              && access.Some? && access.value.root == t.job.root && StillIn(access, t.actor, now)
              && StillIn(access, t.target, now)
              && if t.job.spec.id in old(jobs) then old(jobs)[t.job.spec.id].spec.signature == t.job.spec.signature
                 else |Unfinished(old(jobs), t.job.spec.device)| < 4
                      && (|old(jobs)| < 200 || exists id | id in old(jobs) ::
                            old(jobs)[id].status !in {Queued, Running})
      ensures reply.Shown? ==>
                t.job.spec.id in jobs && jobs[t.job.spec.id] == reply.job
                && reply.job.spec.signature == t.job.spec.signature
      ensures reply.Shown? && t.job.spec.id !in old(jobs) ==>
                && jobs == (if |old(jobs)| < 200 then old(jobs) else old(jobs) - {victim})[t.job.spec.id := reply.job]
                && reply.job == t.job.(serial := old(serial))
                && (|old(jobs)| >= 200 ==>
                      && victim in old(jobs) && old(jobs)[victim].status !in {Queued, Running}
                      && forall k | k in old(jobs) && old(jobs)[k].status !in {Queued, Running} ::
                           old(jobs)[victim].created <= old(jobs)[k].created)
      ensures !reply.Shown? || t.job.spec.id in old(jobs) ==> Value() == old(Value())
    {
      ghost var before := Value();
      RunInv(user, states, events, |events|);
      hide Inv, Run, StillIn, Unfinished, Stepped, DoFinishCreate, Serve;
      reply, victim := WriteCreation(access, now, t);
      ghost var e := Event(access, now, FinishCreate(t, victim));
      ServedCreation(user, before, e);
      CreationIs(before, access, now, t, victim);
      Record(e);
    }

    /** A poll lists exactly the device's own jobs that wait or run. */
    method Poll(access: Option<Access>, now: nat, actor: Device) returns (reply: Reply)
      requires Valid()
      modifies this`jobs, this`states, this`events
      ensures Valid() && Inv(user, Value()) && events == old(events) + [Event(access, now, Request.Poll(actor))]
      ensures RowsOutcome(old(jobs), access, now, jobs)
      ensures reply.Listed? <==> actor.kind != "browser"
      ensures reply.Listed? ==> forall id ::
                id in reply.ids <==> id in jobs && jobs[id].status in {Queued, Running}
                                     && jobs[id].spec.device == actor.id && jobs[id].digest == actor.digest
    {
      Prune(access, now);
      if actor.kind == "browser" {
        reply := Refused(403);
      } else {
        reply := Listed(set id | id in Busy(jobs, actor.id) && jobs[id].digest == actor.digest);
      }
      hide RowsOutcome, Pruned;
      Record(Event(access, now, Request.Poll(actor)));
    }

    /** A creation waits exactly if a browser asks for a valid job, for a device that is signed in, and the
        account's root signed it. */
    method StartCreation(access: Option<Access>, now: nat, actor: Device, spec: Spec) returns (reply: Reply)
      requires Valid()
      modifies this
      ensures Valid() && Inv(user, Value()) && events == old(events) + [Event(access, now, Create(actor, spec))]
      ensures jobs == Pruned(old(jobs), access, now) && serial == old(serial) && old(tasks) <= tasks
      ensures reply.Suspended? <==>
              && actor.kind == "browser" && Askable(spec, now) && access.Some?
              && (exists d ::
                    d in access.value.devices && d.id == spec.device && d.expires > now && d.kind != "browser")
              && Verify(access.value.root, spec.signature, JobMessage(user, spec))
      ensures !reply.Suspended? ==> tasks == old(tasks)
    {
      Prune(access, now);
      if actor.kind != "browser" {
        reply := Refused(403);
      } else if !ValidSpec(spec, now) {
        reply := Refused(400);
      } else if access.None? {
        reply := Refused(500);
      } else {
        var d := Worker(access.value.devices, spec.device, now);
        WorkerIff(access.value.devices, spec.device, now);
        if d.None? {
          reply := Refused(404);
        } else {
          var j := Job(spec, access.value.root, d.value.digest, now, now, Queued, NoCode, None, None, serial);
          if !Verify(j.root, spec.signature, JobMessage(user, spec)) {
            reply := Refused(403);
          } else {
            tasks := tasks + {CreateTask(actor, d.value, j)};
            reply := Suspended;
          }
        }
      }
      Record(Event(access, now, Create(actor, spec)));
    }

    method WriteClaim(now: nat, actor: Device, id: string, claim: string) returns (reply: Reply)
      requires forall k | k in jobs :: jobs[k].spec.id == k
      modifies this`jobs
      ensures (Value(), reply) == DoClaim(old(Value()), now, actor, id, claim)
      ensures reply.Shown? <==> id in old(jobs) && Claimable(old(jobs)[id], actor, claim)
      ensures SameOthers(old(jobs), jobs, id) && (!reply.Shown? ==> jobs == old(jobs))
      ensures reply.Shown? ==>
                id in jobs && jobs[id] == reply.job && reply.job.status.Running? && reply.job.claim == Some(claim)
    {
      if id !in jobs {
        return Refused(404);
      }
      var j := jobs[id];
      if actor.kind == "browser" || actor.id != j.spec.device || actor.digest != j.digest {
        return Refused(403);
      }
      if !ValidId(claim) {
        return Refused(400);
      }
      if j.status == Running && j.claim == Some(claim) {
        return Shown(j);
      }
      if j.status != Queued {
        return Refused(409);
      }
      j := j.(status := Running, claim := Some(claim), updated := now);
      jobs := jobs[j.spec.id := j];
      reply := Shown(j);
    }

    /** A claim is accepted exactly for a row of the device's own that is free, or runs under this very claim; the
        row then runs under it, and is not withdrawn at any moment before. */
    method ClaimJob(access: Option<Access>, now: nat, actor: Device, id: string, claim: string) returns (reply: Reply)
      requires Valid()
      modifies this`jobs, this`states, this`events
      ensures Valid() && Inv(user, Value()) && events == old(events) + [Event(access, now, Claim(actor, id, claim))]
      ensures var rows := Pruned(old(jobs), access, now);
              && (reply.Shown? <==> id in rows && Claimable(rows[id], actor, claim))
              && SameOthers(rows, jobs, id) && (!reply.Shown? ==> jobs == rows)
      ensures reply.Shown? ==>
                && id in jobs && jobs[id] == reply.job && reply.job.status.Running? && reply.job.claim == Some(claim)
                && NotWithdrawn(states, id, reply.job.serial)
      ensures reply.Shown? ==>
                && id in old(jobs) && Entitled(reply.job, access, now)
                && (old(jobs)[id].status.Queued? ==> now < reply.job.spec.expires)
    {
      ghost var before := Value();
      ghost var e := Event(access, now, Claim(actor, id, claim));
      RunInv(user, states, events, |events|);
      hide Inv, Pruned, Stepped, Claimable, Serve, Run, SameOthers, NotWithdrawn, Entitled;
      reply := PruneAndClaim(access, now, actor, id, claim);
      Record(e);
      if reply.Shown? {
        NeverWithdrawn(user, states, events);
      }
    }

    method PruneAndClaim(access: Option<Access>, now: nat, actor: Device, id: string, claim: string)
      returns (reply: Reply)
      requires Inv(user, Value())
      modifies this`jobs
      ensures var e := Event(access, now, Claim(actor, id, claim));
              Stepped(user, old(Value()), e, Value()) && reply == Serve(user, old(Value()), access, now, e.request).1
      ensures var rows := Pruned(old(jobs), access, now);
              && (reply.Shown? <==> id in rows && Claimable(rows[id], actor, claim))
              && SameOthers(rows, jobs, id) && (!reply.Shown? ==> jobs == rows)
      ensures reply.Shown? ==>
                id in jobs && jobs[id] == reply.job && reply.job.status.Running? && reply.job.claim == Some(claim)
      ensures reply.Shown? ==>
                && id in old(jobs) && Entitled(reply.job, access, now)
                && (old(jobs)[id].status.Queued? ==> now < reply.job.spec.expires)
    {
      ghost var before := Value();
      Prune(access, now);
      RowsAreKeyed(user, before, access, now);
      ActiveRow(before.jobs, access, now, jobs, id);
      hide RowsOutcome, Entitled, Inv, Pruned, DoClaim, Stepped, Claimable, Serve, JobOk, SameOthers;
      ServedClaim(user, before, Event(access, now, Claim(actor, id, claim)));
      reply := WriteClaim(now, actor, id, claim);
    }

    method WriteCancel(now: nat, actor: Device, id: string) returns (reply: Reply)
      requires forall k | k in jobs :: jobs[k].spec.id == k
      modifies this`jobs
      ensures (Value(), reply) == DoCancel(old(Value()), now, actor, id)
      ensures reply.Shown? <==> id in old(jobs) && actor.kind == "browser" && old(jobs)[id].status.Queued?
      ensures SameOthers(old(jobs), jobs, id) && (!reply.Shown? ==> jobs == old(jobs))
      ensures reply.Shown? ==>
                id in jobs && jobs[id] == reply.job && reply.job == old(jobs)[id].(status := Cancelled, updated := now)
    {
      if id !in jobs {
        return Refused(404);
      }
      if actor.kind != "browser" {
        return Refused(403);
      }
      var j := jobs[id];
      if j.status != Queued {
        return Refused(409);
      }
      j := j.(status := Cancelled, updated := now);
      jobs := jobs[j.spec.id := j];
      reply := Shown(j);
    }

    /** A cancellation is accepted exactly from a browser, for a row that still waits; the row is then
        withdrawn, and at no moment before was it claimed. */
    method CancelJob(access: Option<Access>, now: nat, actor: Device, id: string) returns (reply: Reply)
      requires Valid()
      modifies this`jobs, this`states, this`events
      ensures Valid() && Inv(user, Value()) && events == old(events) + [Event(access, now, Cancel(actor, id))]
      ensures var rows := Pruned(old(jobs), access, now);
              && (reply.Shown? <==> id in rows && actor.kind == "browser" && rows[id].status.Queued?)
              && SameOthers(rows, jobs, id) && (!reply.Shown? ==> jobs == rows)
      ensures reply.Shown? ==>
                && id in jobs && jobs[id] == reply.job && Withdrawn(reply.job)
                && forall i | 0 <= i < |states| && HasRow(states[i], id, reply.job.serial) ::
                     states[i].jobs[id].claim.None?
    {
      ghost var before := Value();
      RunInv(user, states, events, |events|);
      Prune(access, now);
      RowsAreKeyed(user, before, access, now);
      hide Inv, Pruned, DoCancel, Stepped, Serve, Run, SameOthers;
      ServedCancel(user, before, Event(access, now, Cancel(actor, id)));
      reply := WriteCancel(now, actor, id);
      Record(Event(access, now, Cancel(actor, id)));
      if reply.Shown? {
        forall i | 0 <= i < |states| && HasRow(states[i], id, reply.job.serial) ensures states[i].jobs[id].claim.None? {
          WithdrawnIsNeverClaimed(user, states, events, |events|, i, id);
        }
      }
    }

    /** A report waits exactly if the row is the device's own, the device proves its claim, and the root of the
        job signed the outcome. */
    method StartReporting(access: Option<Access>, now: nat, actor: Device, id: string, claim: string, o: Outcome)
      returns (reply: Reply)
      requires Valid()
      modifies this
      ensures Valid() && Inv(user, Value()) && events == old(events) + [Event(access, now, Report(actor, id, claim, o))]
      ensures jobs == Pruned(old(jobs), access, now) && serial == old(serial)
      ensures reply.Suspended? <==>
              && id in jobs && actor.kind != "browser" && actor.id == jobs[id].spec.device
              && actor.digest == jobs[id].digest && ValidId(claim) && jobs[id].claim == Some(claim)
              && o.status in {Succeeded, Failed, RestartRequired} && o.code in Codes && o.count <= 100000
              && Verify(jobs[id].root, o.receipt, ReceiptMessage(user, jobs[id].spec, o))
      ensures tasks == if reply.Suspended? then old(tasks) + {ResultTask(actor, jobs[id], o)} else old(tasks)
    {
      Prune(access, now);
      if id !in jobs {
        reply := Refused(404);
      } else if !Owns(actor, jobs[id]) {
        reply := Refused(403);
      } else if !ValidId(claim) {
        reply := Refused(400);
      } else if jobs[id].claim != Some(claim) {
        reply := Refused(409);
      } else if !ValidOutcome(o) {
        reply := Refused(400);
      } else if !Verify(jobs[id].root, o.receipt, ReceiptMessage(user, jobs[id].spec, o)) {
        reply := Refused(403);
      } else {
        tasks := tasks + {ResultTask(actor, jobs[id], o)};
        reply := Suspended;
      }
      Record(Event(access, now, Report(actor, id, claim, o)));
    }

    method WriteReport(access: Option<Access>, now: nat, t: Task) returns (reply: Reply)
      requires t.ResultTask? && forall k | k in jobs :: jobs[k].spec.id == k
      modifies this`jobs
      ensures (Value(), reply) == DoFinishReport(old(Value()), access, now, t)
    {
      var id := t.job.spec.id;
      if access.None? || access.value.root != t.job.root || !Live(access, t.actor, now) || id !in jobs {
        return Refused(409);
      }
      var current := jobs[id];
      if current.receipt == Some(t.outcome.receipt) {
        return Shown(current);
      }
      if current.status != Running {
        return Refused(409);
      }
      current := current.(status := t.outcome.status, code := Reported(t.outcome.code, t.outcome.count),
                          receipt := Some(t.outcome.receipt), updated := now);
      jobs := jobs[current.spec.id := current];
      reply := Shown(current);
    }

    /** What follows the check of a receipt: the row takes the outcome exactly if it runs and the device is signed in
        under the job's root; if it still is the row that was checked, it runs under the claim that the device
        proved. */
    method FinishReporting(access: Option<Access>, now: nat, t: Task) returns (reply: Reply)
      requires Valid() && t in tasks && t.ResultTask?
      modifies this`jobs, this`states, this`events
      ensures Valid() && Inv(user, Value()) && events == old(events) + [Event(access, now, FinishReport(t))]
      ensures var id := t.job.spec.id;
              && SameOthers(old(jobs), jobs, id)
              && (jobs != old(jobs) <==> Reports(old(Value()), access, now, t))
              && (reply.Shown? ==> id in jobs && jobs[id] == reply.job && reply.job.receipt == Some(t.outcome.receipt))
              && (jobs != old(jobs) ==>
                    && reply.Shown? && reply.job.status == t.outcome.status && reply.job.claim == old(jobs)[id].claim
                    && (reply.job.serial == t.job.serial ==>
                          && reply.job.claim == t.job.claim && t.actor.kind != "browser"
                          && t.actor.id == reply.job.spec.device && t.actor.digest == reply.job.digest))
    {
      ghost var before := Value();
      RunInv(user, states, events, |events|);
      RunKeepsTaskRows(user, states, events, |events|);
      hide Inv, Run, Reports;
      reply := WriteReport(access, now, t);
      ghost var e := Event(access, now, FinishReport(t));
      assert Stepped(user, before, e, Value());
      FinishedReport(user, before, e, Value());
      Record(e);
    }
  }

  lemma {:induction false} WorkerIff(devices: seq<Device>, id: string, now: nat)
    ensures Worker(devices, id, now).Some? <==>
              exists d :: d in devices && d.id == id && d.expires > now && d.kind != "browser"
  {
    if devices != [] {
      WorkerIff(devices[1..], id, now);
      assert devices == [devices[0]] + devices[1..];
    }
  }
}
