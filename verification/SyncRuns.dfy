/** Safety of the sync protocol over whole runs. */
module SyncRuns {
  import opened Text
  import opened Vault
  import opened Client
  import opened Merge
  import opened Sync
  import Ops = VaultOps
  import A = Account

  ghost predicate Run(h: Digests, states: seq<System>, labels: seq<Label>) {
    && |states| == |labels| + 1 && Init(states[0])
    && (forall k | 0 <= k < |states| :: states[k].log != [])
    && (forall k | 0 <= k < |labels| :: Step(h, states[k], labels[k], states[k + 1]))
  }

  /** Runs exist: registering an account with an empty vault gives an initial state. */
  lemma RegistrationStarts(h: Digests, root: string, op: string, nonce: nat, recovery: string, now: nat, x: A.Session)
    requires ValidId(op) && A.ValidSession(x)
    ensures var put := ToUpload(Seal(root, 0, op, EmptyData, nonce));
            var server := A.Serve(A.NewServer(), now, A.Register(put, root, recovery, x)).0;
            && server.state.Some? && Init(System(root, now, server, [server.state.value.snapshot], map[], {}, {}))
            && Ops.WellFormed(h, server.state.value.snapshot.blob.data)
  {
    var put := ToUpload(Seal(root, 0, op, EmptyData, nonce));
    A.ServeKeeps(A.NewServer(), now, A.Register(put, root, recovery, x));
    assert A.Others([], x.deviceId, now) == [];
    var server := A.Serve(A.NewServer(), now, A.Register(put, root, recovery, x)).0;
    var s := System(root, now, server, [server.state.value.snapshot], map[], {}, {});
    assert EntryOk(s, s.log[0], 0);
    Ops.EmptyIsWellFormed(h);
  }

  lemma {:induction false} RunInv(h: Digests, states: seq<System>, labels: seq<Label>, k: nat)
    requires Run(h, states, labels) && k < |states|
    ensures Inv(states[k])
  {
    hide Sync.Step, Sync.Inv, Sync.Init;
    if k == 0 {
      InitInv(states[0]);
    } else {
      RunInv(h, states, labels, k - 1);
      assert Step(h, states[k - 1], labels[k - 1], states[k]);
      StepKeeps(h, states[k - 1], labels[k - 1], states[k]);
    }
  }

  lemma {:induction false} RunExtends(h: Digests, states: seq<System>, labels: seq<Label>, j: nat, k: nat)
    requires Run(h, states, labels) && j <= k < |states|
    ensures Extends(states[j], states[k])
    decreases k - j
  {
    hide Sync.Step, Sync.Inv, Sync.Init;
    if j < k {
      RunExtends(h, states, labels, j, k - 1);
      RunInv(h, states, labels, k - 1);
      assert Step(h, states[k - 1], labels[k - 1], states[k]);
      StepKeeps(h, states[k - 1], labels[k - 1], states[k]);
    }
  }

  lemma LogGrowsByOne(h: Digests, s: System, lbl: Label, t: System)
    requires s.log != [] && Step(h, s, lbl, t)
    ensures t.log == s.log || (lbl.ServerStep? && |t.log| == |s.log| + 1 && t.log[..|s.log|] == s.log)
  {
    hide Vault.Valid, A.Inv, Ops.Step, Merge.Merges, A.Serve;
  }

  /** The committed log only ever grows, one revision at a time, each entry numbered by its place;
      and every client's base is exactly the log entry of its revision. */
  lemma BasesComeFromTheLog(h: Digests, states: seq<System>, labels: seq<Label>, k: nat)
    requires Run(h, states, labels) && k < |states|
    ensures forall r | 0 <= r < |states[k].log| :: states[k].log[r].revision == r + 1 == states[k].log[r].base + 1
    ensures forall i | i in states[k].nodes ::
              var b := states[k].nodes[i].disk.base;
              1 <= b.revision <= |states[k].log| && states[k].log[b.revision - 1] == b
    ensures k + 1 < |states| ==> states[k].log <= states[k + 1].log && |states[k + 1].log| <= |states[k].log| + 1
  {
    hide Sync.Step, Vault.Valid, A.Inv;
    RunInv(h, states, labels, k);
    var s := states[k];
    forall r | 0 <= r < |s.log| ensures s.log[r].revision == r + 1 == s.log[r].base + 1 {
      assert EntryOk(s, s.log[r], r);
    }
    forall i | i in s.nodes ensures InLog(s, s.nodes[i].disk.base) {
      assert NodeOk(s, s.nodes[i]);
    }
    if k + 1 < |states| {
      assert Step(h, states[k], labels[k], states[k + 1]);
      LogGrowsByOne(h, states[k], labels[k], states[k + 1]);
    }
  }

  /** No client ever reports a rolled back revision, a replaced history, an unauthentic vault or a
      mismatched acknowledgement. */
  lemma NoProtocolErrors(h: Digests, states: seq<System>, labels: seq<Label>, k: nat, i: nat)
    requires Run(h, states, labels) && k < |states| && i in states[k].nodes
    ensures var s, n := states[k], states[k].nodes[i];
            && (n.phase.Holding? ==>
                  var o := Fetched(n.phase.mem, n.phase.remote, s.root, s.clock);
                  if n.disk.dirty then o.Merging? else o == Next(Clean(n.phase.remote)))
            && (n.phase.Retrying? || n.phase.Uploading? ==>
                  n.phase.mem.pending.Some? && forall out |
                    (ToUpload(n.phase.mem.pending.value), A.Accepted(out)) in s.acks ::
                    Acknowledged(n.phase.mem, n.phase.mem.pending.value, out, n.phase.Retrying?, s.root, s.clock)
                      == Next(Clean(out)))
  {
    hide Sync.Step, Vault.Valid, A.Inv;
    RunInv(h, states, labels, k);
    var s, n := states[k], states[k].nodes[i];
    assert NodeOk(s, n);
    if n.phase.Holding? { FetchedKeeps(s, n.phase.mem, n.phase.remote); }
    if n.phase.Retrying? || n.phase.Uploading? {
      forall out | (ToUpload(n.phase.mem.pending.value), A.Accepted(out)) in s.acks
        ensures Acknowledged(n.phase.mem, n.phase.mem.pending.value, out, n.phase.Retrying?, s.root, s.clock)
                == Next(Clean(out))
      {
        AcknowledgedKeeps(s, n.phase.mem, out, n.phase.Retrying?);
      }
    }
  }

  /** In every reachable state a pending upload is the draft of a dirty account, and a clean account
      holds exactly its base. */
  lemma AccountsAreShaped(h: Digests, states: seq<System>, labels: seq<Label>, k: nat, i: nat)
    requires Run(h, states, labels) && k < |states| && i in states[k].nodes
    ensures var c := states[k].nodes[i].disk;
            && (c.pending.Some? ==> c.dirty && c.draft == c.pending.value)
            && (!c.dirty ==> c.draft == c.base && Working(c) == c.base.blob.data)
  {
    hide Sync.Step, Vault.Valid, A.Inv;
    RunInv(h, states, labels, k);
    assert NodeOk(states[k], states[k].nodes[i]);
  }

  /** What may become of the account `c` in one step of system `s`: it stays; it becomes the local
      side of a merge with a committed snapshot, against the unmoved base; or a commit of exactly
      its draft is acknowledged. */
  ghost predicate MayBecome(h: Digests, s: System, c: Account, d: Account) {
    || d == c
    || (&& d.dirty && d.base == c.base && d.pending == Some(d.draft)
        && exists r | 0 <= r < |s.log| ::
             Merges(h, s.clock, c.base.blob.data, Working(c), s.log[r].blob.data, Ok(Working(d))))
    || (d == Clean(d.base) && d.base in s.log && d.base.blob == c.draft.blob)
  }

  lemma MergeStepDisk(h: Digests, s: System, lbl: Label, t: System)
    requires Inv(s) && lbl.MergeAndUpload? && Step(h, s, lbl, t) && lbl.i in s.nodes
    ensures lbl.i in t.nodes && MayBecome(h, s, s.nodes[lbl.i].disk, t.nodes[lbl.i].disk)
  {
    hide Vault.Valid, A.Inv, Merge.Merges, Ops.Step, A.Serve, Sync.LogOk, Sync.TrafficOk;
    var n := s.nodes[lbl.i];
    assert NodeOk(s, n);
    FetchedIsDirty(s, n);
    assert s.log[n.phase.remote.revision - 1] == n.phase.remote;
  }

  lemma FetchedIsDirty(s: System, n: Node)
    requires Inv(s) && NodeOk(s, n) && n.phase.Holding?
    ensures Fetched(n.phase.mem, n.phase.remote, s.root, s.clock).Merging? <==> n.disk.dirty
  {
    hide Vault.Valid, A.Inv;
    FetchedKeeps(s, n.phase.mem, n.phase.remote);
  }

  lemma ReplyStepDisk(h: Digests, s: System, lbl: Label, t: System)
    requires Inv(s) && (lbl.UploadReply? || lbl.RetryReply?) && Step(h, s, lbl, t) && lbl.i in s.nodes
    ensures lbl.i in t.nodes && MayBecome(h, s, s.nodes[lbl.i].disk, t.nodes[lbl.i].disk)
  {
    hide Vault.Valid, A.Inv, Merge.Merges, Ops.Step, A.Serve, Sync.LogOk, Sync.TrafficOk, Client.Acknowledged;
    var n := s.nodes[lbl.i];
    assert NodeOk(s, n);
    if lbl.UploadReply? { AckedDraft(s, n, lbl.out, false); }
    if lbl.RetryReply? && lbl.reply.Accepted? { AckedDraft(s, n, lbl.reply.snapshot, true); }
  }

  /** The steps that write no merge and read no acknowledgement keep a dirty account, and replace a
      clean one only by a clean one. */
  lemma QuietStepDisk(h: Digests, s: System, lbl: Label, t: System)
    requires Inv(s) && Step(h, s, lbl, t)
    requires lbl.SignInAgain? || lbl.Start? || lbl.FetchReply? || lbl.Compare? || lbl.GiveUp?
    requires lbl.i in s.nodes
    ensures lbl.i in t.nodes
    ensures t.nodes[lbl.i].disk == s.nodes[lbl.i].disk
            || (!s.nodes[lbl.i].disk.dirty && t.nodes[lbl.i].disk == Clean(t.nodes[lbl.i].disk.base))
  {
    hide Vault.Valid, A.Inv, Merge.Merges, Ops.Step, A.Serve, Sync.LogOk, Sync.TrafficOk;
    var n := s.nodes[lbl.i];
    assert NodeOk(s, n);
    if lbl.Compare? { FetchedIsDirty(s, n); }
  }

  /** Steps of the server, of the clock and of other clients do not touch an account. */
  lemma OthersDisk(h: Digests, s: System, lbl: Label, t: System, j: nat)
    requires Inv(s) && Step(h, s, lbl, t) && j in s.nodes && NodeOf(lbl) != Some(j)
    ensures j in t.nodes && t.nodes[j] == s.nodes[j]
  {
    hide Vault.Valid, A.Inv, Merge.Merges, Ops.Step, A.Serve, Sync.LogOk, Sync.TrafficOk, Sync.NodeOk, Client.Fetched,
      Client.Acknowledged;
  }

  /** What may become of a dirty draft that the user does not edit further, in any step of any run:
      it is never replaced by the remote copy. */
  lemma DirtyDraftsLeaveByMergeOrCommit(h: Digests, states: seq<System>, labels: seq<Label>, k: nat, i: nat)
    requires Run(h, states, labels) && k < |labels| && i in states[k].nodes && states[k].nodes[i].disk.dirty
    requires !(labels[k].Edit? && labels[k].i == i)
    ensures i in states[k + 1].nodes && MayBecome(h, states[k], states[k].nodes[i].disk, states[k + 1].nodes[i].disk)
  {
    hide Sync.Step, Sync.Inv, Sync.Init;
    RunInv(h, states, labels, k);
    assert Step(h, states[k], labels[k], states[k + 1]);
    DirtyStep(h, states[k], labels[k], states[k + 1], i);
  }

  lemma DirtyStep(h: Digests, s: System, lbl: Label, t: System, i: nat)
    requires Inv(s) && Step(h, s, lbl, t) && i in s.nodes && s.nodes[i].disk.dirty && !(lbl.Edit? && lbl.i == i)
    ensures i in t.nodes && MayBecome(h, s, s.nodes[i].disk, t.nodes[i].disk)
  {
    hide Sync.Step, Sync.Inv, Merge.Merges;
    if NodeOf(lbl) != Some(i) {
      OthersDisk(h, s, lbl, t, i);
    } else if lbl.MergeAndUpload? {
      MergeStepDisk(h, s, lbl, t);
    } else if lbl.UploadReply? || lbl.RetryReply? {
      ReplyStepDisk(h, s, lbl, t);
    } else {
      QuietStepDisk(h, s, lbl, t);
    }
  }

  lemma AckedDraft(s: System, n: Node, out: Snap, again: bool)
    requires Inv(s) && NodeOk(s, n) && (n.phase.Retrying? || n.phase.Uploading?)
    requires (ToUpload(n.phase.mem.pending.value), A.Accepted(out)) in s.acks
    ensures Acknowledged(n.phase.mem, n.phase.mem.pending.value, out, again, s.root, s.clock) == Next(Clean(out))
    ensures out in s.log && out.blob == n.disk.draft.blob
  {
    hide Vault.Valid, A.Inv;
    assert AckOk(s, ToUpload(n.phase.mem.pending.value), out);
    AcknowledgedKeeps(s, n.phase.mem, out, again);
  }

  // --- tombstones ---

  ghost predicate LogKeepsBuried(s: System, id: string) {
    forall j, k | 0 <= j <= k < |s.log| :: Ops.Buried(s.log[j].blob.data, id) ==> Ops.Buried(s.log[k].blob.data, id)
  }

  predicate AccountKeepsBuried(c: Account, id: string) {
    Ops.Buried(c.base.blob.data, id) ==> Ops.Buried(Working(c), id)
  }

  predicate UploadKeepsBuried(s: System, u: Upload, id: string) {
    1 <= u.base <= |s.log| && Ops.Buried(s.log[u.base - 1].blob.data, id) ==> Ops.Buried(u.blob.data, id)
  }

  ghost predicate KeepsBuried(s: System, id: string) {
    && LogKeepsBuried(s, id)
    && (forall i | i in s.nodes :: AccountKeepsBuried(s.nodes[i].disk, id))
    && (forall u | u in s.sent :: UploadKeepsBuried(s, u, id))
  }

  /** The step brings nothing back: it is not an edit that restores `id`. */
  predicate Restoring(h: Digests, s: System, lbl: Label, id: string) {
    lbl.Edit? && lbl.i in s.nodes && Ops.Restores(h, lbl.op, Working(s.nodes[lbl.i].disk), id)
  }

  lemma LoggedBuried(s: System, id: string, x: Snap, y: Snap)
    requires LogKeepsBuried(s, id) && InLog(s, x) && InLog(s, y) && x.revision <= y.revision
             && Ops.Buried(x.blob.data, id)
    ensures Ops.Buried(y.blob.data, id)
  {}

  /** A merge for upload keeps every tombstone of the head it was fetched from, even though its base
      may be much older. */
  lemma MergedUploadKeepsBuried(h: Digests, s: System, n: Node, data: Data, id: string)
    requires Inv(s) && KeepsBuried(s, id) && NodeOk(s, n) && n.phase.Holding? && AccountKeepsBuried(n.disk, id)
    requires Merges(h, s.clock, n.phase.mem.base.blob.data, Working(n.phase.mem), n.phase.remote.blob.data, Ok(data))
    ensures Ops.Buried(n.phase.remote.blob.data, id) ==> Ops.Buried(data, id)
    ensures Ops.Buried(n.phase.mem.base.blob.data, id) ==> Ops.Buried(data, id)
  {
    hide Vault.Valid, A.Inv, Merge.Merged;
    var b, l, r := n.phase.mem.base, Working(n.phase.mem), n.phase.remote;
    assert Merged(h, b.blob.data, l, r.blob.data, data);
    LoggedOpens(s, b);
    assert id in b.blob.data.deleted ==> Ops.Buried(b.blob.data, id);
    if Ops.Buried(b.blob.data, id) { LoggedBuried(s, id, b, r); }
    if Ops.Buried(r.blob.data, id) { Ops.MergeKeepsTombstones(h, b.blob.data, l, r.blob.data, data, id); }
  }

  lemma ServerStepKeepsBuried(s: System, q: A.Request<Sealed>, id: string)
    requires Inv(s) && Reachable(s, q) && KeepsBuried(s, id)
    ensures KeepsBuried(Served(s, q), id)
  {
    hide Vault.Valid, A.Inv, A.Serve;
    ServeEffect(s, q);
    var t := Served(s, q);
    if t.log != s.log {
      var u := PutOf(q).value;
      assert UploadKeepsBuried(s, u, id);
      assert t.log == s.log + [Head(t)] && Head(t).blob == u.blob;
      forall j | 0 <= j < |t.log| && Ops.Buried(t.log[j].blob.data, id) ensures Ops.Buried(Head(t).blob.data, id) {
        if j < |s.log| {
          assert Ops.Buried(s.log[j].blob.data, id) ==> Ops.Buried(s.log[|s.log| - 1].blob.data, id);
        }
      }
    }
    forall x | x in t.sent ensures UploadKeepsBuried(t, x, id) {
      assert UploadKeepsBuried(s, x, id) && UploadOk(s, x);
    }
  }

  lemma MergeStepKeepsBuried(h: Digests, s: System, lbl: Label, t: System, id: string)
    requires Inv(s) && lbl.MergeAndUpload? && Step(h, s, lbl, t) && KeepsBuried(s, id)
    ensures KeepsBuried(t, id)
  {
    hide Vault.Valid, A.Inv, Merge.Merges, Ops.Step, A.Serve;
    var n := s.nodes[lbl.i];
    assert NodeOk(s, n) && AccountKeepsBuried(n.disk, id);
    MergedUploadKeepsBuried(h, s, n, lbl.data, id);
    forall u | u in t.sent ensures UploadKeepsBuried(t, u, id) {
      if u in s.sent { assert UploadKeepsBuried(s, u, id); }
    }
    forall j | j in t.nodes ensures AccountKeepsBuried(t.nodes[j].disk, id) {
      if j != lbl.i { assert AccountKeepsBuried(s.nodes[j].disk, id); }
    }
  }

  lemma EditStepKeepsBuried(h: Digests, s: System, lbl: Label, t: System, id: string)
    requires Inv(s) && lbl.Edit? && Step(h, s, lbl, t) && KeepsBuried(s, id) && !Restoring(h, s, lbl, id)
    ensures KeepsBuried(t, id)
  {
    hide Vault.Valid, A.Inv, Merge.Merges, Ops.Step, A.Serve;
    var n := s.nodes[lbl.i];
    assert NodeOk(s, n) && AccountKeepsBuried(n.disk, id);
    if Ops.Buried(Working(n.disk), id) {
      Ops.EditsKeepTombstones(h, lbl.op, Working(n.disk), lbl.data, id);
    }
    forall j | j in t.nodes ensures AccountKeepsBuried(t.nodes[j].disk, id) {
      if j != lbl.i { assert AccountKeepsBuried(s.nodes[j].disk, id); }
    }
    forall u | u in t.sent ensures UploadKeepsBuried(t, u, id) { assert UploadKeepsBuried(s, u, id); }
  }

  /** In the remaining steps an account file is kept or becomes clean. */
  lemma OtherStepKeepsBuried(h: Digests, s: System, lbl: Label, t: System, id: string)
    requires Inv(s) && Step(h, s, lbl, t) && KeepsBuried(s, id)
    requires !lbl.Edit? && !lbl.MergeAndUpload? && !lbl.ServerStep?
    ensures KeepsBuried(t, id)
  {
    hide Sync.Inv, Sync.Step, Ops.Buried, LogKeepsBuried;
    forall j | j in t.nodes ensures AccountKeepsBuried(t.nodes[j].disk, id) {
      OtherStepDisk(h, s, lbl, t, j);
      if j in s.nodes { assert AccountKeepsBuried(s.nodes[j].disk, id); }
    }
    OtherStepTraffic(h, s, lbl, t);
    assert LogKeepsBuried(t, id) by { SameLog(s, t, id); }
    forall u | u in t.sent ensures UploadKeepsBuried(t, u, id) {
      assert UploadKeepsBuried(s, u, id);
    }
  }

  lemma SameLog(s: System, t: System, id: string)
    requires LogKeepsBuried(s, id) && t.log == s.log
    ensures LogKeepsBuried(t, id)
  {}

  lemma OtherStepDisk(h: Digests, s: System, lbl: Label, t: System, j: nat)
    requires Inv(s) && Step(h, s, lbl, t) && !lbl.Edit? && !lbl.MergeAndUpload? && j in t.nodes
    ensures (j in s.nodes && t.nodes[j].disk == s.nodes[j].disk) || t.nodes[j].disk == Clean(t.nodes[j].disk.base)
  {
    hide Sync.Step, Sync.Inv, Merge.Merges;
    if j !in s.nodes {
      Joined(h, s, lbl, t, j);
    } else if NodeOf(lbl) != Some(j) {
      OthersDisk(h, s, lbl, t, j);
    } else if lbl.UploadReply? || lbl.RetryReply? {
      ReplyStepCleans(h, s, lbl, t);
    } else {
      QuietStepDisk(h, s, lbl, t);
    }
  }

  lemma Joined(h: Digests, s: System, lbl: Label, t: System, j: nat)
    requires Inv(s) && Step(h, s, lbl, t) && j in t.nodes && j !in s.nodes
    ensures t.nodes[j].disk == Clean(t.nodes[j].disk.base)
  {
    hide Vault.Valid, A.Inv, Merge.Merges, Ops.Step, A.Serve, Sync.LogOk, Sync.TrafficOk, Sync.NodeOk, Client.Fetched,
      Client.Acknowledged;
  }

  lemma ReplyStepCleans(h: Digests, s: System, lbl: Label, t: System)
    requires Inv(s) && (lbl.UploadReply? || lbl.RetryReply?) && Step(h, s, lbl, t) && lbl.i in s.nodes
    ensures lbl.i in t.nodes
    ensures t.nodes[lbl.i].disk == s.nodes[lbl.i].disk || t.nodes[lbl.i].disk == Clean(t.nodes[lbl.i].disk.base)
  {
    hide Vault.Valid, A.Inv, Merge.Merges, Ops.Step, A.Serve, Sync.LogOk, Sync.TrafficOk;
  }

  lemma OtherStepTraffic(h: Digests, s: System, lbl: Label, t: System)
    requires Inv(s) && Step(h, s, lbl, t) && !lbl.MergeAndUpload? && !lbl.ServerStep?
    ensures t.log == s.log && t.sent == s.sent
  {
    hide Vault.Valid, A.Inv, Merge.Merges, Ops.Step, A.Serve, Client.Fetched, Client.Acknowledged;
    if lbl.Start? {
      assert NodeOk(s, s.nodes[lbl.i]);
    }
  }

  lemma StepKeepsBuried(h: Digests, s: System, lbl: Label, t: System, id: string)
    requires Inv(s) && Step(h, s, lbl, t) && KeepsBuried(s, id) && !Restoring(h, s, lbl, id)
    ensures KeepsBuried(t, id)
  {
    hide Sync.Step, Sync.Inv, KeepsBuried, Restoring;
    match lbl
    case ServerStep(q) =>
      ServedIs(h, s, q, t);
      ServerStepKeepsBuried(s, q, id);
    case MergeAndUpload(_, _, _, _) => MergeStepKeepsBuried(h, s, lbl, t, id);
    case Edit(_, _, _, _, _) => EditStepKeepsBuried(h, s, lbl, t, id);
    case _ => OtherStepKeepsBuried(h, s, lbl, t, id);
  }

  lemma {:induction false} RunKeepsBuried(h: Digests, states: seq<System>, labels: seq<Label>, k: nat, id: string)
    requires Run(h, states, labels) && k < |states|
    requires forall j | 0 <= j < k :: !Restoring(h, states[j], labels[j], id)
    ensures KeepsBuried(states[k], id)
  {
    hide Sync.Step, Sync.Inv, KeepsBuried, Restoring, Sync.Init;
    if k == 0 {
      InitKeepsBuried(states[0], id);
    } else {
      RunKeepsBuried(h, states, labels, k - 1, id);
      RunInv(h, states, labels, k - 1);
      assert Step(h, states[k - 1], labels[k - 1], states[k]);
      StepKeepsBuried(h, states[k - 1], labels[k - 1], states[k], id);
    }
  }

  lemma InitKeepsBuried(s: System, id: string)
    requires Init(s)
    ensures KeepsBuried(s, id)
  {
    hide Vault.Valid, A.Inv;
  }

  lemma ServedIs(h: Digests, s: System, q: A.Request<Sealed>, t: System)
    requires Inv(s) && Step(h, s, ServerStep(q), t)
    ensures Reachable(s, q) && t == Served(s, q)
  {}

  /** Deleted stays deleted: in every run in which nobody explicitly restores `id`, once a committed
      head holds its tombstone, every later head holds it and lists no entry for it, through any
      number of offline drafts, lost replies and retries against stale bases. */
  lemma TombstonesPersist(h: Digests, states: seq<System>, labels: seq<Label>, j: nat, k: nat, id: string)
    requires Run(h, states, labels) && j <= k < |states|
    requires forall i | 0 <= i < k :: !Restoring(h, states[i], labels[i], id)
    requires id in Head(states[j]).blob.data.deleted
    ensures id in Head(states[k]).blob.data.deleted && id !in Head(states[k]).blob.data.entries
  {
    hide Sync.Step, Vault.Valid, A.Inv;
    RunInv(h, states, labels, j);
    RunExtends(h, states, labels, j, k);
    RunKeepsBuried(h, states, labels, k, id);
    HeadIsInLog(states[j]);
    LoggedOpens(states[j], Head(states[j]));
    assert Ops.Buried(states[k].log[|states[j].log| - 1].blob.data, id);
  }
}
