/** What holds of every vault that travels in a run: of each committed head, each draft and each upload. */
module SyncVaults {
  import opened Text
  import opened Vault
  import opened Client
  import opened Merge
  import opened Sync
  import opened SyncRuns
  import opened Provenance
  import MergeLaws
  import Ops = VaultOps
  import A = Account

  /** `P` holds of every vault in the system. */
  ghost predicate Everywhere(s: System, P: Data -> bool) {
    && (forall x | x in s.log :: P(x.blob.data))
    && (forall i | i in s.nodes :: P(Working(s.nodes[i].disk)))
    && (forall u | u in s.sent :: P(u.blob.data))
  }

  /** Merging keeps `P`, against any base. */
  ghost predicate MergeKeepsIt(h: Digests, P: Data -> bool) {
    forall b, l, r, out | P(l) && P(r) && Merged(h, b, l, r, out) :: P(out)
  }

  /** The edit of this step, if it is one, keeps `P`. */
  ghost predicate EditKeepsIt(h: Digests, lbl: Label, P: Data -> bool) {
    lbl.Edit? ==> forall d | P(d) && Ops.Step(h, lbl.op, d, lbl.data) && !lbl.op.OpMerge? :: P(lbl.data)
  }

  lemma ServerStepKeepsIt(s: System, q: A.Request<Sealed>, P: Data -> bool)
    requires Inv(s) && Reachable(s, q) && Everywhere(s, P)
    ensures Everywhere(Served(s, q), P)
  {
    hide Vault.Valid, A.Inv, A.Serve;
    ServeEffect(s, q);
  }

  lemma MergeStepKeepsIt(h: Digests, s: System, lbl: Label, t: System, P: Data -> bool)
    requires Inv(s) && lbl.MergeAndUpload? && Step(h, s, lbl, t) && Everywhere(s, P) && MergeKeepsIt(h, P)
    ensures Everywhere(t, P)
  {
    hide Vault.Valid, A.Inv, Merge.Merged, Ops.Step, A.Serve, Client.Fetched, Sync.LogOk, Sync.TrafficOk, Sync.NodeOk;
    var n := s.nodes[lbl.i];
    HeldWork(s, lbl.i);
    var b, l, r := n.phase.mem.base.blob.data, Working(n.phase.mem), n.phase.remote.blob.data;
    assert P(l) && P(r) && Merged(h, b, l, r, lbl.data);
    forall j | j in t.nodes ensures P(Working(t.nodes[j].disk)) {
      if j != lbl.i { assert P(Working(s.nodes[j].disk)); }
    }
  }

  lemma EditStepKeepsIt(h: Digests, s: System, lbl: Label, t: System, P: Data -> bool)
    requires Inv(s) && lbl.Edit? && Step(h, s, lbl, t) && Everywhere(s, P) && EditKeepsIt(h, lbl, P)
    ensures Everywhere(t, P)
  {
    hide Vault.Valid, A.Inv, Merge.Merges, Ops.Step, A.Serve;
    assert P(Working(s.nodes[lbl.i].disk));
    forall j | j in t.nodes ensures P(Working(t.nodes[j].disk)) {
      if j != lbl.i { assert P(Working(s.nodes[j].disk)); }
    }
  }

  lemma OtherStepKeepsIt(h: Digests, s: System, lbl: Label, t: System, P: Data -> bool)
    requires Inv(s) && Step(h, s, lbl, t) && Everywhere(s, P) && !lbl.Edit? && !lbl.MergeAndUpload? && !lbl.ServerStep?
    ensures Everywhere(t, P)
  {
    hide Sync.Inv, Sync.Step;
    OtherStepTraffic(h, s, lbl, t);
    StepKeeps(h, s, lbl, t);
    forall j | j in t.nodes ensures P(Working(t.nodes[j].disk)) {
      OtherStepDisk(h, s, lbl, t, j);
      BaseIsLogged(t, j);
    }
  }

  lemma BaseIsLogged(t: System, j: nat)
    requires Inv(t) && j in t.nodes
    ensures t.nodes[j].disk.base in t.log
  {
    hide Vault.Valid, A.Inv;
    assert NodeOk(t, t.nodes[j]);
  }

  lemma StepKeepsIt(h: Digests, s: System, lbl: Label, t: System, P: Data -> bool)
    requires Inv(s) && Step(h, s, lbl, t) && Everywhere(s, P) && MergeKeepsIt(h, P) && EditKeepsIt(h, lbl, P)
    ensures Everywhere(t, P)
  {
    hide Sync.Step, Sync.Inv, Everywhere, MergeKeepsIt, EditKeepsIt;
    match lbl
    case ServerStep(q) =>
      ServedIs(h, s, q, t);
      ServerStepKeepsIt(s, q, P);
    case MergeAndUpload(_, _, _, _) => MergeStepKeepsIt(h, s, lbl, t, P);
    case Edit(_, _, _, _, _) => EditStepKeepsIt(h, s, lbl, t, P);
    case _ => OtherStepKeepsIt(h, s, lbl, t, P);
  }

  lemma InitKeepsIt(s: System, P: Data -> bool)
    requires Init(s) && P(s.log[0].blob.data)
    ensures Everywhere(s, P)
  {
    hide Vault.Valid, A.Inv;
    assert s.log == [s.log[0]];
  }

  /** What merges and the edits of a run keep, and the first vault has, every vault of the run has. */
  lemma {:induction false} RunKeepsIt(h: Digests, states: seq<System>, labels: seq<Label>, k: nat, P: Data -> bool)
    requires Run(h, states, labels) && k < |states| && P(states[0].log[0].blob.data)
    requires MergeKeepsIt(h, P) && forall j | 0 <= j < k :: EditKeepsIt(h, labels[j], P)
    ensures Everywhere(states[k], P)
  {
    hide Sync.Step, Sync.Inv, Sync.Init, MergeKeepsIt, EditKeepsIt, Everywhere;
    if k == 0 {
      InitKeepsIt(states[0], P);
    } else {
      RunKeepsIt(h, states, labels, k - 1, P);
      RunInv(h, states, labels, k - 1);
      assert Step(h, states[k - 1], labels[k - 1], states[k]);
      StepKeepsIt(h, states[k - 1], labels[k - 1], states[k], P);
    }
  }

  /** In every run from a well-formed vault, every committed head, every draft and every upload is
      well formed. */
  lemma RunIsWellFormed(h: Digests, states: seq<System>, labels: seq<Label>, k: nat)
    requires Run(h, states, labels) && k < |states| && Ops.WellFormed(h, states[0].log[0].blob.data)
    ensures forall x | x in states[k].log :: Ops.WellFormed(h, x.blob.data)
    ensures forall i | i in states[k].nodes :: Ops.WellFormed(h, Working(states[k].nodes[i].disk))
    ensures forall u | u in states[k].sent :: Ops.WellFormed(h, u.blob.data)
  {
    hide Sync.Step, Sync.Inv, Ops.WellFormed, Ops.Step, Merge.Merged;
    var P := (d: Data) => Ops.WellFormed(h, d);
    forall b, l, r, out | P(l) && P(r) && Merged(h, b, l, r, out) ensures P(out) {
      Ops.MergeKeeps(h, b, l, r, out);
    }
    forall j | 0 <= j < k ensures EditKeepsIt(h, labels[j], P) {
      if labels[j].Edit? {
        forall d | P(d) && Ops.Step(h, labels[j].op, d, labels[j].data) && !labels[j].op.OpMerge?
          ensures P(labels[j].data) {
          Ops.StepKeeps(h, labels[j].op, d, labels[j].data);
        }
      }
    }
    RunKeepsIt(h, states, labels, k, P);
    assert forall x | x in states[k].log :: P(x.blob.data);
    assert forall i | i in states[k].nodes :: P(Working(states[k].nodes[i].disk));
    assert forall u | u in states[k].sent :: P(u.blob.data);
  }

  lemma HeldWork(s: System, i: nat)
    requires Inv(s) && i in s.nodes && s.nodes[i].phase.Holding?
    ensures Working(s.nodes[i].phase.mem) == Working(s.nodes[i].disk) && s.nodes[i].phase.remote in s.log
  {
    hide Vault.Valid, A.Inv;
    assert NodeOk(s, s.nodes[i]);
  }

  /** ... so no merge of any client in any run fails on credentials. */
  lemma RunNeverClashes(h: Digests, states: seq<System>, labels: seq<Label>, k: nat, i: nat, res: MergeResult)
    requires Injective(h) && Run(h, states, labels) && k < |states| && Ops.WellFormed(h, states[0].log[0].blob.data)
    requires i in states[k].nodes && states[k].nodes[i].phase.Holding?
    requires var mem := states[k].nodes[i].phase.mem;
             Merges(h, states[k].clock, mem.base.blob.data, Working(mem), states[k].nodes[i].phase.remote.blob.data,
                    res)
    ensures !res.ImmutableCredentialConflict?
  {
    hide Sync.Step, Sync.Inv, Ops.WellFormed, Merge.CredentialClash;
    RunInv(h, states, labels, k);
    RunIsWellFormed(h, states, labels, k);
    HeldWork(states[k], i);
    Ops.CredentialsNeverClash(h, Working(states[k].nodes[i].phase.mem), states[k].nodes[i].phase.remote.blob.data);
  }

  /** In every run from a vault with its source keys in order, whose imported records carry no digest of
      another source as alias, all vaults have their source keys in order. */
  lemma RunKeepsSourceKeys(h: Digests, states: seq<System>, labels: seq<Label>, k: nat)
    requires Injective(h) && Run(h, states, labels) && k < |states|
             && MergeLaws.WellKeyedVault(h, states[0].log[0].blob.data)
    requires forall j | 0 <= j < k && labels[j].Edit? :: Proper(h, labels[j].op)
    ensures forall x | x in states[k].log :: MergeLaws.WellKeyedVault(h, x.blob.data)
    ensures forall i | i in states[k].nodes :: MergeLaws.WellKeyedVault(h, Working(states[k].nodes[i].disk))
  {
    hide Sync.Step, Sync.Inv, MergeLaws.WellKeyedVault, Ops.Step, Merge.Merged, Proper;
    var P := (d: Data) => MergeLaws.WellKeyedVault(h, d);
    forall b, l, r, out | P(l) && P(r) && Merged(h, b, l, r, out) ensures P(out) {
      MergedKeepsSourceKeys(h, b, l, r, out);
    }
    forall j | 0 <= j < k ensures EditKeepsIt(h, labels[j], P) {
      if labels[j].Edit? {
        forall d | P(d) && Ops.Step(h, labels[j].op, d, labels[j].data) && !labels[j].op.OpMerge?
          ensures P(labels[j].data) {
          StepKeepsSourceKeys(h, labels[j].op, d, labels[j].data);
        }
      }
    }
    RunKeepsIt(h, states, labels, k, P);
    assert forall x | x in states[k].log :: P(x.blob.data);
    assert forall i | i in states[k].nodes :: P(Working(states[k].nodes[i].disk));
  }

  /** ... so what a client uploads never depends on the map order of its process. */
  lemma RunMergesAgree(h: Digests, states: seq<System>, labels: seq<Label>, k: nat, i: nat, res: MergeResult,
                       other: MergeResult)
    requires Injective(h) && Run(h, states, labels) && k < |states|
             && MergeLaws.WellKeyedVault(h, states[0].log[0].blob.data)
    requires forall j | 0 <= j < k && labels[j].Edit? :: Proper(h, labels[j].op)
    requires i in states[k].nodes && states[k].nodes[i].phase.Holding?
    requires var mem, r := states[k].nodes[i].phase.mem, states[k].nodes[i].phase.remote;
             && Merges(h, states[k].clock, mem.base.blob.data, Working(mem), r.blob.data, res)
             && Merges(h, states[k].clock, mem.base.blob.data, Working(mem), r.blob.data, other)
    ensures res == other
  {
    hide Sync.Step, Sync.Inv, MergeLaws.WellKeyedVault, Merge.CredentialClash, Vault.Valid, Merge.Merged;
    RunInv(h, states, labels, k);
    RunKeepsSourceKeys(h, states, labels, k);
    HeldWork(states[k], i);
    var b, l, r := states[k].nodes[i].phase.mem.base.blob.data, Working(states[k].nodes[i].phase.mem),
      states[k].nodes[i].phase.remote.blob.data;
    forall x, y | Merged(h, b, l, r, x) && Merged(h, b, l, r, y) ensures x == y {
      MergeLaws.WellKeyedMergesAgree(h, b, l, r, x, y);
    }
  }
}
