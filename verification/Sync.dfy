/** Runs of one server and any number of clients: uploads may be lost, delayed, repeated and
    served concurrently, replies may be lost, and a client may crash at any point
    (internal/cloudsync/client.go, cloud/src/index.ts). No rotation takes place. */
module Sync {
  import opened Text
  import opened Vault
  import opened Client
  import opened Merge
  import Ops = VaultOps
  import MergeLaws
  import A = Account

  /** Where a client process is; `mem` is its copy of the account file. */
  datatype Phase =
    | Idle
    | Retrying(mem: Account)
    | Fetching(mem: Account)
    | Holding(mem: Account, remote: Snap)
    | Uploading(mem: Account)

  datatype Node = Node(disk: Account, phase: Phase)

  /** `log` lists every snapshot the server ever committed; `sent` every upload ever sent; `acks`
      every reply to an upload. */
  datatype System = System(
    root: string, clock: nat,
    server: A.Server<Sealed>, log: seq<Snap>,
    nodes: map<nat, Node>,
    sent: set<Upload>, acks: set<(Upload, A.Reply<Sealed>)>)

  datatype Label =
    | Tick
    | ServerStep(request: A.Request<Sealed>)
    | Join(i: nat)
    | SignInAgain(i: nat)
    | Edit(i: nat, op: Ops.Op, data: Data, id: string, nonce: nat)
    | Start(i: nat)
    | RetryReply(i: nat, reply: A.Reply<Sealed>)
    | FetchReply(i: nat)
    | Compare(i: nat)
    | MergeAndUpload(i: nat, data: Data, id: string, nonce: nat)
    | UploadReply(i: nat, out: Snap)
    | GiveUp(i: nat)

  function Head(s: System): Snap
    requires s.log != []
  {
    s.log[|s.log| - 1]
  }

  function Put(s: System, i: nat, n: Node): System {
    s.(nodes := s.nodes[i := n])
  }

  /** Requests that reach the server: uploads signed by the vault root come from clients. */
  predicate Reachable(s: System, q: A.Request<Sealed>) {
    && A.Enabled(s.server, q) && !q.Register?
    && (q.BeginPut? ==> !q.put.rotate && (q.put.signature.Signed? && q.put.signature.signer == s.root ==>
                                            q.put in s.sent))
  }

  function PutOf(q: A.Request<Sealed>): Option<Upload> {
    match q
    case BeginPut(_, put) => Some(put)
    case FinishPut(task) => if task.PutTask? then Some(task.put) else None
    case _ => None
  }

  function Served(s: System, q: A.Request<Sealed>): System
    requires s.log != []
  {
    var (server, reply) := A.Serve(s.server, s.clock, q);
    var log := if server.state.Some? && server.state.value.snapshot != Head(s)
               then s.log + [server.state.value.snapshot] else s.log;
    s.(server := server, log := log, acks := if PutOf(q).Some? then s.acks + {(PutOf(q).value, reply)} else s.acks)
  }

  function AfterOutcome(n: Node, o: Outcome): Node {
    if o.Next? then Node(o.account, Idle) else n.(phase := Idle)
  }

  /** A conflict on a repeated upload drops the pending mark, in memory only, and fetches the head. */
  function AfterRetry(n: Node, reply: A.Reply<Sealed>, root: string, now: nat): Node
    requires n.phase.Retrying? && n.phase.mem.pending.Some?
  {
    match reply
    case Accepted(out) => AfterOutcome(n, Acknowledged(n.phase.mem, n.phase.mem.pending.value, out, true, root, now))
    case Refused(status) => n.(phase := if status == 409 then Fetching(n.phase.mem.(pending := None)) else Idle)
    case _ => n.(phase := Idle)
  }

  ghost predicate ClientStep(h: Digests, s: System, lbl: Label, n: Node, t: System)
    requires s.log != []
  {
    match lbl
    case SignInAgain(i) =>
      n.phase.Idle?
      && t == Put(s, i, Node(if n.disk.dirty || n.disk.pending.Some? then n.disk else Clean(Head(s)), Idle))
    case Edit(i, op, data, id, nonce) =>
      var snap := Seal(s.root, n.disk.base.revision, id, data, nonce);
      && n.phase.Idle? && !op.OpMerge? && Ops.Step(h, op, Working(n.disk), data) && Valid(data, s.clock)
      && t == Put(s, i, Node(if SaveDraft(n.disk, snap).Some? then SaveDraft(n.disk, snap).value else n.disk, Idle))
    case Start(i) =>
      n.phase.Idle? &&
      if n.disk.pending.Some? then
        t == Put(s, i, n.(phase := Retrying(n.disk))).(sent := s.sent + {ToUpload(n.disk.pending.value)})
      else t == Put(s, i, n.(phase := Fetching(n.disk)))
    case RetryReply(i, reply) =>
      n.phase.Retrying? && n.phase.mem.pending.Some? && (ToUpload(n.phase.mem.pending.value), reply) in s.acks
      && t == Put(s, i, AfterRetry(n, reply, s.root, s.clock))
    case FetchReply(i) =>
      n.phase.Fetching? && t == Put(s, i, n.(phase := Holding(n.phase.mem, Head(s))))
    case Compare(i) =>
      n.phase.Holding? && !Fetched(n.phase.mem, n.phase.remote, s.root, s.clock).Merging?
      && t == Put(s, i, AfterOutcome(n, Fetched(n.phase.mem, n.phase.remote, s.root, s.clock)))
    case MergeAndUpload(i, data, id, nonce) =>
      n.phase.Holding? && Fetched(n.phase.mem, n.phase.remote, s.root, s.clock).Merging?
      && Merges(h, s.clock, n.phase.mem.base.blob.data, Working(n.phase.mem), n.phase.remote.blob.data, Ok(data))
      && (var request := Seal(s.root, n.phase.remote.revision, id, data, nonce);
          var parked := Park(n.phase.mem, request);
          t == Put(s, i, Node(parked, Uploading(parked))).(sent := s.sent + {ToUpload(request)}))
    case UploadReply(i, out) =>
      n.phase.Uploading? && n.phase.mem.pending.Some?
      && (ToUpload(n.phase.mem.pending.value), A.Accepted(out)) in s.acks
      && t == Put(s, i, AfterOutcome(n, Acknowledged(n.phase.mem, n.phase.mem.pending.value, out, false, s.root,
                                                     s.clock)))
    case GiveUp(i) => t == Put(s, i, n.(phase := Idle))
    case _ => false
  }

  function NodeOf(lbl: Label): Option<nat> {
    match lbl
    case Tick => None
    case ServerStep(_) => None
    case Join(_) => None
    case SignInAgain(i) => Some(i)
    case Edit(i, _, _, _, _) => Some(i)
    case Start(i) => Some(i)
    case RetryReply(i, _) => Some(i)
    case FetchReply(i) => Some(i)
    case Compare(i) => Some(i)
    case MergeAndUpload(i, _, _, _) => Some(i)
    case UploadReply(i, _) => Some(i)
    case GiveUp(i) => Some(i)
  }

  ghost predicate Step(h: Digests, s: System, lbl: Label, t: System)
    requires s.log != []
  {
    match lbl
    case Tick => t == s.(clock := s.clock + 1)
    case ServerStep(q) => Reachable(s, q) && t == Served(s, q)
    case Join(i) => i !in s.nodes && t == Put(s, i, Node(Clean(Head(s)), Idle))
    case _ => NodeOf(lbl).value in s.nodes && ClientStep(h, s, lbl, s.nodes[NodeOf(lbl).value], t)
  }

  // --- the invariant ---

  predicate InLog(s: System, x: Snap) {
    1 <= x.revision <= |s.log| && s.log[x.revision - 1] == x
  }

  predicate NoOverlap(d: Data) {
    d.deleted !! d.entries.Keys
  }

  ghost predicate LogOk(s: System) {
    && s.log != [] && A.Inv(s.server) && s.server.state.Some?
    && s.server.state.value.snapshot == Head(s) && s.server.state.value.root == s.root
    && (forall k | 0 <= k < |s.log| :: EntryOk(s, s.log[k], k))
  }

  predicate EntryOk(s: System, x: Snap, k: nat) {
    x.revision == k + 1 && Opens(x, s.root, s.clock) && NoOverlap(x.blob.data)
  }

  predicate UploadOk(s: System, u: Upload) {
    && 1 <= u.base <= |s.log| && !u.rotate && A.Verify(s.root, u.signature, A.SyncMessage(u.base, u.op, u.blob))
    && Valid(u.blob.data, s.clock) && NoOverlap(u.blob.data)
  }

  ghost predicate TrafficOk(s: System) {
    && (forall u | u in s.sent :: UploadOk(s, u))
    && (forall t | t in s.server.tasks && t.PutTask? :: t.put in s.sent && t.root == s.root)
    && (forall a | a in s.acks && a.1.Accepted? :: AckOk(s, a.0, a.1.snapshot))
  }

  predicate AckOk(s: System, u: Upload, out: Snap) {
    InLog(s, out) && out == A.Committed(u, s.root)
  }

  predicate AccountOk(s: System, c: Account) {
    && Shaped(c) && InLog(s, c.base) && Opens(c.draft, s.root, s.clock)
    && (c.pending.Some? ==>
          && c.pending.value.revision == 0 && c.pending.value.root == s.root
          && ToUpload(c.pending.value) in s.sent)
  }

  /** A process differs from the account file at most in the pending mark. */
  predicate SameWork(disk: Account, mem: Account) {
    disk.base == mem.base && disk.draft == mem.draft && disk.dirty == mem.dirty
  }

  predicate NodeOk(s: System, n: Node) {
    && AccountOk(s, n.disk) && (!n.phase.Idle? ==> AccountOk(s, n.phase.mem) && SameWork(n.disk, n.phase.mem))
    && (n.phase.Holding? ==> InLog(s, n.phase.remote) && n.phase.mem.base.revision <= n.phase.remote.revision)
    && (n.phase.Retrying? || n.phase.Uploading? ==> n.phase.mem.pending.Some?)
    && (n.phase.Fetching? || n.phase.Holding? ==> n.phase.mem.pending.None?)
  }

  ghost predicate Inv(s: System) {
    LogOk(s) && TrafficOk(s) && forall i | i in s.nodes :: NodeOk(s, s.nodes[i])
  }

  /** The state after registration: one signed snapshot, no clients, nothing sent. */
  ghost predicate Init(s: System) {
    && LogOk(s) && |s.log| == 1 && s.nodes == map[] && s.sent == {} && s.acks == {} && s.server.tasks == {}
  }

  lemma InitInv(s: System)
    requires Init(s)
    ensures Inv(s)
  {}

  // --- it is kept ---

  /** The system moved on without touching what a node holds. */
  ghost predicate Extends(s: System, t: System) {
    t.root == s.root && s.clock <= t.clock && s.log <= t.log && s.sent <= t.sent
  }

  lemma OpensLater(x: Snap, root: string, t: nat, u: nat)
    requires Opens(x, root, t) && t <= u
    ensures Opens(x, root, u)
  {
    hide Vault.Valid;
    ValidLater(x.blob.data, t, u);
  }

  lemma InLogExtends(s: System, t: System, x: Snap)
    requires Extends(s, t) && InLog(s, x)
    ensures InLog(t, x)
  {}

  lemma AccountExtends(s: System, t: System, c: Account)
    requires Extends(s, t) && AccountOk(s, c)
    ensures AccountOk(t, c)
  {
    hide Vault.Valid;
    OpensLater(c.draft, s.root, s.clock, t.clock);
  }

  lemma NodeExtends(s: System, t: System, n: Node)
    requires Extends(s, t) && NodeOk(s, n)
    ensures NodeOk(t, n)
  {
    hide Vault.Valid;
    AccountExtends(s, t, n.disk);
    if !n.phase.Idle? { AccountExtends(s, t, n.phase.mem); }
  }

  lemma UploadExtends(s: System, t: System, u: Upload)
    requires Extends(s, t) && UploadOk(s, u)
    ensures UploadOk(t, u)
  {
    hide Vault.Valid;
    ValidLater(u.blob.data, s.clock, t.clock);
  }

  lemma TickKeeps(s: System, t: System)
    requires Inv(s) && t == s.(clock := s.clock + 1)
    ensures Inv(t) && Extends(s, t)
  {
    hide Vault.Valid, A.Inv;
    forall k | 0 <= k < |t.log| ensures EntryOk(t, t.log[k], k) {
      assert EntryOk(s, s.log[k], k);
      OpensLater(s.log[k], s.root, s.clock, t.clock);
    }
    forall u | u in t.sent ensures UploadOk(t, u) { UploadExtends(s, t, u); }
    forall i | i in t.nodes ensures NodeOk(t, t.nodes[i]) { NodeExtends(s, t, s.nodes[i]); }
    forall a | a in t.acks && a.1.Accepted? ensures AckOk(t, a.0, a.1.snapshot) { assert AckOk(s, a.0, a.1.snapshot); }
  }

  /** What serving one request does to the head and to the tasks. */
  lemma ServeEffect(s: System, q: A.Request<Sealed>)
    requires Inv(s) && Reachable(s, q)
    ensures var (server, reply) := A.Serve(s.server, s.clock, q);
            && A.Inv(server) && server.state.Some? && server.state.value.root == s.root
            && (server.state.value.snapshot != Head(s) ==>
                  PutOf(q).Some? && PutOf(q).value in s.sent && PutOf(q).value.base == |s.log|
                  && server.state.value.snapshot == A.Committed(PutOf(q).value, s.root))
            && (forall x | x in server.tasks && x.PutTask? && x !in s.server.tasks ::
                  PutOf(q) == Some(x.put) && x.put in s.sent && x.root == s.root)
            && (reply.Accepted? && PutOf(q).Some? ==>
                  reply.snapshot == server.state.value.snapshot
                  && reply.snapshot == A.Committed(PutOf(q).value, s.root))
  {
    hide Vault.Valid, A.Filter, A.Sweep;
    A.ServeKeeps(s.server, s.clock, q);
    assert EntryOk(s, Head(s), |s.log| - 1);
    if !q.FinishPut? {
      A.QuietRoutes(s.server, s.clock, q);
      if !q.BeginPut? { hide A.Serve, A.Inv; }
    } else if q.task.PutTask? {
      assert UploadOk(s, q.task.put);
    }
  }

  lemma ServerStepKeeps(s: System, q: A.Request<Sealed>)
    requires Inv(s) && Reachable(s, q)
    ensures Inv(Served(s, q)) && Extends(s, Served(s, q))
  {
    hide Vault.Valid, A.Serve, A.Inv;
    ServeEffect(s, q);
    var t := Served(s, q);
    assert Extends(s, t);
    forall k | 0 <= k < |t.log| ensures EntryOk(t, t.log[k], k) {
      if k < |s.log| {
        assert EntryOk(s, s.log[k], k);
      } else {
        assert UploadOk(s, PutOf(q).value);
      }
    }
    assert InLog(t, Head(t)) by { assert EntryOk(t, t.log[|t.log| - 1], |t.log| - 1); }
    forall u | u in t.sent ensures UploadOk(t, u) { UploadExtends(s, t, u); }
    forall i | i in t.nodes ensures NodeOk(t, t.nodes[i]) { NodeExtends(s, t, s.nodes[i]); }
    forall a | a in t.acks && a.1.Accepted? ensures AckOk(t, a.0, a.1.snapshot) {
      if a in s.acks { InLogExtends(s, t, a.1.snapshot); }
    }
  }

  lemma HeadIsInLog(s: System)
    requires LogOk(s)
    ensures InLog(s, Head(s)) && Opens(Head(s), s.root, s.clock) && Head(s).revision == |s.log|
  {
    hide Vault.Valid;
    assert EntryOk(s, s.log[|s.log| - 1], |s.log| - 1);
  }

  lemma LoggedOpens(s: System, x: Snap)
    requires LogOk(s) && InLog(s, x)
    ensures Opens(x, s.root, s.clock) && NoOverlap(x.blob.data)
  {
    hide Vault.Valid;
    assert EntryOk(s, s.log[x.revision - 1], x.revision - 1);
  }

  lemma CleanOk(s: System, x: Snap)
    requires LogOk(s) && InLog(s, x)
    ensures AccountOk(s, Clean(x))
  {
    hide Vault.Valid;
    LoggedOpens(s, x);
  }

  /** Replacing one node, and sending at most one good upload, keeps the invariant. */
  lemma NodeStepKeeps(s: System, i: nat, n: Node, sent: set<Upload>, t: System)
    requires Inv(s) && t == Put(s, i, n).(sent := sent) && s.sent <= sent
    requires NodeOk(t, n) && forall u | u in sent - s.sent :: UploadOk(s, u)
    ensures Inv(t) && Extends(s, t)
  {
    hide Vault.Valid, A.Inv;
    forall u | u in t.sent ensures UploadOk(t, u) { assert UploadOk(s, u); }
    forall j | j in t.nodes ensures NodeOk(t, t.nodes[j]) {
      if j != i { NodeExtends(s, t, s.nodes[j]); }
    }
    forall k | 0 <= k < |t.log| ensures EntryOk(t, t.log[k], k) { assert EntryOk(s, s.log[k], k); }
    forall a | a in t.acks && a.1.Accepted? ensures AckOk(t, a.0, a.1.snapshot) { assert AckOk(s, a.0, a.1.snapshot); }
  }

  lemma FetchedKeeps(s: System, c: Account, remote: Snap)
    requires LogOk(s) && AccountOk(s, c) && InLog(s, remote) && c.base.revision <= remote.revision
    ensures var o := Fetched(c, remote, s.root, s.clock);
            (o.Next? && AccountOk(s, o.account) && !c.dirty) || (o.Merging? && c.dirty)
  {
    hide Vault.Valid, A.Inv;
    CleanOk(s, remote);
    LoggedOpens(s, remote);
  }

  lemma AcknowledgedKeeps(s: System, c: Account, out: Snap, again: bool)
    requires LogOk(s) && c.pending.Some? && AccountOk(s, c) && AckOk(s, ToUpload(c.pending.value), out)
    ensures var o := Acknowledged(c, c.pending.value, out, again, s.root, s.clock);
            o.Next? && AccountOk(s, o.account) && o.account == Clean(out)
  {
    hide Vault.Valid;
    CleanOk(s, out);
    LoggedOpens(s, out);
  }

  lemma MergeUploadKeeps(h: Digests, s: System, i: nat, n: Node, data: Data, id: string, nonce: nat, t: System)
    requires Inv(s) && i in s.nodes && s.nodes[i] == n && ClientStep(h, s, MergeAndUpload(i, data, id, nonce), n, t)
    ensures Inv(t) && Extends(s, t)
  {
    hide Vault.Valid, A.Inv;
    assert NodeOk(s, n);
    var request := Seal(s.root, n.phase.remote.revision, id, data, nonce);
    var parked := Park(n.phase.mem, request);
    var b, l, r := n.phase.mem.base.blob.data, Working(n.phase.mem), n.phase.remote.blob.data;
    assert Merged(h, b, l, r, data) && Valid(data, s.clock);
    MergedNoOverlap(h, b, l, r, data);
    FetchedKeeps(s, n.phase.mem, n.phase.remote);
    assert AccountOk(t, parked);
    NodeStepKeeps(s, i, Node(parked, Uploading(parked)), t.sent, t);
  }

  lemma MergedNoOverlap(h: Digests, b: Data, l: Data, r: Data, out: Data)
    requires Merged(h, b, l, r, out)
    ensures NoOverlap(out)
  {
    MergeLaws.MergedIsReconciled(h, b, l, r, out);
    forall id | id in out.deleted ensures id !in out.entries {
      assert MergeLaws.Final(SlotAt(out, id));
    }
  }

  /** A step of one node that sends nothing new. */
  lemma QuietStepKeeps(s: System, i: nat, m: Node, t: System)
    requires Inv(s) && t == Put(s, i, m) && NodeOk(s, m)
    ensures Inv(t) && Extends(s, t)
  {
    hide Vault.Valid, A.Inv;
    NodeExtends(s, t, m);
    NodeStepKeeps(s, i, m, s.sent, t);
  }

  lemma RetryReplyKeeps(h: Digests, s: System, lbl: Label, n: Node, t: System)
    requires Inv(s) && lbl.RetryReply? && lbl.i in s.nodes && s.nodes[lbl.i] == n && ClientStep(h, s, lbl, n, t)
    ensures Inv(t) && Extends(s, t)
  {
    hide Vault.Valid, A.Inv, Ops.Step, Merge.Merges;
    AfterRetryOk(s, n, lbl.reply);
    QuietStepKeeps(s, lbl.i, AfterRetry(n, lbl.reply, s.root, s.clock), t);
  }

  lemma AfterRetryOk(s: System, n: Node, reply: A.Reply<Sealed>)
    requires Inv(s) && NodeOk(s, n) && n.phase.Retrying? && (ToUpload(n.phase.mem.pending.value), reply) in s.acks
    ensures NodeOk(s, AfterRetry(n, reply, s.root, s.clock))
  {
    hide Vault.Valid, A.Inv;
    if reply.Accepted? {
      assert AckOk(s, ToUpload(n.phase.mem.pending.value), reply.snapshot);
      AcknowledgedKeeps(s, n.phase.mem, reply.snapshot, true);
    }
  }

  lemma UploadReplyKeeps(h: Digests, s: System, lbl: Label, n: Node, t: System)
    requires Inv(s) && lbl.UploadReply? && lbl.i in s.nodes && s.nodes[lbl.i] == n && ClientStep(h, s, lbl, n, t)
    ensures Inv(t) && Extends(s, t)
  {
    hide Vault.Valid, A.Inv, Ops.Step, Merge.Merges, LogOk, TrafficOk, AccountOk, Opens;
    assert NodeOk(s, n);
    AfterUploadOk(s, n, lbl.out);
    QuietStepKeeps(s, lbl.i, t.nodes[lbl.i], t);
  }

  lemma AfterUploadOk(s: System, n: Node, out: Snap)
    requires Inv(s) && NodeOk(s, n) && n.phase.Uploading?
             && (ToUpload(n.phase.mem.pending.value), A.Accepted(out)) in s.acks
    ensures NodeOk(s, AfterOutcome(n, Acknowledged(n.phase.mem, n.phase.mem.pending.value, out, false, s.root,
                                                   s.clock)))
  {
    hide Vault.Valid, A.Inv;
    assert AckOk(s, ToUpload(n.phase.mem.pending.value), out);
    AcknowledgedKeeps(s, n.phase.mem, out, false);
  }

  lemma EditKeeps(h: Digests, s: System, lbl: Label, n: Node, t: System)
    requires Inv(s) && lbl.Edit? && lbl.i in s.nodes && s.nodes[lbl.i] == n && ClientStep(h, s, lbl, n, t)
    ensures Inv(t) && Extends(s, t)
  {
    hide Vault.Valid, A.Inv, Ops.Step, Merge.Merges;
    assert NodeOk(s, n);
    QuietStepKeeps(s, lbl.i, t.nodes[lbl.i], t);
  }

  lemma StartKeeps(h: Digests, s: System, lbl: Label, n: Node, t: System)
    requires Inv(s) && lbl.Start? && lbl.i in s.nodes && s.nodes[lbl.i] == n && ClientStep(h, s, lbl, n, t)
    ensures Inv(t) && Extends(s, t)
  {
    hide Vault.Valid, A.Inv, Ops.Step, Merge.Merges;
    assert NodeOk(s, n);
    if n.disk.pending.Some? {
      assert s.sent + {ToUpload(n.disk.pending.value)} == s.sent;
    }
    QuietStepKeeps(s, lbl.i, t.nodes[lbl.i], t);
  }

  lemma FetchKeeps(h: Digests, s: System, lbl: Label, n: Node, t: System)
    requires Inv(s) && (lbl.SignInAgain? || lbl.FetchReply? || lbl.Compare? || lbl.GiveUp?)
    requires lbl.i in s.nodes && s.nodes[lbl.i] == n && ClientStep(h, s, lbl, n, t)
    ensures Inv(t) && Extends(s, t)
  {
    hide Vault.Valid, A.Inv, Ops.Step, Merge.Merges, LogOk, TrafficOk, AccountOk, Opens;
    assert NodeOk(s, n);
    HeadIsInLog(s);
    CleanOk(s, Head(s));
    if lbl.Compare? { ComparedOk(s, n); }
    if lbl.FetchReply? { BaseIsInLog(s, n); }
    assert NodeOk(s, t.nodes[lbl.i]);
    QuietStepKeeps(s, lbl.i, t.nodes[lbl.i], t);
  }

  lemma ComparedOk(s: System, n: Node)
    requires LogOk(s) && NodeOk(s, n) && n.phase.Holding?
    ensures NodeOk(s, AfterOutcome(n, Fetched(n.phase.mem, n.phase.remote, s.root, s.clock)))
  {
    hide Vault.Valid, A.Inv;
    FetchedKeeps(s, n.phase.mem, n.phase.remote);
  }

  lemma BaseIsInLog(s: System, n: Node)
    requires NodeOk(s, n) && !n.phase.Idle?
    ensures n.phase.mem.base.revision <= |s.log|
  {
    hide Vault.Valid, A.Inv;
  }

  lemma JoinKeeps(s: System, i: nat, t: System)
    requires Inv(s) && t == Put(s, i, Node(Clean(Head(s)), Idle))
    ensures Inv(t) && Extends(s, t)
  {
    hide Vault.Valid, A.Inv;
    HeadIsInLog(s);
    CleanOk(s, Head(s));
    QuietStepKeeps(s, i, t.nodes[i], t);
  }

  lemma StepKeeps(h: Digests, s: System, lbl: Label, t: System)
    requires Inv(s) && Step(h, s, lbl, t)
    ensures Inv(t) && Extends(s, t)
  {
    hide Vault.Valid, A.Inv, A.Serve, ClientStep, Extends, NodeOk, TrafficOk, EntryOk;
    match lbl
    case Tick => TickKeeps(s, t);
    case ServerStep(q) => ServerStepKeeps(s, q);
    case Join(i) => JoinKeeps(s, i, t);
    case MergeAndUpload(i, data, id, nonce) => MergeUploadKeeps(h, s, i, s.nodes[i], data, id, nonce, t);
    case RetryReply(i, _) => RetryReplyKeeps(h, s, lbl, s.nodes[i], t);
    case UploadReply(i, _) => UploadReplyKeeps(h, s, lbl, s.nodes[i], t);
    case Edit(i, _, _, _, _) => EditKeeps(h, s, lbl, s.nodes[i], t);
    case Start(i) => StartKeeps(h, s, lbl, s.nodes[i], t);
    case _ => FetchKeeps(h, s, lbl, s.nodes[NodeOf(lbl).value], t);
  }
}
