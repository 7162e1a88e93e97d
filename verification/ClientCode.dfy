/** The client's account object in its own form: fields updated step by step around three requests,
    with the account file beside them (internal/cloudsync/client.go). Nothing is assumed of the
    replies: the server may answer anything at all. */
module ClientCode {
  import opened Text
  import opened Vault
  import opened Client
  import opened Merge
  import VaultCode
  import A = Account
  import S = Sync
  import SyncRuns

  datatype Reply = Answer(out: Snap) | Api(status: nat) | Down

  /** What the world does during one attempt: the three replies, the clock, the random bytes, whether
      the draft can be sealed, the two writes of the account file and the wait before a retry. */
  datatype Env = Env(again: Reply, get: Reply, put: Reply, now: nat, id: string, nonce: nat,
                     seals: bool, parks: bool, saves: bool, cancelled: bool)

  datatype Error = Fine | ApiError(status: nat) | NetworkError | ProtocolError | MergeError | LocalError | Cancelled

  /** The unlocked vault: its root key and the data being worked on. */
  class OpenVault {
    const root: string
    var data: Data

    constructor (root: string, data: Data)
      ensures this.root == root && this.data == data
    {
      this.root, this.data := root, data;
    }
  }

  /** An upload is signed by the root and builds on no older revision than the base. */
  predicate Forward(root: string, c: Account) {
    c.pending.Some? ==>
      && c.base.revision <= c.pending.value.base
      && A.Verify(root, c.pending.value.signature,
                  A.SyncMessage(c.pending.value.base, c.pending.value.op, c.pending.value.blob))
  }

  /** A snapshot that may follow `base`: authentic, no older, and the same if of the same revision. */
  predicate Follows(root: string, now: nat, base: Snap, x: Snap) {
    && base.revision <= x.revision && Opens(x, root, now)
    && (base.revision == x.revision ==> x.blob == base.blob && x.signature == base.signature)
  }

  /** `out` is a merge of the work `w` with an authentic answer of the server, against `base`. */
  ghost predicate MergedWork(h: Digests, root: string, e: Env, base: Snap, w: Data, out: Data) {
    && e.get.Answer? && Follows(root, e.now, base, e.get.out)
    && Merges(h, e.now, base.blob.data, w, e.get.out.blob.data, Ok(out))
  }

  /** What an attempt that fails may make of the account file: nothing, or the merge of its draft
      with an authentic snapshot, sealed on top of that snapshot and parked for upload; the base does
      not move. */
  ghost predicate Parked(h: Digests, root: string, e: Env, c: Account, d: Account) {
    || d == c
    || (&& c.dirty && d == Park(c, d.draft) && MergedWork(h, root, e, c.base, Working(c), Working(d))
        && d.draft == Seal(root, e.get.out.revision, e.id, Working(d), e.nonce))
  }

  /** What an attempt that succeeds makes of it: a clean account moves to an authentic snapshot that
      follows its base; a dirty one to a commit of its draft, or of the merge of its draft. Only a
      repeated upload may be answered by a snapshot without a revision. */
  ghost predicate Settled(h: Digests, root: string, e: Env, c: Account, d: Account) {
    && d == Clean(d.base)
    && if !c.dirty then e.get == Answer(d.base) && Follows(root, e.now, c.base, d.base)
       else
         && (c.base.revision < d.base.revision || (d.base.revision == 0 && e.again == Answer(d.base)))
         && (d.base.blob == c.draft.blob
             || (MergedWork(h, root, e, c.base, Working(c), Working(d)) && d.base.revision == e.get.out.revision + 1))
  }

  /** The base is an acknowledgement of the upload of the account's work. */
  ghost predicate Confirmed(root: string, e: Env, d: Account) {
    e.get.Answer? &&
    forall c ::
      Acknowledged(c, Seal(root, e.get.out.revision, e.id, Working(d), e.nonce), d.base, false, root, e.now) == Next(d)
  }

  /** The step of the protocol model that compares a fetched head is the code's comparison: it goes on
      exactly with snapshots that follow the base, to a merge exactly if there is work to merge. */
  lemma FetchedIff(c: Account, remote: Snap, root: string, now: nat)
    ensures Fetched(c, remote, root, now).Next? <==> !c.dirty && Follows(root, now, c.base, remote)
    ensures Fetched(c, remote, root, now).Merging? <==> c.dirty && Follows(root, now, c.base, remote)
    ensures Fetched(c, remote, root, now).Next? ==> Fetched(c, remote, root, now).account == Clean(remote)
  {
    hide Vault.Valid;
  }

  // --- a base that moves back ---

  /** A repeated upload that is acknowledged moves the base forward, unless the answer has no revision: then, and
      only then, the base moves back. */
  lemma RepeatMovesBackIff(root: string, now: nat, c: Account, out: Snap)
    requires Forward(root, c) && c.pending.Some? && Acknowledged(c, c.pending.value, out, true, root, now).Next?
    ensures out.revision < c.base.revision <==> out.revision == 0 < c.base.revision
    ensures out.revision != 0 ==> out.revision == c.pending.value.base + 1 > c.base.revision
  {
    hide Vault.Valid;
  }

  /** An answer that only echoes the request does so: a committed base of revision 1 is given up for a
      snapshot that was never committed. */
  lemma EchoMovesBack(root: string, op: string, nonce: nat, now: nat)
    ensures var base := Seal(root, 0, op, EmptyData, nonce).(revision := 1);
            var request := Seal(root, 1, op, EmptyData, nonce + 1);
            var c := Account(base, request, true, Some(request));
            && Shaped(c) && Forward(root, c) && Opens(base, root, now)
            && Acknowledged(c, request, request, true, root, now) == Next(Clean(request))
            && Clean(request).base.revision < c.base.revision
  {}

  // --- the code as steps of the protocol ---

  /** What a reply is to the protocol. */
  function Given(r: Reply): Option<A.Reply<Sealed>> {
    match r
    case Answer(out) => Some(A.Accepted(out))
    case Api(status) => Some(A.Refused(status))
    case Down => None
  }

  /** One step of a client, for the replies of `e`. */
  ghost predicate NodeStep(h: Digests, root: string, e: Env, lbl: S.Label, n: S.Node, m: S.Node) {
    match lbl
    case Start(_) =>
      n.phase.Idle?
      && m == n.(phase := if n.disk.pending.Some? then S.Retrying(n.disk) else S.Fetching(n.disk))
    case RetryReply(_, reply) =>
      n.phase.Retrying? && n.phase.mem.pending.Some? && Given(e.again) == Some(reply)
      && m == S.AfterRetry(n, reply, root, e.now)
    case FetchReply(_) => n.phase.Fetching? && e.get.Answer? && m == n.(phase := S.Holding(n.phase.mem, e.get.out))
    case Compare(_) =>
      n.phase.Holding?
      && (var o := Fetched(n.phase.mem, n.phase.remote, root, e.now); !o.Merging? && m == S.AfterOutcome(n, o))
    case MergeAndUpload(_, data, id, nonce) =>
      n.phase.Holding? && Fetched(n.phase.mem, n.phase.remote, root, e.now).Merging?
      && Merges(h, e.now, n.phase.mem.base.blob.data, Working(n.phase.mem), n.phase.remote.blob.data, Ok(data))
      && (var parked := Park(n.phase.mem, Seal(root, n.phase.remote.revision, id, data, nonce));
          m == S.Node(parked, S.Uploading(parked)))
    case UploadReply(_, out) =>
      n.phase.Uploading? && n.phase.mem.pending.Some? && e.put == Answer(out)
      && m == S.AfterOutcome(n, Acknowledged(n.phase.mem, n.phase.mem.pending.value, out, false, root, e.now))
    case GiveUp(_) => m == n.(phase := S.Idle)
    case _ => false
  }

  /** The replies that the step reads are those of the system: acknowledgements of the upload, and its head. */
  predicate Answered(s: S.System, e: Env, lbl: S.Label, n: S.Node)
    requires s.log != []
  {
    match lbl
    case RetryReply(_, reply) =>
      n.phase.Retrying? && n.phase.mem.pending.Some?
      && (ToUpload(n.phase.mem.pending.value), reply) in s.acks
    case FetchReply(_) => e.get == Answer(S.Head(s))
    case UploadReply(_, out) =>
      n.phase.Uploading? && n.phase.mem.pending.Some?
      && (ToUpload(n.phase.mem.pending.value), A.Accepted(out)) in s.acks
    case _ => true
  }

  /** Such a step, taken in a run that answers it, is a step of the run. */
  lemma MoveExtendsRun(h: Digests, states: seq<S.System>, labels: seq<S.Label>, i: nat, e: Env, lbl: S.Label, m: S.Node)
    returns (t: S.System)
    requires SyncRuns.Run(h, states, labels)
    requires var s := states[|states| - 1];
             && i in s.nodes && S.NodeOf(lbl) == Some(i) && e.now == s.clock && Answered(s, e, lbl, s.nodes[i])
             && NodeStep(h, s.root, e, lbl, s.nodes[i], m)
    ensures SyncRuns.Run(h, states + [t], labels + [lbl]) && i in t.nodes && t.nodes[i] == m
  {
    hide Merge.Merges, Vault.Valid, Fetched, Acknowledged, S.Init;
    var s := states[|states| - 1];
    var sent := match lbl
      case Start(_) => if m.phase.Retrying? then s.sent + {ToUpload(m.disk.pending.value)} else s.sent
      case MergeAndUpload(_, _, _, _) => s.sent + {ToUpload(m.disk.pending.value)}
      case _ => s.sent;
    t := S.Put(s, i, m).(sent := sent);
    assert S.Step(h, s, lbl, t) by { MoveIsStep(h, s, i, e, lbl, m, t); }
    hide S.Step;
  }

  lemma MoveIsStep(h: Digests, s: S.System, i: nat, e: Env, lbl: S.Label, m: S.Node, t: S.System)
    requires s.log != [] && i in s.nodes && S.NodeOf(lbl) == Some(i) && e.now == s.clock
             && Answered(s, e, lbl, s.nodes[i])
    requires NodeStep(h, s.root, e, lbl, s.nodes[i], m)
    requires t == S.Put(s, i, m).(sent := t.sent)
    requires t.sent == match lbl
               case Start(_) => if m.phase.Retrying? then s.sent + {ToUpload(m.phase.mem.pending.value)} else s.sent
               case MergeAndUpload(_, _, _, _) => s.sent + {ToUpload(m.disk.pending.value)}
               case _ => s.sent
    ensures S.Step(h, s, lbl, t)
  {
    hide Merge.Merges, Vault.Valid, Fetched, Acknowledged;
  }

  /** A step of a client together with the replies it saw. */
  datatype Move = Move(e: Env, lbl: S.Label, node: S.Node)

  function End(n: S.Node, path: seq<Move>): S.Node {
    if path == [] then n else path[|path| - 1].node
  }

  ghost predicate Walk(h: Digests, root: string, n: S.Node, path: seq<Move>) {
    forall k | 0 <= k < |path| :: NodeStep(h, root, path[k].e, path[k].lbl, End(n, path[..k]), path[k].node)
  }

  lemma WalkOn(h: Digests, root: string, n: S.Node, path: seq<Move>, x: Move)
    requires Walk(h, root, n, path) && NodeStep(h, root, x.e, x.lbl, End(n, path), x.node)
    ensures Walk(h, root, n, path + [x]) && End(n, path + [x]) == x.node
  {
    hide NodeStep;
    forall k | 0 <= k < |path + [x]|
      ensures NodeStep(h, root, (path + [x])[k].e, (path + [x])[k].lbl, End(n, (path + [x])[..k]), (path + [x])[k].node)
    {
      assert (path + [x])[..k] == path[..k];
      assert path[..|path|] == path;
    }
  }

  lemma WalkPart(h: Digests, root: string, n: S.Node, path: seq<Move>)
    requires Walk(h, root, n, path) && path != []
    ensures var k := |path| - 1;
            Walk(h, root, n, path[..k]) && NodeStep(h, root, path[k].e, path[k].lbl, End(n, path[..k]), path[k].node)
  {
    hide NodeStep;
    var k := |path| - 1;
    assert forall i | 0 <= i < k :: path[..k][..i] == path[..i] && path[..k][i] == path[i];
  }

  lemma {:induction false} WalkJoin(h: Digests, root: string, n: S.Node, one: seq<Move>, two: seq<Move>)
    requires Walk(h, root, n, one) && Walk(h, root, End(n, one), two)
    ensures Walk(h, root, n, one + two) && End(n, one + two) == End(End(n, one), two)
    decreases |two|
  {
    hide NodeStep, Walk;
    if two == [] {
      assert one + two == one;
    } else {
      var rest, x := two[..|two| - 1], two[|two| - 1];
      WalkPart(h, root, End(n, one), two);
      WalkJoin(h, root, n, one, rest);
      WalkOn(h, root, n, one + rest, x);
      assert one + two == one + rest + [x];
    }
  }

  /** The client between commands: idle, unless memory has given up the pending mark of the file. */
  function At(disk: Account, mem: Account): S.Node {
    if mem.pending == disk.pending then S.Node(disk, S.Idle) else S.Node(disk, S.Fetching(mem))
  }

  lemma NoWalk(h: Digests, root: string, n: S.Node)
    ensures Walk(h, root, n, []) && End(n, []) == n
  {}

  lemma Go(h: Digests, root: string, n: S.Node, path: seq<Move>, e: Env, lbl: S.Label, m: S.Node)
    returns (longer: seq<Move>)
    requires Walk(h, root, n, path) && NodeStep(h, root, e, lbl, End(n, path), m)
    ensures Walk(h, root, n, longer) && End(n, longer) == m
  {
    longer := path + [Move(e, lbl, m)];
    WalkOn(h, root, n, path, Move(e, lbl, m));
  }

  lemma Starts(h: Digests, root: string, e: Env, disk: Account)
    ensures NodeStep(h, root, e, S.Start(0), S.Node(disk, S.Idle),
                     S.Node(disk, if disk.pending.Some? then S.Retrying(disk) else S.Fetching(disk)))
  {}

  lemma Retries(h: Digests, root: string, e: Env, disk: Account)
    requires disk.pending.Some? && e.again.Answer?
             && Acknowledged(disk, disk.pending.value, e.again.out, true, root, e.now).Next?
    ensures NodeStep(h, root, e, S.RetryReply(0, A.Accepted(e.again.out)), S.Node(disk, S.Retrying(disk)),
                     S.Node(Clean(e.again.out), S.Idle))
  {
    hide Vault.Valid;
  }

  lemma Conflicts(h: Digests, root: string, e: Env, disk: Account)
    requires disk.pending.Some? && e.again == Api(409)
    ensures NodeStep(h, root, e, S.RetryReply(0, A.Refused(409)), S.Node(disk, S.Retrying(disk)),
                     S.Node(disk, S.Fetching(disk.(pending := None))))
  {}

  lemma GivesUp(h: Digests, root: string, e: Env, n: S.Node)
    ensures NodeStep(h, root, e, S.GiveUp(0), n, S.Node(n.disk, S.Idle))
  {}

  lemma Fetches(h: Digests, root: string, e: Env, disk: Account, mem: Account)
    requires e.get.Answer?
    ensures NodeStep(h, root, e, S.FetchReply(0), S.Node(disk, S.Fetching(mem)),
                     S.Node(disk, S.Holding(mem, e.get.out)))
  {}

  lemma Compares(h: Digests, root: string, e: Env, disk: Account, mem: Account, remote: Snap)
    requires !mem.dirty && Follows(root, e.now, mem.base, remote)
    ensures NodeStep(h, root, e, S.Compare(0), S.Node(disk, S.Holding(mem, remote)), S.Node(Clean(remote), S.Idle))
  {
    FetchedIff(mem, remote, root, e.now);
  }

  lemma Uploads(h: Digests, root: string, e: Env, disk: Account, mem: Account, data: Data)
    requires mem.dirty && MergedWork(h, root, e, mem.base, Working(mem), data)
    ensures var parked := Park(mem, Seal(root, e.get.out.revision, e.id, data, e.nonce));
            NodeStep(h, root, e, S.MergeAndUpload(0, data, e.id, e.nonce), S.Node(disk, S.Holding(mem, e.get.out)),
                     S.Node(parked, S.Uploading(parked)))
  {
    hide Merge.Merges, Vault.Valid;
    FetchedIff(mem, e.get.out, root, e.now);
  }

  lemma Finishes(h: Digests, root: string, e: Env, parked: Account)
    requires parked.pending.Some? && e.put.Answer?
             && Acknowledged(parked, parked.pending.value, e.put.out, false, root, e.now).Next?
    ensures NodeStep(h, root, e, S.UploadReply(0, e.put.out), S.Node(parked, S.Uploading(parked)),
                     S.Node(Clean(e.put.out), S.Idle))
  {
    hide Vault.Valid;
  }

  /** The steps that a merge and its upload were. */
  lemma AfterUpload(h: Digests, root: string, e: Env, start: S.Node, path: seq<Move>, mem: Account, was: Account,
                    disk: Account, err: Error)
    returns (longer: seq<Move>)
    requires Walk(h, root, start, path) && e.get.Answer? && End(start, path) == S.Node(was, S.Holding(mem, e.get.out))
    requires mem == was.(pending := None) && mem.dirty
    requires err.Fine? ==>
               disk == Clean(disk.base) && e.put == Answer(disk.base)
               && MergedWork(h, root, e, mem.base, Working(mem), Working(disk))
    requires err.Fine? ==> Confirmed(root, e, disk)
    requires !err.Fine? ==> Parked(h, root, e, was, disk)
    ensures Walk(h, root, start, longer) && End(start, longer) == S.Node(disk, S.Idle)
  {
    hide Merge.Merges, Vault.Valid, NodeStep, Walk, MergedWork, Acknowledged;
    longer := path;
    if err.Fine? || disk != was {
      var data := Working(disk);
      var parked := Park(mem, Seal(root, e.get.out.revision, e.id, data, e.nonce));
      Uploads(h, root, e, was, mem, data);
      longer := Go(h, root, start, longer, e, S.MergeAndUpload(0, data, e.id, e.nonce),
                   S.Node(parked, S.Uploading(parked)));
      if err.Fine? {
        Finishes(h, root, e, parked);
        longer := Go(h, root, start, longer, e, S.UploadReply(0, e.put.out), S.Node(disk, S.Idle));
        return;
      }
    }
    GivesUp(h, root, e, End(start, longer));
    longer := Go(h, root, start, longer, e, S.GiveUp(0), S.Node(disk, S.Idle));
  }

  /** `d` comes from `c` by failed attempts only. */
  ghost predicate Reworked(h: Digests, root: string, envs: seq<Env>, c: Account, d: Account) {
    if envs == [] then d == c
    else
      var before, last := envs[..|envs| - 1], envs[|envs| - 1];
      exists m :: Reworked(h, root, before, c, m) && Parked(h, root, last, m, d)
  }

  /** A reply to an upload is accepted exactly if it is that very upload: on the revision it asked for, if it was sent
      for the first time, and authentic, if it was repeated. */
  lemma AcknowledgedIff(c: Account, request: Snap, out: Snap, again: bool, root: string, now: nat)
    ensures Acknowledged(c, request, out, again, root, now).Next? <==>
              && out.blob == request.blob && out.signature == request.signature
              && (if again then Opens(out, root, now) else out.revision == request.base + 1)
    ensures Acknowledged(c, request, out, again, root, now).Next? ==>
              Acknowledged(c, request, out, again, root, now) == Next(Clean(out))
  {}

  /** A snapshot opens exactly if the vault's root signed it as it is, and what it seals is a valid vault. */
  lemma OpensIff(x: Snap, root: string, now: nat)
    ensures Opens(x, root, now) <==>
              && x.root == root && x.signature == A.Signed(root, A.SyncMessage(x.base, x.op, x.blob))
              && x.revision in {0, x.base + 1} && Valid(x.blob.data, now)
  {}

  /** However many attempts fail, a dirty account stays dirty on the same base, and a clean one is
      not touched. */
  lemma {:induction false} ReworkedKeepsBase(h: Digests, root: string, envs: seq<Env>, c: Account, d: Account)
    requires Reworked(h, root, envs, c, d)
    ensures d.base == c.base && d.dirty == c.dirty && (!c.dirty ==> d == c)
  {
    hide Merge.Merges, Vault.Valid;
    if envs != [] {
      var m :| Reworked(h, root, envs[..|envs| - 1], c, m) && Parked(h, root, envs[|envs| - 1], m, d);
      ReworkedKeepsBase(h, root, envs[..|envs| - 1], c, m);
    }
  }

  lemma ReworkedOnce(h: Digests, root: string, envs: seq<Env>, n: nat, c: Account, m: Account, d: Account)
    requires n < |envs| && Reworked(h, root, envs[..n], c, m) && Parked(h, root, envs[n], m, d)
    ensures Reworked(h, root, envs[..n + 1], c, d)
  {
    hide Parked;
    assert envs[..n + 1][..n] == envs[..n];
  }

  class State {
    var token: string
    var base: Snap
    var draft: Snap
    var dirty: bool
    var pending: Option<Snap>
    var disk: Account

    constructor (token: string, s: Snap)
      ensures this.token == token && Mem() == disk == Clean(s)
    {
      this.token, base, draft, dirty, pending := token, s, s, false, None;
      disk := Clean(s);
    }

    function Mem(): Account
      reads this
    {
      Account(base, draft, dirty, pending)
    }

    /** Between commands: the file says what memory says, except that memory may already have given
        up a pending mark; and the open vault holds the draft. */
    predicate Ready(v: OpenVault)
      reads this, v
    {
      && Shaped(Mem()) && Shaped(disk) && Forward(v.root, Mem()) && Forward(v.root, disk)
      && disk.(pending := pending) == Mem() && (pending.Some? ==> disk.pending == pending)
      && v.data == draft.blob.data
    }

    method Save(works: bool) returns (err: Error)
      modifies this`disk
      ensures err == if works then Fine else LocalError
      ensures disk == if works then Mem() else old(disk)
    {
      if !works {
        return LocalError;
      }
      disk := Account(base, draft, dirty, pending);
      err := Fine;
    }

    method SaveDraft(v: OpenVault, e: Env) returns (err: Error)
      requires Shaped(Mem())
      modifies this
      ensures token == old(token)
      ensures err.Fine? <==> old(pending).None? && e.seals && e.saves
      ensures var s := Client.SaveDraft(old(Mem()), Seal(v.root, old(base).revision, e.id, v.data, e.nonce));
              && (err.Fine? ==> s == Some(Mem()) && disk == Mem() && Ready(v))
              && (!err.Fine? ==> disk == old(disk))
              && (s.None? ==> Mem() == old(Mem()))
    {
      if pending.Some? {
        return ProtocolError;
      }
      if !e.seals {
        return LocalError;
      }
      draft := Seal(v.root, base.revision, e.id, v.data, e.nonce);
      dirty := true;
      pending := None;
      err := Save(e.saves);
    }

    /** Adopt an accepted snapshot as base and draft. */
    method Adopt(v: OpenVault, out: Snap, e: Env) returns (err: Error)
      modifies this, v
      ensures token == old(token) && Mem() == Clean(out) && v.data == out.blob.data
      ensures err == if e.saves then Fine else LocalError
      ensures disk == if e.saves then Clean(out) else old(disk)
    {
      v.data := out.blob.data;
      base := out;
      draft := out;
      pending := None;
      dirty := false;
      err := Save(e.saves);
    }

    /** The pending upload, repeated byte for byte. */
    method Repeat(v: OpenVault, e: Env) returns (finished: bool, err: Error)
      requires Ready(v) && pending.Some?
      modifies this, v
      ensures token == old(token)
      ensures finished <==> e.again != Api(409)
      ensures !finished ==> Mem() == old(Mem()).(pending := None) && disk == old(disk) && v.data == old(v.data)
      ensures finished ==>
                (err.Fine? <==> e.again.Answer? && e.saves
                                && Acknowledged(old(Mem()), old(pending).value, e.again.out, true, v.root, e.now).Next?)
      ensures finished && err.Fine? ==> Mem() == disk == Clean(e.again.out) && v.data == disk.draft.blob.data
      ensures finished && !err.Fine? ==>
                disk == old(disk) && (err.ApiError? ==> Mem() == old(Mem()) && v.data == old(v.data))
      ensures finished && err.Fine? ==> e.again.out.blob == old(draft).blob
                                         && (e.again.out.revision == 0 || old(base).revision < e.again.out.revision)
    {
      match e.again
      case Answer(out) =>
        if !Opens(out, v.root, e.now) {
          return true, ProtocolError;
        }
        if out.blob != pending.value.blob || out.signature != pending.value.signature {
          return true, ProtocolError;
        }
        finished := true;
        err := Adopt(v, out, e);
      case Api(status) =>
        if status != 409 {
          return true, ApiError(status);
        }
        pending := None;
        return false, Fine;
      case Down => return true, NetworkError;
    }

    /** Merge the draft with the fetched head, park the result as the pending upload and send it. */
    method MergeAndUpload(h: Digests, v: OpenVault, e: Env) returns (err: Error)
      requires Ready(v) && dirty && pending.None? && e.get.Answer? && Follows(v.root, e.now, base, e.get.out)
      modifies this, v
      ensures token == old(token)
      ensures if err.Fine? then Settled(h, v.root, e, old(disk), disk) else Parked(h, v.root, e, old(disk), disk)
      ensures err.Fine? ==> Mem() == disk && v.data == disk.draft.blob.data
                            && e.put == Answer(disk.base) && disk.base.revision == e.get.out.revision + 1
      ensures err.Fine? ==> MergedWork(h, v.root, e, old(base), old(v.data), Working(disk))
                            && Confirmed(v.root, e, disk)
      ensures err.ProtocolError? && Opens(old(base), v.root, e.now) ==>
                disk.pending.Some? && e.put.Answer?
                && Acknowledged(disk, disk.draft, e.put.out, false, v.root, e.now).Mismatch?
      ensures err.ApiError? ==> Ready(v) && Mem() == disk && disk.pending.Some? && e.put == Api(err.status)
      ensures !err.MergeError? && !err.LocalError? && !err.ProtocolError? && !e.put.Answer? ==>
                disk.pending.Some? && disk.dirty
    {
      hide Merge.Merges, Vault.Valid;
      var remote := e.get.out;
      if !Opens(base, v.root, e.now) {
        return ProtocolError;
      }
      var merged := VaultCode.MergeVaults(h, e.now, base.blob.data, v.data, remote.blob.data);
      if !merged.Ok? {
        return MergeError;
      }
      v.data := merged.data;
      if !e.seals {
        return LocalError;
      }
      var request := Seal(v.root, remote.revision, e.id, v.data, e.nonce);
      draft := request;
      pending := Some(request);
      err := Save(e.parks);
      if !err.Fine? {
        return;
      }
      match e.put
      case Down => return NetworkError;
      case Api(status) => return ApiError(status);
      case Answer(out) =>
        if out.blob != request.blob || out.signature != request.signature || out.revision != remote.revision + 1 {
          return ProtocolError;
        }
        err := Adopt(v, out, e);
    }

    /** One synchronisation, whatever the server answers: a clean account moves only to an authentic
        snapshot no older than its base; a dirty one keeps its draft, or parks the merge of the draft
        with an authentic snapshot, or ends clean on a commit that holds exactly one of these two.
        Success means the file is clean, and it is what memory and the open vault hold. */
    method Sync(h: Digests, v: OpenVault, e: Env) returns (err: Error, ghost path: seq<Move>)
      requires Ready(v)
      modifies this, v
      ensures token == old(token)
      ensures Walk(h, v.root, old(At(disk, Mem())), path) && End(old(At(disk, Mem())), path).disk == disk
      ensures err.Fine? || err.ApiError? ==> End(old(At(disk, Mem())), path) == At(disk, Mem())
      ensures err.Fine? ==>
                (disk.base.revision < old(base).revision <==>
                 old(pending).Some? && e.again.Answer? && e.again.out.revision == 0 < old(base).revision)
      ensures if err.Fine? then Settled(h, v.root, e, old(disk), disk) else Parked(h, v.root, e, old(disk), disk)
      ensures err.Fine? ==> Mem() == disk && v.data == disk.draft.blob.data
      ensures err.ApiError? ==> Ready(v)
      ensures token != "" && !old(dirty) && e.saves ==>
                (err.Fine? <==> e.get.Answer? && Follows(v.root, e.now, old(base), e.get.out))
    {
      hide Merge.Merges, Vault.Valid, NodeStep, Walk;
      ghost var start := At(disk, Mem());
      path := [];
      NoWalk(h, v.root, start);
      if token == "" {
        return LocalError, path;
      }
      if pending.Some? {
        Starts(h, v.root, e, disk);
        path := Go(h, v.root, start, path, e, S.Start(0), S.Node(disk, S.Retrying(disk)));
        var finished;
        finished, err := Repeat(v, e);
        if finished {
          if err.Fine? {
            Retries(h, v.root, e, old(disk));
            path := Go(h, v.root, start, path, e, S.RetryReply(0, A.Accepted(e.again.out)), S.Node(disk, S.Idle));
          } else {
            GivesUp(h, v.root, e, S.Node(disk, S.Retrying(disk)));
            path := Go(h, v.root, start, path, e, S.GiveUp(0), S.Node(disk, S.Idle));
          }
          return;
        }
        Conflicts(h, v.root, e, disk);
        path := Go(h, v.root, start, path, e, S.RetryReply(0, A.Refused(409)), S.Node(disk, S.Fetching(Mem())));
      } else if disk.pending.None? {
        Starts(h, v.root, e, disk);
        path := Go(h, v.root, start, path, e, S.Start(0), S.Node(disk, S.Fetching(Mem())));
      }
      ghost var rest;
      err, rest := FetchAndMerge(h, v, e);
      WalkJoin(h, v.root, start, path, rest);
      path := path + rest;
    }

    /** The second part: fetch the head, adopt it, or merge with it and upload. */
    method FetchAndMerge(h: Digests, v: OpenVault, e: Env) returns (err: Error, ghost path: seq<Move>)
      requires Ready(v) && pending.None?
      modifies this, v
      ensures token == old(token)
      ensures var start := S.Node(old(disk), S.Fetching(old(Mem())));
              && Walk(h, v.root, start, path) && End(start, path).disk == disk
              && (err.Fine? || err.ApiError? ==> End(start, path) == At(disk, Mem()))
      ensures if err.Fine? then Settled(h, v.root, e, old(disk), disk) else Parked(h, v.root, e, old(disk), disk)
      ensures err.Fine? ==> Mem() == disk && v.data == disk.draft.blob.data && old(base).revision <= disk.base.revision
      ensures err.ApiError? ==> Ready(v)
      ensures !old(dirty) && e.saves ==>
                (err.Fine? <==> e.get.Answer? && Follows(v.root, e.now, old(base), e.get.out))
    {
      hide Merge.Merges, Vault.Valid, NodeStep, Walk;
      ghost var start := S.Node(disk, S.Fetching(Mem()));
      path := [];
      NoWalk(h, v.root, start);
      match e.get
      case Down => return NetworkError, path;
      case Api(status) =>
        if disk.pending.None? {
          GivesUp(h, v.root, e, start);
          path := Go(h, v.root, start, path, e, S.GiveUp(0), S.Node(disk, S.Idle));
        }
        return ApiError(status), path;
      case Answer(remote) =>
        if remote.revision < base.revision {
          return ProtocolError, path;
        }
        if !Opens(remote, v.root, e.now) {
          return ProtocolError, path;
        }
        if remote.revision == base.revision && (remote.blob != base.blob || remote.signature != base.signature) {
          return ProtocolError, path;
        }
        ghost var mem := Mem();
        Fetches(h, v.root, e, disk, mem);
        path := Go(h, v.root, start, path, e, S.FetchReply(0), S.Node(disk, S.Holding(mem, remote)));
        if !dirty {
          err := Adopt(v, remote, e);
          if err.Fine? {
            Compares(h, v.root, e, old(disk), mem, remote);
            path := Go(h, v.root, start, path, e, S.Compare(0), S.Node(disk, S.Idle));
          }
          return;
        }
        err := MergeAndUpload(h, v, e);
        path := AfterUpload(h, v.root, e, start, path, mem, old(disk), disk, err);
    }

    /** Up to five attempts: every one but the last met a concurrent commit, and each next one starts
        from what the one before left parked. */
    method SyncRetry(h: Digests, v: OpenVault, envs: seq<Env>)
      returns (err: Error, ghost n: nat, ghost m: Account, ghost path: seq<Move>)
      requires Ready(v) && |envs| >= 5
      modifies this, v
      ensures Walk(h, v.root, old(At(disk, Mem())), path) && End(old(At(disk, Mem())), path).disk == disk
      ensures n < 5 && Reworked(h, v.root, envs[..n], old(disk), m)
      ensures if err.Fine? then Settled(h, v.root, envs[n], m, disk) else Parked(h, v.root, envs[n], m, disk)
      ensures err.Fine? ==> Mem() == disk && v.data == disk.draft.blob.data
      ensures err == ApiError(409) ==> n == 4
    {
      hide Merge.Merges, Vault.Valid, Parked, Settled, Walk;
      var attempt := 0;
      m, path := disk, [];
      ghost var start := At(disk, Mem());
      NoWalk(h, v.root, start);
      while true
        invariant attempt < 5 && Ready(v) && m == disk && token == old(token)
        invariant Reworked(h, v.root, envs[..attempt], old(disk), disk)
        invariant Walk(h, v.root, start, path) && End(start, path) == At(disk, Mem())
        decreases 5 - attempt
      {
        n, m := attempt, disk;
        ghost var steps;
        err, steps := Sync(h, v, envs[attempt]);
        WalkJoin(h, v.root, start, path, steps);
        path := path + steps;
        if err.Fine? || attempt >= 4 || err != ApiError(409) {
          return;
        }
        if envs[attempt].cancelled {
          return Cancelled, n, m, path;
        }
        ReworkedOnce(h, v.root, envs, n, old(disk), m, disk);
        attempt, m := attempt + 1, disk;
      }
    }
  }
}
