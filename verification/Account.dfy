/** One account's server object: the signed snapshot, its history, device sessions and link
    requests (cloud/src/index.ts). A handler that awaits a signature check is split into the part
    before the await, which captures a task, and the transaction after it. `B` is the type of
    encrypted vault blobs, which the server never opens. */
module Account {
  import opened Text

  /** What a vault root signs. */
  datatype Message<B> =
    | SyncMessage(base: nat, op: string, blob: B)
    | RotateMessage(base: nat, root: string, blob: B, recovery: string)
    | LinkMessage(id: string, publicKey: string, expires: nat, grant: string)

  /** Signatures are deterministic and bind their message; anything else is not a signature. */
  datatype Signature<B> = Signed(signer: string, message: Message<B>) | Forged(bytes: string)

  predicate Verify<B(==)>(root: string, s: Signature<B>, m: Message<B>) {
    s == Signed(root, m)
  }

  datatype Snapshot<B> = Snapshot(revision: nat, base: nat, op: string, blob: B, signature: Signature<B>, root: string)

  /** A device session. `digest` stands for the hash of its bearer token, which is collision free. */
  datatype Device = Device(id: string, display: string, digest: string, expires: nat, created: nat, kind: string)

  datatype State<B> = State(recovery: string, root: string, devices: seq<Device>, snapshot: Snapshot<B>)

  /** `serial` numbers link requests in order of creation, since ids may be reused after deletion. */
  datatype Link = Link(id: string, publicKey: string, deviceId: string, display: string, expires: nat,
                       approved: bool, root: string, token: string, serial: nat)

  /** The body of `PUT /v1/vault` (or, with `rotate`, of `PUT /v1/rotate`). */
  datatype Put<B> = Put(base: nat, op: string, blob: B, signature: Signature<B>,
                        rotate: bool, newRoot: string, recovery: string, authorization: Signature<B>)

  /** A request suspended at its signature check, with what it had read before. */
  datatype Task<B> =
    | PutTask(token: string, put: Put<B>, oldRoot: string, root: string)
    | ApproveTask(token: string, link: Link, root: string, grant: string, signature: Signature<B>)

  /** `issued` and `approvals` record every token handed out and every link serial approved. */
  datatype Server<B(==)> = Server(
    state: Option<State<B>>,
    history: map<nat, Snapshot<B>>,
    links: map<string, Link>,
    tasks: set<Task<B>>,
    issued: set<string>,
    serial: nat,
    approvals: seq<nat>)

  datatype Reply<B> = Accepted(snapshot: Snapshot<B>) | Granted(token: string) | Done | Suspended | Refused(status: nat)

  const SessionMs := 30 * 86400000
  const LinkMs := 600000

  // --- devices ---

  function Find(devices: seq<Device>, token: string, now: nat): Option<Device> {
    if devices == [] then None
    else if devices[0].expires > now && devices[0].digest == token then Some(devices[0])
    else Find(devices[1..], token, now)
  }

  predicate Live<B>(s: Server<B>, token: string, now: nat) {
    s.state.Some? && Find(s.state.value.devices, token, now).Some?
  }

  function Named(devices: seq<Device>, id: string): Option<Device> {
    if devices == [] then None else if devices[0].id == id then Some(devices[0]) else Named(devices[1..], id)
  }

  /** JavaScript's `filter`. */
  function Filter(devices: seq<Device>, p: Device -> bool): seq<Device> {
    if devices == [] then []
    else (if p(devices[0]) then [devices[0]] else []) + Filter(devices[1..], p)
  }

  /** The sessions that survive a login of device `id`. */
  function Others(devices: seq<Device>, id: string, now: nat): seq<Device> {
    Filter(devices, (d: Device) => d.expires > now && d.id != id)
  }

  function Without(devices: seq<Device>, id: string): seq<Device> {
    Filter(devices, (d: Device) => d.id != id)
  }

  predicate ValidLabel(s: string) {
    s != "" && |s| <= 80 && forall c | c in s :: ' ' <= c && c != '\U{7f}'
  }

  datatype Session = Session(deviceId: string, display: string, kind: string, token: string)

  predicate ValidSession(x: Session) {
    ValidId(x.deviceId) && ValidLabel(x.display)
  }

  /** `login`: replace the device's session; at most 32 unexpired sessions. */
  function Login<B>(s: State<B>, now: nat, x: Session): Option<State<B>> {
    var kept := Others(s.devices, x.deviceId, now);
    if !ValidSession(x) || |kept| >= 32 then None
    else
      var previous := Named(s.devices, x.deviceId);
      var display := if previous.Some? then previous.value.display else x.display;
      var created := if previous.Some? then previous.value.created else now;
      var d := Device(x.deviceId, display, x.token, now + SessionMs, created, x.kind);
      Some(s.(devices := kept + [d]))
  }

  // --- requests ---

  datatype Request<B> =
    | Register(put: Put<B>, root: string, recovery: string, session: Session)
    | SignIn(session: Session, passwordOk: bool)
    | Recover(session: Session, codeOk: bool)
    | ChangePassword(token: string, passwordOk: bool)
    | RevokeDevice(token: string, id: string)
    | BeginPut(token: string, put: Put<B>)
    | FinishPut(task: Task<B>)
    | StartLink(id: string, publicKey: string, deviceId: string, display: string)
    | DeleteLink(token: string, id: string)
    | BeginApprove(token: string, id: string, grant: string, signature: Signature<B>)
    | FinishApprove(task: Task<B>, newToken: string)

  function Issue<B>(s: Server<B>, state: Option<State<B>>, x: Session): (Server<B>, Reply<B>) {
    if state.None? then (s, Refused(if ValidSession(x) then 409 else 400))
    else (s.(state := state, issued := s.issued + {x.token}), Granted(x.token))
  }

  function DoRegister<B(==)>(s: Server<B>, now: nat, put: Put<B>, root: string, recovery: string,
                             x: Session): (Server<B>, Reply<B>) {
    if s.state.Some? then (s, Refused(409))
    else if !ValidId(put.op) || put.base != 0 || !Verify(root, put.signature, SyncMessage(0, put.op, put.blob)) then
      (s, Refused(400))
    else Issue(s, Login(State(recovery, root, [], Snapshot(1, 0, put.op, put.blob, put.signature, root)), now, x), x)
  }

  /** `PUT /v1/vault` and `/v1/rotate`, before the await. */
  function DoBeginPut<B(==)>(s: Server<B>, now: nat, token: string, put: Put<B>): (Server<B>, Reply<B>) {
    if !Live(s, token, now) then (s, Refused(401))
    else
      var state := s.state.value;
      var head := state.snapshot;
      var root := if put.rotate then put.newRoot else state.root;
      if !ValidId(put.op) then (s, Refused(400))
      else if head.op == put.op then
        if head.blob == put.blob && head.signature == put.signature && head.base == put.base then (s, Accepted(head))
        else (s, Refused(409))
      else if put.base != head.revision then (s, Refused(409))
      else if !Verify(root, put.signature, SyncMessage(put.base, put.op, put.blob)) then (s, Refused(403))
      else if put.rotate
              && !Verify(state.root, put.authorization, RotateMessage(put.base, root, put.blob, put.recovery)) then
        (s, Refused(403))
      else (s.(tasks := s.tasks + {PutTask(token, put, state.root, root)}), Suspended)
  }

  function Committed<B>(put: Put<B>, root: string): Snapshot<B> {
    Snapshot(put.base + 1, put.base, put.op, put.blob, put.signature, root)
  }

  /** ... and its transaction after the await. */
  function DoFinishPut<B(==)>(s: Server<B>, now: nat, t: Task<B>): (Server<B>, Reply<B>)
    requires t.PutTask?
  {
    if !Live(s, t.token, now) then (s, Refused(401))
    else
      var state := s.state.value;
      if state.snapshot.revision != t.put.base || state.root != t.oldRoot then (s, Refused(409))
      else
        var history := s.history[state.snapshot.revision := state.snapshot];
        var kept := map r | r in history && r + 19 >= t.put.base :: history[r];
        var access := if t.put.rotate
                      then state.(root := t.root, recovery := t.put.recovery,
                                  devices := [Find(state.devices, t.token, now).value])
                      else state;
        (s.(state := Some(access.(snapshot := Committed(t.put, t.root))), history := kept),
         Accepted(Committed(t.put, t.root)))
  }

  /** Every link route first drops the expired requests. */
  function Sweep(links: map<string, Link>, now: nat): map<string, Link> {
    map id | id in links && links[id].expires >= now :: links[id]
  }

  function DoStartLink<B>(s: Server<B>, now: nat, id: string, publicKey: string, deviceId: string,
                          display: string): (Server<B>, Reply<B>) {
    if s.state.None? then (s, Refused(401))
    else if !ValidId(id) || !ValidId(deviceId) || !ValidLabel(display) then (s, Refused(400))
    else if id in s.links then (s, Refused(409))
    else if |s.links| >= 12 then (s, Refused(429))
    else
      (s.(links := s.links[id := Link(id, publicKey, deviceId, display, now + LinkMs, false, "", "", s.serial)],
          serial := s.serial + 1), Done)
  }

  function DoDeleteLink<B>(s: Server<B>, now: nat, token: string, id: string): (Server<B>, Reply<B>) {
    if !Live(s, token, now) then (s, Refused(401))
    else if id !in s.links then (s, Refused(404))
    else
      var actor := Find(s.state.value.devices, token, now).value;
      if actor.id != s.links[id].deviceId && actor.kind != "browser" then (s, Refused(403))
      else (s.(links := s.links - {id}), Done)
  }

  function DoBeginApprove<B(==)>(s: Server<B>, now: nat, token: string, id: string, grant: string,
                                 signature: Signature<B>): (Server<B>, Reply<B>) {
    if !Live(s, token, now) then (s, Refused(401))
    else if id !in s.links then (s, Refused(404))
    else if Find(s.state.value.devices, token, now).value.kind != "browser" then (s, Refused(403))
    else if s.links[id].approved then (s, Refused(409))
    else if |grant| > 4096 then (s, Refused(400))
    else
      var link := s.links[id];
      if !Verify(s.state.value.root, signature, LinkMessage(id, link.publicKey, link.expires, grant)) then
        (s, Refused(403))
      else (s.(tasks := s.tasks + {ApproveTask(token, link, s.state.value.root, grant, signature)}), Suspended)
  }

  function DoFinishApprove<B>(s: Server<B>, now: nat, t: Task<B>, newToken: string): (Server<B>, Reply<B>)
    requires t.ApproveTask?
  {
    if s.state.None? || s.state.value.root != t.root || !Live(s, t.token, now) || t.link.id !in s.links
       || s.links[t.link.id].approved || s.links[t.link.id].expires < now then (s, Refused(409))
    else
      var current := s.links[t.link.id];
      var x := Session(current.deviceId, current.display, "cli", newToken);
      var (granted, reply) := Issue(s, Login(s.state.value, now, x), x);
      if !reply.Granted? then (s, reply)
      else
        (granted.(links := s.links[current.id := current.(approved := true, root := t.root, token := newToken)],
                  approvals := s.approvals + [current.serial]), Done)
  }

  function Swept<B>(s: Server<B>, now: nat): Server<B> {
    s.(links := Sweep(s.links, now))
  }

  /** The whole request interface; time and randomness are part of the step. */
  function Serve<B(==)>(s: Server<B>, now: nat, q: Request<B>): (Server<B>, Reply<B>) {
    match q
    case Register(put, root, recovery, x) => DoRegister(s, now, put, root, recovery, x)
    case SignIn(x, ok) =>
      if s.state.None? || !ok then (s, Refused(401)) else Issue(s, Login(s.state.value, now, x), x)
    case Recover(x, ok) =>
      if s.state.None? || !ok then (s, Refused(401)) else Issue(s, Login(s.state.value.(devices := []), now, x), x)
    case ChangePassword(token, ok) =>
      if !Live(s, token, now) || !ok then (s, Refused(401))
      else (s.(state := Some(s.state.value.(devices := [Find(s.state.value.devices, token, now).value]))), Done)
    case RevokeDevice(token, id) =>
      if !Live(s, token, now) then (s, Refused(401))
      else (s.(state := Some(s.state.value.(devices := Without(s.state.value.devices, id)))), Done)
    case BeginPut(token, put) => DoBeginPut(s, now, token, put)
    case FinishPut(task) => if task.PutTask? then DoFinishPut(s, now, task) else (s, Refused(400))
    case StartLink(id, publicKey, deviceId, display) =>
      DoStartLink(Swept(s, now), now, id, publicKey, deviceId, display)
    case DeleteLink(token, id) => DoDeleteLink(Swept(s, now), now, token, id)
    case BeginApprove(token, id, grant, signature) => DoBeginApprove(Swept(s, now), now, token, id, grant, signature)
    case FinishApprove(task, newToken) =>
      if task.ApproveTask? then DoFinishApprove(s, now, task, newToken) else (s, Refused(400))
  }

  function NewServer<B(==)>(): Server<B> {
    Server(None, map[], map[], {}, {}, 0, [])
  }

  /** A token the request would hand out. */
  function NewToken<B>(q: Request<B>): Option<string> {
    match q
    case Register(_, _, _, x) => Some(x.token)
    case SignIn(x, _) => Some(x.token)
    case Recover(x, _) => Some(x.token)
    case FinishApprove(_, t) => Some(t)
    case _ => None
  }

  /** Random tokens are never reused, and only suspended tasks resume. */
  predicate Enabled<B>(s: Server<B>, q: Request<B>) {
    && (NewToken(q).Some? ==> NewToken(q).value !in s.issued)
    && (q.FinishPut? ==> q.task in s.tasks)
    && (q.FinishApprove? ==> q.task in s.tasks)
  }

  // --- what the server keeps ---

  predicate DistinctIds(devices: seq<Device>) {
    forall i, j | 0 <= i < j < |devices| :: devices[i].id != devices[j].id
  }

  /** A token belongs to one session. */
  predicate DistinctDigests(devices: seq<Device>) {
    forall d, e | d in devices && e in devices && d.digest == e.digest :: d == e
  }

  function DigestsOf(devices: seq<Device>): set<string> {
    set d | d in devices :: d.digest
  }

  ghost predicate Authentic<B(!new)>(p: Snapshot<B>) {
    p.revision == p.base + 1 && Verify(p.root, p.signature, SyncMessage(p.base, p.op, p.blob))
  }

  /** The history holds exactly the last twenty predecessors of the head, gap free, each under its
      own revision number and signed by its own root. */
  ghost predicate Chain<B(!new)>(s: Server<B>) {
    if s.state.None? then s.history == map[]
    else
      && Authentic(s.state.value.snapshot)
      && (forall r: nat :: r in s.history <==> 1 <= r < s.state.value.snapshot.revision <= r + 20)
      && (forall r | r in s.history :: s.history[r].revision == r && Authentic(s.history[r]))
  }

  predicate TaskOk<B(==)>(t: Task<B>) {
    match t
    case PutTask(_, put, oldRoot, root) =>
      && ValidId(put.op) && Verify(root, put.signature, SyncMessage(put.base, put.op, put.blob))
      && (if put.rotate then Verify(oldRoot, put.authorization, RotateMessage(put.base, root, put.blob, put.recovery))
          else root == oldRoot)
    case ApproveTask(_, link, root, grant, signature) =>
      Verify(root, signature, LinkMessage(link.id, link.publicKey, link.expires, grant))
  }

  predicate NoRepeats(s: seq<nat>) {
    forall i, j | 0 <= i < j < |s| :: s[i] != s[j]
  }

  ghost predicate LinksOk<B(!new)>(s: Server<B>) {
    && NoRepeats(s.approvals) && (forall k | k in s.approvals :: k < s.serial)
    && (forall id | id in s.links :: s.links[id].id == id && s.links[id].serial < s.serial)
    && (forall id | id in s.links && !s.links[id].approved :: s.links[id].serial !in s.approvals)
    && (forall id, jd | id in s.links && jd in s.links && id != jd :: s.links[id].serial != s.links[jd].serial)
  }

  /** An approval that waits was checked against a request made by then; if that request is still
      there and still pending, it has not changed. */
  ghost predicate TaskLinks<B(!new)>(s: Server<B>) {
    forall t | t in s.tasks && t.ApproveTask? ::
      && t.link.serial < s.serial
      && (t.link.id in s.links && s.links[t.link.id].serial == t.link.serial && !s.links[t.link.id].approved ==>
            s.links[t.link.id] == t.link)
  }

  ghost predicate AccessOk<B(!new)>(s: Server<B>) {
    s.state.Some? ==>
      && s.state.value.snapshot.root == s.state.value.root
      && DistinctIds(s.state.value.devices) && |s.state.value.devices| <= 32
      && DistinctDigests(s.state.value.devices) && DigestsOf(s.state.value.devices) <= s.issued
  }

  ghost predicate Inv<B(!new)>(s: Server<B>) {
    Chain(s) && AccessOk(s) && LinksOk(s) && TaskLinks(s) && forall t | t in s.tasks :: TaskOk(t)
  }

  /** A session that has not expired has this token. */
  predicate HasSession(devices: seq<Device>, token: string, now: nat) {
    exists d :: d in devices && d.digest == token && d.expires > now
  }

  /** The same, for the session of a browser. */
  predicate HasBrowser(devices: seq<Device>, token: string, now: nat) {
    exists d :: d in devices && d.digest == token && d.expires > now && d.kind == "browser"
  }

  /** The search finds a session exactly if there is one, however many have expired before it. */
  lemma {:induction false} FindIff(devices: seq<Device>, token: string, now: nat)
    ensures Find(devices, token, now).Some? <==> HasSession(devices, token, now)
    ensures Find(devices, token, now).Some? ==>
              var d := Find(devices, token, now).value;
              d in devices && d.digest == token && d.expires > now
  {
    if devices != [] {
      FindIff(devices[1..], token, now);
      assert devices == [devices[0]] + devices[1..];
      if HasSession(devices, token, now) {
        var d :| d in devices && d.digest == token && d.expires > now;
        assert d == devices[0] || d in devices[1..];
      }
    }
  }

  /** The account has a session with this token that has not expired. */
  predicate Holds<B>(s: Server<B>, token: string, now: nat) {
    s.state.Some? && HasSession(s.state.value.devices, token, now)
  }

  lemma LiveIff<B>(s: Server<B>, token: string, now: nat)
    ensures Live(s, token, now) <==> Holds(s, token, now)
  {
    if s.state.Some? { FindIff(s.state.value.devices, token, now); }
  }

  lemma FindFinds(devices: seq<Device>, token: string, now: nat)
    ensures Find(devices, token, now).Some? ==>
              Find(devices, token, now).value in devices && Find(devices, token, now).value.digest == token
              && Find(devices, token, now).value.expires > now
  {
    FindIff(devices, token, now);
  }

  /** ... and where tokens are distinct, it is that one. */
  lemma FindsTheOne(devices: seq<Device>, token: string, now: nat)
    requires DistinctDigests(devices)
    ensures forall d | d in devices && d.digest == token && d.expires > now :: Find(devices, token, now) == Some(d)
    ensures Find(devices, token, now).Some? && Find(devices, token, now).value.kind == "browser" <==>
              HasBrowser(devices, token, now)
  {
    FindIff(devices, token, now);
  }

  lemma {:induction false} NamedIff(devices: seq<Device>, id: string)
    ensures Named(devices, id).None? <==> forall d | d in devices :: d.id != id
    ensures Named(devices, id).Some? ==> Named(devices, id).value in devices && Named(devices, id).value.id == id
  {
    if devices != [] {
      NamedIff(devices[1..], id);
      assert devices == [devices[0]] + devices[1..];
      assert forall d :: d in devices <==> d == devices[0] || d in devices[1..];
    }
  }

  lemma {:induction false} FilterKeeps(devices: seq<Device>, p: Device -> bool)
    requires DistinctIds(devices)
    ensures var o := Filter(devices, p);
            DistinctIds(o) && |o| <= |devices| && forall d :: d in o <==> d in devices && p(d)
  {
    if devices != [] {
      FilterKeeps(devices[1..], p);
      var o := Filter(devices[1..], p);
      forall k | 0 <= k < |o| ensures o[k].id != devices[0].id {
        assert o[k] in o;
        var j :| 0 <= j < |devices[1..]| && devices[1..][j] == o[k];
        assert devices[j + 1] == o[k];
      }
    }
  }

  lemma {:induction false} DistinctCount(devices: seq<Device>)
    requires DistinctIds(devices)
    ensures |SetOf(devices)| == |devices|
  {
    if devices != [] {
      DistinctCount(devices[1..]);
      assert devices == [devices[0]] + devices[1..];
      assert SetOf(devices) == {devices[0]} + SetOf(devices[1..]);
    }
  }

  /** What a filter keeps of distinct sessions can be counted. */
  lemma FilterCounts(devices: seq<Device>, p: Device -> bool)
    requires DistinctIds(devices)
    ensures |Filter(devices, p)| == |set d | d in devices && p(d)|
  {
    FilterKeeps(devices, p);
    DistinctCount(Filter(devices, p));
    assert SetOf(Filter(devices, p)) == set d | d in devices && p(d);
  }

  /** The session that a login opens. */
  predicate Opened(d: Device, now: nat, x: Session) {
    d.id == x.deviceId && d.digest == x.token && d.expires == now + 30 * 86400000 && d.kind == x.kind
  }

  /** A device keeps its name and its date of creation; a new one gets those of the login. */
  ghost predicate Renewed(before: seq<Device>, d: Device, now: nat, x: Session) {
    && (forall p | p in before && p.id == x.deviceId :: d.display == p.display && d.created == p.created)
    && ((forall p | p in before :: p.id != x.deviceId) ==> d.display == x.display && d.created == now)
  }

  /** A login gives the device exactly one session, keeps the unexpired ones of all others, and fits the limit. */
  lemma LoginKeeps<B>(s: State<B>, now: nat, x: Session)
    requires DistinctIds(s.devices) && Login(s, now, x).Some?
    ensures var t := Login(s, now, x).value;
            && t == s.(devices := t.devices) && DistinctIds(t.devices) && 1 <= |t.devices| <= 32
            && (forall d :: d in t.devices && d.id != x.deviceId <==>
                d in s.devices && d.expires > now && d.id != x.deviceId)
            && (exists d :: d in t.devices && Opened(d, now, x))
            && (forall d | d in t.devices && d.id == x.deviceId :: Opened(d, now, x) && Renewed(s.devices, d, now, x))
            && (DistinctDigests(s.devices) && x.token !in DigestsOf(s.devices) ==> DistinctDigests(t.devices))
  {
    FilterKeeps(s.devices, (d: Device) => d.expires > now && d.id != x.deviceId);
    var kept := Others(s.devices, x.deviceId, now);
    forall k | 0 <= k < |kept| ensures kept[k].id != x.deviceId { assert kept[k] in kept; }
    var devices := Login(s, now, x).value.devices;
    assert devices[|kept|] in devices;
    NamedIff(s.devices, x.deviceId);
    assert Renewed(s.devices, devices[|kept|], now, x) by { OneOfEach(s.devices); }
    assert forall d | d in s.devices :: d.digest in DigestsOf(s.devices);
  }

  lemma OneOfEach(devices: seq<Device>)
    requires DistinctIds(devices)
    ensures forall d, e | d in devices && e in devices && d.id == e.id :: d == e
  {}

  lemma IssueKeeps<B(!new)>(s: Server<B>, base: State<B>, now: nat, x: Session)
    requires Inv(s) && s.state.Some? && base == s.state.value.(devices := base.devices)
    requires DistinctIds(base.devices) && (forall d | d in base.devices :: d in s.state.value.devices)
    requires x.token !in s.issued
    ensures var t := Issue(s, Login(base, now, x), x).0; Inv(t) && t.approvals == s.approvals && t.tasks == s.tasks
  {
    if Login(base, now, x).Some? {
      LoginKeeps(base, now, x);
      assert forall d | d in s.state.value.devices :: d.digest in DigestsOf(s.state.value.devices);
    }
  }

  lemma RegisterKeeps<B(!new)>(s: Server<B>, now: nat, put: Put<B>, root: string, recovery: string, x: Session)
    requires Inv(s)
    ensures Inv(DoRegister(s, now, put, root, recovery, x).0)
  {
    if DoRegister(s, now, put, root, recovery, x).0 != s {
      LoginKeeps(State(recovery, root, [], Snapshot(1, 0, put.op, put.blob, put.signature, root)), now, x);
    }
  }

  lemma BeginPutKeeps<B(!new)>(s: Server<B>, now: nat, token: string, put: Put<B>)
    requires Inv(s)
    ensures Inv(DoBeginPut(s, now, token, put).0)
  {}

  lemma FinishPutKeeps<B(!new)>(s: Server<B>, now: nat, t: Task<B>)
    requires Inv(s) && t in s.tasks && t.PutTask?
    ensures Inv(DoFinishPut(s, now, t).0)
  {
    if Live(s, t.token, now) {
      FindFinds(s.state.value.devices, t.token, now);
      assert forall d | d in s.state.value.devices :: d.digest in DigestsOf(s.state.value.devices);
    }
  }

  lemma SweepKeeps<B(!new)>(s: Server<B>, now: nat)
    requires Inv(s)
    ensures Inv(Swept(s, now))
  {}

  lemma StartLinkKeeps<B(!new)>(s: Server<B>, now: nat, id: string, publicKey: string, deviceId: string,
                                display: string)
    requires Inv(s)
    ensures Inv(DoStartLink(s, now, id, publicKey, deviceId, display).0)
  {}

  lemma DeleteLinkKeeps<B(!new)>(s: Server<B>, now: nat, token: string, id: string)
    requires Inv(s)
    ensures Inv(DoDeleteLink(s, now, token, id).0)
  {}

  lemma BeginApproveKeeps<B(!new)>(s: Server<B>, now: nat, token: string, id: string, grant: string,
                                   signature: Signature<B>)
    requires Inv(s)
    ensures Inv(DoBeginApprove(s, now, token, id, grant, signature).0)
  {}

  lemma FinishApproveKeeps<B(!new)>(s: Server<B>, now: nat, t: Task<B>, newToken: string)
    requires Inv(s) && t.ApproveTask? && newToken !in s.issued
    ensures Inv(DoFinishApprove(s, now, t, newToken).0)
  {
    if s.state.Some? && t.link.id in s.links {
      var current := s.links[t.link.id];
      IssueKeeps(s, s.state.value, now, Session(current.deviceId, current.display, "cli", newToken));
    }
  }

  /** No request but an upload touches the snapshot or the root, or suspends an upload. */
  lemma QuietRoutes<B(!new)>(s: Server<B>, now: nat, q: Request<B>)
    requires !q.Register? && !q.FinishPut?
    ensures var t := Serve(s, now, q).0;
            && (s.state.None? <==> t.state.None?)
            && (s.state.Some? ==>
                  t.state.value.snapshot == s.state.value.snapshot && t.state.value.root == s.state.value.root)
            && (!q.BeginPut? ==> forall x | x in t.tasks && x.PutTask? :: x in s.tasks)
  {
    hide Find, Filter, Sweep, ValidSession;
  }

  /** Fewer sessions keep the invariant. */
  lemma FewerKeep<B(!new)>(s: Server<B>, devices: seq<Device>)
    requires Inv(s) && s.state.Some? && DistinctIds(devices) && |devices| <= 32
    requires forall d | d in devices :: d in s.state.value.devices
    ensures Inv(s.(state := Some(s.state.value.(devices := devices))))
  {
    hide TaskOk, Authentic;
    assert forall d | d in s.state.value.devices :: d.digest in DigestsOf(s.state.value.devices);
  }

  lemma SessionRoutesKeep<B(!new)>(s: Server<B>, now: nat, q: Request<B>)
    requires Inv(s) && (q.SignIn? || q.Recover? || q.ChangePassword? || q.RevokeDevice?)
    requires NewToken(q).Some? ==> NewToken(q).value !in s.issued
    ensures Inv(Serve(s, now, q).0)
  {
    if s.state.Some? {
      var state := s.state.value;
      match q
      case SignIn(x, _) => IssueKeeps(s, state, now, x);
      case Recover(x, _) => IssueKeeps(s, state.(devices := []), now, x);
      case ChangePassword(token, _) =>
        FindFinds(state.devices, token, now);
        if Live(s, token, now) { FewerKeep(s, [Find(state.devices, token, now).value]); }
        hide Inv;
      case RevokeDevice(_, id) =>
        FilterKeeps(state.devices, (d: Device) => d.id != id);
        FewerKeep(s, Without(state.devices, id));
        hide Inv;
    }
  }

  /** Every request, at any of its halves, keeps the server's invariant. */
  lemma ServeKeeps<B(!new)>(s: Server<B>, now: nat, q: Request<B>)
    requires Inv(s) && Enabled(s, q)
    ensures Inv(Serve(s, now, q).0)
  {
    match q
    case Register(put, root, recovery, x) => RegisterKeeps(s, now, put, root, recovery, x);
    case BeginPut(token, put) => BeginPutKeeps(s, now, token, put);
    case FinishPut(task) => if task.PutTask? { FinishPutKeeps(s, now, task); }
    case FinishApprove(task, newToken) => if task.ApproveTask? { FinishApproveKeeps(s, now, task, newToken); }
    case StartLink(id, publicKey, deviceId, display) =>
      SweepKeeps(s, now);
      StartLinkKeeps(Swept(s, now), now, id, publicKey, deviceId, display);
    case DeleteLink(token, id) =>
      SweepKeeps(s, now);
      DeleteLinkKeeps(Swept(s, now), now, token, id);
    case BeginApprove(token, id, grant, signature) =>
      SweepKeeps(s, now);
      BeginApproveKeeps(Swept(s, now), now, token, id, grant, signature);
    case _ => SessionRoutesKeep(s, now, q);
  }
}
