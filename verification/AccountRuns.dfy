/** Safety over whole runs of an account's server, with requests split at their awaits and resumed
    in any order, any number of times. */
module AccountRuns {
  import opened Text
  import opened Account

  /** One served request: when it was served and what it was. */
  datatype Event<B> = Event(now: nat, request: Request<B>)

  ghost predicate Run<B(!new)>(states: seq<Server<B>>, events: seq<Event<B>>) {
    && |states| == |events| + 1
    && states[0] == NewServer()
    && forall i | 0 <= i < |events| :: Stepped(states[i], events[i], states[i + 1])
  }

  ghost predicate Stepped<B(!new)>(s: Server<B>, e: Event<B>, t: Server<B>) {
    Enabled(s, e.request) && t == Serve(s, e.now, e.request).0
  }

  /** In every state of every run: the head's root is the account's root, device ids are distinct
      and at most 32, the history is the gap-free chain of the head's last twenty predecessors, and
      no link request was approved twice. */
  lemma {:induction false} RunKeepsInvariant<B(!new)>(states: seq<Server<B>>, events: seq<Event<B>>, i: nat)
    requires Run(states, events) && i < |states|
    ensures Inv(states[i])
    ensures NoRepeats(states[i].approvals)
    ensures states[i].state.Some? ==>
              var s := states[i].state.value;
              && s.snapshot.root == s.root && DistinctIds(s.devices) && |s.devices| <= 32
              && (forall r: nat :: r in states[i].history <==> 1 <= r < s.snapshot.revision <= r + 20)
              && (forall r | r in states[i].history ::
                    states[i].history[r].revision == r == states[i].history[r].base + 1)
  {
    if i > 0 {
      RunKeepsInvariant(states, events, i - 1);
      assert Stepped(states[i - 1], events[i - 1], states[i]);
      ServeKeeps(states[i - 1], events[i - 1].now, events[i - 1].request);
    }
  }

  // --- the revision counter and the head ---

  function Revision<B(==)>(s: Server<B>): nat {
    if s.state.None? then 0 else s.state.value.snapshot.revision
  }

  /** A request advances the revision by at most one, and only then changes the head. */
  lemma RevisionStep<B(!new)>(s: Server<B>, e: Event<B>, t: Server<B>)
    requires Inv(s) && Stepped(s, e, t)
    ensures s.state.Some? ==> t.state.Some?
    ensures Revision(s) <= Revision(t) <= Revision(s) + 1
    ensures s.state.Some? && Revision(t) == Revision(s) ==> t.state.value.snapshot == s.state.value.snapshot
    ensures s.state.Some? && Revision(t) != Revision(s) ==>
              e.request.FinishPut? && t.state.value.snapshot == Committed(e.request.task.put, e.request.task.root)
              && e.request.task.put.base == Revision(s)
  {
    if !e.request.Register? && !e.request.FinishPut? { HeadStays(s, e, t); }
  }

  lemma HeadStays<B(!new)>(s: Server<B>, e: Event<B>, t: Server<B>)
    requires Stepped(s, e, t) && !e.request.Register? && !e.request.FinishPut?
    ensures s.state.None? ==> t.state.None?
    ensures s.state.Some? ==>
              t.state.Some? && t.state.value.snapshot == s.state.value.snapshot
              && t.state.value.root == s.state.value.root
  {
    QuietRoutes(s, e.now, e.request);
  }

  ghost predicate NotBefore<B(!new)>(s: Server<B>, t: Server<B>) {
    && (s.state.Some? ==> t.state.Some?) && Revision(s) <= Revision(t)
    && (s.state.Some? && Revision(s) == Revision(t) ==> s.state.value.snapshot == t.state.value.snapshot)
  }

  lemma StepNotBefore<B(!new)>(states: seq<Server<B>>, events: seq<Event<B>>, i: nat)
    requires Run(states, events) && i < |events|
    ensures NotBefore(states[i], states[i + 1])
  {
    RunKeepsInvariant(states, events, i);
    assert Stepped(states[i], events[i], states[i + 1]);
    RevisionStep(states[i], events[i], states[i + 1]);
  }

  lemma {:induction false} NotBeforeChains<B(!new)>(states: seq<Server<B>>, i: nat, j: nat)
    requires i <= j < |states| && forall k: nat | k + 1 < |states| :: NotBefore(states[k], states[k + 1])
    ensures NotBefore(states[i], states[j])
    decreases j - i
  {
    if i < j {
      NotBeforeChains(states, i, j - 1);
      assert NotBefore(states[j - 1], states[j - 1 + 1]);
    }
  }

  /** Revisions never go back, and a revision number identifies its snapshot. */
  lemma RevisionMonotone<B(!new)>(states: seq<Server<B>>, events: seq<Event<B>>, i: nat, j: nat)
    requires Run(states, events) && i <= j < |states|
    ensures NotBefore(states[i], states[j])
  {
    forall k: nat | k + 1 < |states| ensures NotBefore(states[k], states[k + 1]) {
      StepNotBefore(states, events, k);
    }
    NotBeforeChains(states, i, j);
  }

  /** Step `i` of the run is the commit of `put`. */
  ghost predicate CommitsAt<B(!new)>(states: seq<Server<B>>, events: seq<Event<B>>, i: nat, put: Put<B>) {
    && i < |events| && i + 1 < |states| && events[i].request.FinishPut? && events[i].request.task.PutTask?
    && events[i].request.task.put == put
    && Serve(states[i], events[i].now, events[i].request).1.Accepted?
  }

  lemma CommitAdvances<B(!new)>(s: Server<B>, e: Event<B>, t: Server<B>)
    requires Inv(s) && Stepped(s, e, t) && e.request.FinishPut? && e.request.task.PutTask?
    requires Serve(s, e.now, e.request).1.Accepted?
    ensures Revision(s) == e.request.task.put.base && Revision(t) == Revision(s) + 1
    ensures t.state.Some? && t.state.value.snapshot == Committed(e.request.task.put, e.request.task.root)
  {}

  /** However often a request is repeated and resumed, it is committed at most once: indeed at most
      one request is ever committed on a given base revision. */
  lemma CommittedAtMostOnce<B(!new)>(states: seq<Server<B>>, events: seq<Event<B>>, i: nat, j: nat, p: Put<B>,
                                     q: Put<B>)
    requires Run(states, events) && i < j && CommitsAt(states, events, i, p) && CommitsAt(states, events, j, q)
    ensures p.base < q.base
  {
    RunKeepsInvariant(states, events, i);
    RunKeepsInvariant(states, events, j);
    assert Stepped(states[i], events[i], states[i + 1]) && Stepped(states[j], events[j], states[j + 1]);
    CommitAdvances(states[i], events[i], states[i + 1]);
    CommitAdvances(states[j], events[j], states[j + 1]);
    RevisionMonotone(states, events, i + 1, j);
  }

  /** While a committed request is still the head, repeating it returns the very snapshot it
      created and changes nothing. */
  lemma RetryReturnsTheCommit<B(!new)>(states: seq<Server<B>>, events: seq<Event<B>>, i: nat, j: nat, put: Put<B>,
                                       now: nat, token: string)
    requires Run(states, events) && CommitsAt(states, events, i, put)
    requires i < j < |states| && Revision(states[j]) == put.base + 1
    requires Live(states[j], token, now)
    ensures Serve(states[j], now, BeginPut(token, put)) ==
            (states[j], Accepted(states[i + 1].state.value.snapshot))
  {
    RunKeepsInvariant(states, events, i);
    assert Stepped(states[i], events[i], states[i + 1]);
    assert TaskOk(events[i].request.task);
    CommitAdvances(states[i], events[i], states[i + 1]);
    RevisionMonotone(states, events, i + 1, j);
  }

  // --- authority ---

  /** A commit, of a vault or of a rotation, takes effect only if the session that asked for it is
      live and the root is still the one it was checked against, at that very moment; and the new
      head is signed by its root. */
  lemma CommitsAreCurrent<B(!new)>(s: Server<B>, e: Event<B>, t: Server<B>)
    requires Inv(s) && Stepped(s, e, t) && s.state.Some? && Revision(t) != Revision(s)
    ensures e.request.FinishPut? && e.request.task.PutTask?
    ensures var task := e.request.task;
            && Holds(s, task.token, e.now) && s.state.value.root == task.oldRoot && Revision(s) == task.put.base
            && t.state.Some? && t.state.value.snapshot == Committed(task.put, t.state.value.root)
            && Verify(t.state.value.root, task.put.signature, SyncMessage(task.put.base, task.put.op, task.put.blob))
            && (!task.put.rotate ==> t.state.value.root == s.state.value.root)
  {
    RevisionStep(s, e, t);
    LiveIff(s, e.request.task.token, e.now);
    assert TaskOk(e.request.task);
  }

  /** The root changes only by a rotation that the old root authorised, in favour of a snapshot the
      new root signed, by a session live at that instant. */
  lemma RootChangesOnlyWhenAuthorised<B(!new)>(s: Server<B>, e: Event<B>, t: Server<B>)
    requires Inv(s) && Stepped(s, e, t) && s.state.Some? && t.state.Some? && t.state.value.root != s.state.value.root
    ensures e.request.FinishPut? && e.request.task.PutTask? && e.request.task.put.rotate
    ensures var put := e.request.task.put;
            && Verify(s.state.value.root, put.authorization,
                      RotateMessage(put.base, t.state.value.root, put.blob, put.recovery))
            && Verify(t.state.value.root, put.signature, SyncMessage(put.base, put.op, put.blob))
    ensures Holds(s, e.request.task.token, e.now)
    ensures |t.state.value.devices| == 1 && t.state.value.devices[0].digest == e.request.task.token
  {
    if !e.request.Register? && !e.request.FinishPut? { HeadStays(s, e, t); }
    LiveIff(s, e.request.task.token, e.now);
    assert TaskOk(e.request.task);
    FindFinds(s.state.value.devices, e.request.task.token, e.now);
  }

  /** Whoever acts in a request. */
  function Actor<B>(q: Request<B>): Option<string> {
    match q
    case ChangePassword(token, _) => Some(token)
    case RevokeDevice(token, _) => Some(token)
    case BeginPut(token, _) => Some(token)
    case FinishPut(task) => Some(task.token)
    case DeleteLink(token, _) => Some(token)
    case BeginApprove(token, _, _, _) => Some(token)
    case FinishApprove(task, _) => Some(task.token)
    case _ => None
  }

  /** The token was handed out and belongs to no session any more. */
  ghost predicate Revoked<B(!new)>(s: Server<B>, token: string) {
    token in s.issued && s.state.Some? && token !in DigestsOf(s.state.value.devices)
  }

  lemma RevokedIsNotLive<B(!new)>(s: Server<B>, token: string, now: nat)
    requires Revoked(s, token)
    ensures !Live(s, token, now)
  {
    FindFinds(s.state.value.devices, token, now);
  }

  lemma StaysIssued<B(!new)>(s: Server<B>, e: Event<B>, t: Server<B>)
    requires Inv(s) && Stepped(s, e, t)
    ensures s.issued <= t.issued && (s.state.Some? ==> t.state.Some?)
    ensures NewToken(e.request).Some? ==> NewToken(e.request).value !in s.issued
  {
    hide Account.Find, Account.Filter, Account.Sweep, Account.ValidSession, Account.Inv;
  }

  lemma RevokedStays<B(!new)>(s: Server<B>, e: Event<B>, t: Server<B>, token: string)
    requires Inv(s) && Stepped(s, e, t) && Revoked(s, token)
    ensures Revoked(t, token)
  {
    StaysIssued(s, e, t);
    hide Stepped, Inv;
    var devices := s.state.value.devices;
    forall d | d in t.state.value.devices ensures d.digest != token {
      DevicesComeFromLogins(s, e, t, d);
      assert d in devices ==> d.digest in DigestsOf(devices);
    }
  }

  lemma DevicesComeFromLogins<B(!new)>(s: Server<B>, e: Event<B>, t: Server<B>, d: Device)
    requires Inv(s) && Stepped(s, e, t) && s.state.Some? && t.state.Some? && d in t.state.value.devices
    ensures d in s.state.value.devices || NewToken(e.request) == Some(d.digest)
  {
    hide Account.ValidSession, Account.Chain, Account.LinksOk, Account.Sweep;
    var state := s.state.value;
    match e.request
    case Register(_, _, _, _) =>
    case SignIn(x, _) => if Login(state, e.now, x).Some? { LoginKeeps(state, e.now, x); }
    case Recover(x, _) =>
      if Login(state.(devices := []), e.now, x).Some? { LoginKeeps(state.(devices := []), e.now, x); }
    case ChangePassword(token, _) => FindFinds(state.devices, token, e.now);
    case RevokeDevice(_, id) => FilterKeeps(state.devices, (x: Device) => x.id != id);
    case FinishPut(task) => if task.PutTask? { FindFinds(state.devices, task.token, e.now); }
    case FinishApprove(task, newToken) =>
      if task.ApproveTask? && task.link.id in s.links {
        var current := s.links[task.link.id];
        var x := Session(current.deviceId, current.display, "cli", newToken);
        if Login(state, e.now, x).Some? { LoginKeeps(state, e.now, x); }
      }
    case _ =>
  }

  /** Nothing but the expiry sweep of link requests can follow from the request. */
  ghost predicate Inert<B(!new)>(s: Server<B>, t: Server<B>) {
    t == s.(links := t.links) && forall id | id in t.links :: id in s.links && t.links[id] == s.links[id]
  }

  lemma RevokedActsInVain<B(!new)>(s: Server<B>, e: Event<B>, t: Server<B>)
    requires Stepped(s, e, t) && Actor(e.request).Some? && Revoked(s, Actor(e.request).value)
    ensures Inert(s, t) && Serve(s, e.now, e.request).1.Refused?
  {
    RevokedIsNotLive(s, Actor(e.request).value, e.now);
    RevokedIsNotLive(Swept(s, e.now), Actor(e.request).value, e.now);
  }

  /** Revocation wins every race: once a token's session is gone, nothing it requests, and nothing
      it had requested before and resumes only now, takes effect in the rest of the run. */
  lemma {:induction false} RevocationIsFinal<B(!new)>(states: seq<Server<B>>, events: seq<Event<B>>, i: nat, j: nat,
                                                      token: string)
    requires Run(states, events) && i <= j < |events| && Revoked(states[i], token)
    ensures Revoked(states[j], token)
    ensures Actor(events[j].request) == Some(token) ==>
              Inert(states[j], states[j + 1]) && Serve(states[j], events[j].now, events[j].request).1.Refused?
    decreases j - i
  {
    hide Inert, Serve, Revoked, Inv, Stepped;
    if i < j {
      RevocationIsFinal(states, events, i, j - 1, token);
      RunKeepsInvariant(states, events, j - 1);
      assert Stepped(states[j - 1], events[j - 1], states[j]);
      RevokedStays(states[j - 1], events[j - 1], states[j], token);
    }
    assert Stepped(states[j], events[j], states[j + 1]);
    if Actor(events[j].request) == Some(token) {
      RevokedActsInVain(states[j], events[j], states[j + 1]);
    }
  }

  // --- sessions that end ---

  /** Exactly the live sessions of the other devices, and one of the device that signs in. */
  ghost predicate SignedIn(before: seq<Device>, after: seq<Device>, now: nat, x: Session) {
    && DistinctIds(after) && |after| <= 32
    && (forall d :: d in after && d.id != x.deviceId <==> d in before && d.expires > now && d.id != x.deviceId)
    && (exists d :: d in after && Opened(d, now, x) && Renewed(before, d, now, x))
  }

  /** Exactly these sessions are left, and the tokens of the others are of no more use. */
  ghost predicate LeavesOnly<B(!new)>(s: Server<B>, t: Server<B>, kept: set<Device>)
    requires s.state.Some?
  {
    && t.state.Some? && (forall d :: d in t.state.value.devices <==> d in s.state.value.devices && d in kept)
    && (forall d | d in s.state.value.devices && d !in kept :: Revoked(t, d.digest))
    && t == s.(state := Some(s.state.value.(devices := t.state.value.devices)))
  }

  /** A wrong password or recovery code opens no session and ends none. */
  lemma WrongPasswordIsInert<B(!new)>(s: Server<B>, now: nat, q: Request<B>)
    requires (q.SignIn? && !q.passwordOk) || (q.Recover? && !q.codeOk) || (q.ChangePassword? && !q.passwordOk)
    ensures Serve(s, now, q) == (s, Refused(401))
  {}

  /** A device signs in exactly with the right password and room for its session. */
  lemma SignInIff<B(!new)>(s: Server<B>, now: nat, x: Session, passwordOk: bool)
    requires Inv(s)
    ensures var (t, reply) := Serve(s, now, SignIn(x, passwordOk));
            && (reply.Granted? <==> passwordOk && s.state.Some? && HasRoom(s.state.value.devices, now, x))
            && (if reply.Granted? then
                  && t == s.(state := t.state, issued := s.issued + {x.token}) && t.state.Some?
                  && t.state.value == s.state.value.(devices := t.state.value.devices)
                  && SignedIn(s.state.value.devices, t.state.value.devices, now, x)
                else t == s)
  {
    if s.state.Some? {
      LoginIff(s.state.value, now, x);
      if HasRoom(s.state.value.devices, now, x) { LoginKeeps(s.state.value, now, x); }
    }
  }

  /** Recovery ends every session and opens one. */
  lemma RecoverIff<B(!new)>(s: Server<B>, now: nat, x: Session, codeOk: bool)
    requires Inv(s) && x.token !in s.issued
    ensures var (t, reply) := Serve(s, now, Recover(x, codeOk));
            && (reply.Granted? <==> codeOk && s.state.Some? && ValidSession(x))
            && (reply.Granted? ==>
                  && t.state.Some? && |t.state.value.devices| == 1 && Opened(t.state.value.devices[0], now, x)
                  && t.state.value == s.state.value.(devices := t.state.value.devices)
                  && forall d | d in s.state.value.devices :: Revoked(t, d.digest))
            && (!reply.Granted? ==> t == s)
  {
    if s.state.Some? && codeOk && ValidSession(x) {
      var bare := s.state.value.(devices := []);
      assert Others(bare.devices, x.deviceId, now) == [];
      LoginKeeps(bare, now, x);
      forall d | d in s.state.value.devices ensures d.digest in s.issued {
        assert d.digest in DigestsOf(s.state.value.devices);
      }
    }
  }

  /** A change of password ends every session but the one it is made in. */
  lemma ChangePasswordIff<B(!new)>(s: Server<B>, now: nat, token: string, passwordOk: bool)
    requires Inv(s)
    ensures var (t, reply) := Serve(s, now, ChangePassword(token, passwordOk));
            && (reply.Done? <==> passwordOk && Holds(s, token, now))
            && (reply.Done? ==> LeavesOnly(s, t, set d | d in s.state.value.devices && d.digest == token))
            && (!reply.Done? ==> t == s)
  {
    LiveIff(s, token, now);
    if s.state.Some? {
      FindIff(s.state.value.devices, token, now);
      forall d | d in s.state.value.devices ensures d.digest in s.issued {
        assert d.digest in DigestsOf(s.state.value.devices);
      }
    }
  }

  /** Revoking a device ends its session and no other. */
  lemma RevokeDeviceIff<B(!new)>(s: Server<B>, now: nat, token: string, id: string)
    requires Inv(s)
    ensures var (t, reply) := Serve(s, now, RevokeDevice(token, id));
            && (reply.Done? <==> Holds(s, token, now))
            && (reply.Done? ==> LeavesOnly(s, t, set d | d in s.state.value.devices && d.id != id))
            && (!reply.Done? ==> t == s)
  {
    LiveIff(s, token, now);
    if s.state.Some? {
      FilterKeeps(s.state.value.devices, (d: Device) => d.id != id);
      forall d | d in s.state.value.devices ensures d.digest in s.issued {
        assert d.digest in DigestsOf(s.state.value.devices);
      }
    }
    hide Find, Filter, HasSession;
  }

  lemma OnlyApprovalsApprove<B(!new)>(s: Server<B>, e: Event<B>, t: Server<B>)
    requires Stepped(s, e, t) && t.approvals != s.approvals
    ensures e.request.FinishApprove? && e.request.task.ApproveTask?
  {
    hide Account.Find, Account.Filter, Account.Sweep;
  }

  /** Exactly one session of `after` was not there before. */
  ghost predicate OneMore(before: seq<Device>, after: seq<Device>, d: Device) {
    forall x :: x in after && x !in before <==> x == d
  }

  /** The sessions that count against the limit of 32. */
  function Rivals(devices: seq<Device>, now: nat, id: string): set<Device> {
    set d | d in devices && d.expires > now && d.id != id
  }

  predicate HasRoom(devices: seq<Device>, now: nat, x: Session) {
    ValidSession(x) && |Rivals(devices, now, x.deviceId)| < 32
  }

  lemma LoginIff<B>(s: State<B>, now: nat, x: Session)
    requires DistinctIds(s.devices)
    ensures Login(s, now, x).Some? <==> HasRoom(s.devices, now, x)
  {
    FilterCounts(s.devices, (d: Device) => d.expires > now && d.id != x.deviceId);
    var p := (d: Device) => d.expires > now && d.id != x.deviceId;
    assert Rivals(s.devices, now, x.deviceId) == set d | d in s.devices && p(d);
  }

  /** Session, root and request still stand, and the device has room. */
  predicate Grantable<B>(s: Server<B>, now: nat, t: Task<B>, newToken: string)
    requires t.ApproveTask?
  {
    && Holds(s, t.token, now) && s.state.value.root == t.root
    && t.link.id in s.links && !s.links[t.link.id].approved && s.links[t.link.id].expires >= now
    && HasRoom(s.state.value.devices, now, LinkSession(s.links[t.link.id], newToken))
  }

  function LinkSession(link: Link, newToken: string): Session {
    Session(link.deviceId, link.display, "cli", newToken)
  }

  /** A suspended approval takes effect only for a live session, under the root that signed it, on a
      request still pending; and then exactly one new session is opened, for the device of that request.
      It is the request that was checked exactly if nothing of it has changed, its device included; the
      signature alone fixes only its key and its expiry. */
  lemma ApprovalsAreCurrent<B(!new)>(s: Server<B>, e: Event<B>, t: Server<B>)
    requires Inv(s) && Stepped(s, e, t) && t.approvals != s.approvals
    ensures e.request.FinishApprove? && e.request.task.ApproveTask?
    ensures var task := e.request.task;
            && Holds(s, task.token, e.now) && s.state.value.root == task.root && t.state.Some?
            && Verify(task.root, task.signature,
                      LinkMessage(task.link.id, task.link.publicKey, task.link.expires, task.grant))
            && task.link.id in s.links && !s.links[task.link.id].approved && e.now <= s.links[task.link.id].expires
            && t.approvals == s.approvals + [s.links[task.link.id].serial]
    ensures var current := s.links[e.request.task.link.id];
            exists d :: OneMore(s.state.value.devices, t.state.value.devices, d)
                        && Opened(d, e.now, LinkSession(current, e.request.newToken))
    ensures var task, current := e.request.task, s.links[e.request.task.link.id];
            && (current.serial == task.link.serial <==> current == task.link)
            && (Verify(task.root, task.signature,
                       LinkMessage(current.id, current.publicKey, current.expires, task.grant)) <==>
                  current.publicKey == task.link.publicKey && current.expires == task.link.expires)
  {
    OnlyApprovalsApprove(s, e, t);
    var task := e.request.task;
    LiveIff(s, task.token, e.now);
    assert TaskOk(task);
    var current := s.links[task.link.id];
    var x := LinkSession(current, e.request.newToken);
    LoginKeeps(s.state.value, e.now, x);
    var before, after := s.state.value.devices, t.state.value.devices;
    assert after == Login(s.state.value, e.now, x).value.devices;
    OneOpened(before, after, s.issued, e.now, x);
  }

  lemma OneOpened(before: seq<Device>, after: seq<Device>, issued: set<string>, now: nat, x: Session)
    requires DigestsOf(before) <= issued && x.token !in issued && DistinctIds(after)
    requires forall d | d in after && d.id != x.deviceId :: d in before
    requires exists d :: d in after && Opened(d, now, x)
    requires forall d | d in after && d.id == x.deviceId :: Opened(d, now, x)
    ensures exists d :: OneMore(before, after, d) && Opened(d, now, x)
  {
    var d :| d in after && Opened(d, now, x);
    assert forall y | y in before :: y.digest in DigestsOf(before);
    assert OneMore(before, after, d);
  }

  // --- an approval that reaches another request ---

  /** The request with this number is there. */
  predicate HasLink<B>(s: Server<B>, id: string, serial: nat) {
    id in s.links && s.links[id].serial == serial
  }

  /** The step approves a request other than the one that the task was checked against. */
  ghost predicate Crossed<B(!new)>(s: Server<B>, n: Server<B>, t: Task<B>)
    requires t.ApproveTask?
  {
    exists serial :: n.approvals == s.approvals + [serial] && serial != t.link.serial
  }

  lemma FinishedApproval<B(!new)>(s: Server<B>, e: Event<B>, n: Server<B>)
    requires Inv(s) && Stepped(s, e, n) && e.request.FinishApprove? && e.request.task.ApproveTask?
    ensures var t := e.request.task;
            if Grantable(s, e.now, t, e.request.newToken) then n.approvals == s.approvals + [s.links[t.link.id].serial]
            else n == s
  {
    var t := e.request.task;
    LiveIff(s, t.token, e.now);
    if s.state.Some? && t.link.id in s.links {
      LoginIff(s.state.value, e.now, LinkSession(s.links[t.link.id], e.request.newToken));
    }
    hide Find, Filter, HasSession;
  }

  /** Numbers of requests only grow, and a request that is gone does not come back under its number. */
  ghost predicate LinksForward<B(!new)>(s: Server<B>, n: Server<B>) {
    s.serial <= n.serial
    && forall id | id in n.links && n.links[id].serial < s.serial :: HasLink(s, id, n.links[id].serial)
  }

  lemma QuietLinks<B(!new)>(s: Server<B>, e: Event<B>, n: Server<B>)
    requires Stepped(s, e, n) && !e.request.StartLink? && !e.request.FinishApprove?
    ensures n.serial == s.serial && forall id | id in n.links :: id in s.links && n.links[id] == s.links[id]
  {
    hide Account.Find, Account.Filter, Account.ValidSession;
  }

  lemma ApprovedLinks<B(!new)>(s: Server<B>, e: Event<B>, n: Server<B>)
    requires Stepped(s, e, n) && e.request.FinishApprove? && LinksOk(s)
    ensures n.serial == s.serial
    ensures forall id | id in n.links :: id in s.links && n.links[id].serial == s.links[id].serial
  {
    hide Account.Find, Account.Filter, Account.ValidSession;
  }

  lemma StepLinksForward<B(!new)>(s: Server<B>, e: Event<B>, n: Server<B>)
    requires Inv(s) && Stepped(s, e, n)
    ensures LinksForward(s, n)
  {
    if e.request.StartLink? {
      hide Account.Find, Account.Filter, Account.ValidSession, Account.Chain, Account.AccessOk, Account.TaskLinks;
    } else if e.request.FinishApprove? {
      ApprovedLinks(s, e, n);
      hide Stepped, Account.Chain, Account.AccessOk, Account.TaskLinks;
    } else {
      hide Account.Inv, Stepped;
      QuietLinks(s, e, n);
    }
  }

  lemma {:induction false} RunLinksForward<B(!new)>(states: seq<Server<B>>, events: seq<Event<B>>, i: nat, k: nat)
    requires Run(states, events) && i <= k < |states|
    ensures LinksForward(states[i], states[k])
    decreases k - i
  {
    hide Stepped, Inv;
    if i < k {
      RunLinksForward(states, events, i, k - 1);
      RunKeepsInvariant(states, events, k - 1);
      assert Stepped(states[k - 1], events[k - 1], states[k]);
      StepLinksForward(states[k - 1], events[k - 1], states[k]);
    }
  }

  /** Exactly when a suspended approval goes to another request: session, root, a pending request under the id
      and room for its device stand at that moment, and at some moment since the check the request that was
      checked was gone. */
  lemma CrossesIff<B(!new)>(states: seq<Server<B>>, events: seq<Event<B>>, i: nat, j: nat, t: Task<B>, newToken: string)
    requires Run(states, events) && i <= j < |events| && events[j].request == FinishApprove(t, newToken)
    requires t.ApproveTask? && HasLink(states[i], t.link.id, t.link.serial)
    ensures Crossed(states[j], states[j + 1], t) <==>
            && Grantable(states[j], events[j].now, t, newToken)
            && exists k :: i <= k <= j && !HasLink(states[k], t.link.id, t.link.serial)
  {
    hide HasSession, HasRoom;
    RunKeepsInvariant(states, events, i);
    RunKeepsInvariant(states, events, j);
    assert Stepped(states[j], events[j], states[j + 1]);
    FinishedApproval(states[j], events[j], states[j + 1]);
    assert t.link.serial < states[i].serial;
    hide Stepped, Inv;
    if k :| i <= k <= j && !HasLink(states[k], t.link.id, t.link.serial) {
      RunLinksForward(states, events, i, k);
      RunLinksForward(states, events, k, j);
    }
    if Grantable(states[j], events[j].now, t, newToken) {
      assert states[j + 1].approvals[|states[j].approvals|] == states[j].links[t.link.id].serial;
    }
  }

  const Name := "device01"
  const Other := "device02"
  const LinkId := "link0001"

  /** A browser signs up, and a device asks to be linked. While its approval waits for the signature check, the
      request is deleted, and at the time `at` another one is made under the same id, for another device and
      with the key `key`. */
  function Crossing<B>(blob: B, key: string, at: nat): seq<Event<B>> {
    var put := Put(0, "operation", blob, Signed("root", SyncMessage(0, "operation", blob)), false, "", "", Forged(""));
    var first := Link(LinkId, "key one", Name, "one", LinkMs, false, "", "", 0);
    var signature := Signed("root", LinkMessage(LinkId, "key one", LinkMs, "grant"));
    [Event(0, Register(put, "root", "recovery", Session("browser1", "browser", "browser", "token"))),
     Event(0, StartLink(LinkId, "key one", Name, "one")),
     Event(0, BeginApprove("token", LinkId, "grant", signature)),
     Event(at, DeleteLink("token", LinkId)),
     Event(at, StartLink(LinkId, key, Other, "two")),
     Event(at, FinishApprove(ApproveTask("token", first, "root", "grant", signature), "fresh"))]
  }

  function CrossedStates<B>(blob: B, key: string, at: nat): seq<Server<B>> {
    var events := Crossing(blob, key, at);
    var browser := Device("browser1", "browser", "token", SessionMs, 0, "browser");
    var head := Snapshot(1, 0, "operation", blob, events[0].request.put.signature, "root");
    var account := State("recovery", "root", [browser], head);
    var task := events[5].request.task;
    var second := Link(LinkId, key, Other, "two", at + LinkMs, false, "", "", 1);
    var s1: Server<B> := Server(Some(account), map[], map[], {}, {"token"}, 0, []);
    var s2 := s1.(links := map[LinkId := task.link], serial := 1);
    var s3 := s2.(tasks := {task});
    var s4 := s3.(links := map[]);
    var s5 := s4.(links := map[LinkId := second], serial := 2);
    var linked := Device(Other, "two", "fresh", at + SessionMs, at, "cli");
    var s6 := s5.(state := Some(account.(devices := [browser, linked])), issued := {"token", "fresh"},
                  links := map[LinkId := second.(approved := true, root := "root", token := "fresh")],
                  approvals := [1]);
    [NewServer(), s1, s2, s3, s4, s5, s6]
  }

  lemma CrossingRegisters<B(!new)>(blob: B, key: string, at: nat)
    ensures Stepped(CrossedStates(blob, key, at)[0], Crossing(blob, key, at)[0], CrossedStates(blob, key, at)[1])
  {
    var x := Crossing(blob, key, at)[0].request.session;
    var account := CrossedStates(blob, key, at)[1].state.value;
    var bare := account.(devices := []);
    assert ValidSession(x) && ValidId("operation");
    assert Login(bare, 0, x) == Some(bare.(devices := [] + account.devices));
    assert [] + account.devices == account.devices;
    assert {} + {"token"} == {"token"};
  }

  /** What the handlers read of an account with one session. */
  lemma OneSession(d: Device, token: string, id: string, now: nat)
    requires d.digest == token && d.expires > now && d.id != id
    ensures Find([d], token, now) == Some(d) && Named([d], id) == None && Others([d], id, now) == [d]
  {
    assert [d][1..] == [];
    assert Filter([], (x: Device) => x.expires > now && x.id != id) == [];
  }

  lemma CrossingAsks<B(!new)>(blob: B, key: string, at: nat)
    ensures Stepped(CrossedStates(blob, key, at)[1], Crossing(blob, key, at)[1], CrossedStates(blob, key, at)[2])
  {
    var s, t := CrossedStates(blob, key, at)[1], CrossedStates(blob, key, at)[2];
    assert ValidId(LinkId) && ValidId(Name) && ValidLabel("one");
    assert Swept(s, 0) == s;
    assert DoStartLink(s, 0, LinkId, "key one", Name, "one").0 == t;
  }

  lemma CrossingWaits<B(!new)>(blob: B, key: string, at: nat)
    ensures Stepped(CrossedStates(blob, key, at)[2], Crossing(blob, key, at)[2], CrossedStates(blob, key, at)[3])
  {
    var s, t := CrossedStates(blob, key, at)[2], CrossedStates(blob, key, at)[3];
    var q := Crossing(blob, key, at)[2].request;
    OneSession(s.state.value.devices[0], "token", Other, 0);
    assert Swept(s, 0) == s;
    assert DoBeginApprove(s, 0, "token", LinkId, q.grant, q.signature).0 == t;
  }

  lemma CrossingDeletes<B(!new)>(blob: B, key: string, at: nat)
    requires at <= LinkMs
    ensures Stepped(CrossedStates(blob, key, at)[3], Crossing(blob, key, at)[3], CrossedStates(blob, key, at)[4])
  {
    var s, t := CrossedStates(blob, key, at)[3], CrossedStates(blob, key, at)[4];
    OneSession(s.state.value.devices[0], "token", Other, at);
    assert Swept(s, at) == s;
    assert DoDeleteLink(s, at, "token", LinkId).0 == t;
  }

  lemma CrossingAsksAgain<B(!new)>(blob: B, key: string, at: nat)
    ensures Stepped(CrossedStates(blob, key, at)[4], Crossing(blob, key, at)[4], CrossedStates(blob, key, at)[5])
  {
    var s, t := CrossedStates(blob, key, at)[4], CrossedStates(blob, key, at)[5];
    assert ValidId(LinkId) && ValidId(Other) && ValidLabel("two");
    assert Swept(s, at) == s;
    assert DoStartLink(s, at, LinkId, key, Other, "two").0 == t;
  }

  lemma CrossingApproves<B(!new)>(blob: B, key: string, at: nat)
    requires at <= LinkMs
    ensures Stepped(CrossedStates(blob, key, at)[5], Crossing(blob, key, at)[5], CrossedStates(blob, key, at)[6])
  {
    var s, t := CrossedStates(blob, key, at)[5], CrossedStates(blob, key, at)[6];
    var x := Session(Other, "two", "cli", "fresh");
    OneSession(s.state.value.devices[0], "token", Other, at);
    assert ValidSession(x);
    var browser, linked := t.state.value.devices[0], t.state.value.devices[1];
    assert s.state.value.devices == [browser] && [browser] + [linked] == t.state.value.devices;
    assert Login(s.state.value, at, x) == t.state;
    assert DoFinishApprove(s, at, Crossing(blob, key, at)[5].request.task, "fresh").0 == t;
  }

  /** The signature of a request then goes to another: for every key, and until the first request would have
      expired, there is a run in which the new session is for a device that was not the one approved. */
  lemma ApprovalCrosses<B(!new)>(blob: B, key: string, at: nat)
    requires at <= LinkMs
    ensures var events, states := Crossing(blob, key, at), CrossedStates(blob, key, at);
            && Run(states, events) && Crossed(states[5], states[6], events[5].request.task)
            && events[5].request.task.link.deviceId == Name && LinkId in states[5].links
            && states[5].links[LinkId].publicKey == key && states[5].links[LinkId].expires == at + LinkMs
            && Live(states[6], "fresh", at) && Find(states[6].state.value.devices, "fresh", at).value.id == Other
  {
    CrossingRegisters(blob, key, at);
    CrossingAsks(blob, key, at);
    CrossingWaits(blob, key, at);
    CrossingDeletes(blob, key, at);
    CrossingAsksAgain(blob, key, at);
    CrossingApproves(blob, key, at);
    var states := CrossedStates(blob, key, at);
    assert Live(states[6], "fresh", at) && Find(states[6].state.value.devices, "fresh", at).value.id == Other;
    assert states[6].approvals == states[5].approvals + [1];
    hide Stepped;
  }

  /** Even if the signature covers the other request as well, as its key and its expiry are the same: what is
      signed does not name the device. */
  lemma ApprovalCrossesUnseen<B(!new)>(blob: B)
    ensures var events, states := Crossing(blob, "key one", 0), CrossedStates(blob, "key one", 0);
            var t := events[5].request.task;
            && Run(states, events) && Crossed(states[5], states[6], t) && LinkId in states[5].links
            && (var current := states[5].links[LinkId];
                && current.deviceId != t.link.deviceId
                && Verify(t.root, t.signature, LinkMessage(current.id, current.publicKey, current.expires, t.grant)))
            && Live(states[6], "fresh", 0) && Find(states[6].state.value.devices, "fresh", 0).value.id == Other
  {
    ApprovalCrosses(blob, "key one", 0);
    hide Run, Crossed;
  }
}
