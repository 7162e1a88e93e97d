/** The server object in its own form: rows read, changed and written back (cloud/src/index.ts). The
    object keeps, as a ghost, the run it has been through, so that what holds of every run of
    `AccountRuns` holds of every sequence of calls. */
module AccountCode {
  import opened Text
  import opened Account
  import opened AccountRuns

  // --- what the requests mean ---

  /** The put is the request that made the head. */
  predicate IsHead<B(==)>(s: Server<B>, put: Put<B>) {
    s.state.Some? &&
    var head := s.state.value.snapshot;
    head.op == put.op && head.blob == put.blob && head.signature == put.signature && head.base == put.base
  }

  /** The put builds on the head and is signed by the root it leaves; a change of root is signed by
      the present one. */
  predicate Authorised<B(==)>(s: Server<B>, put: Put<B>) {
    s.state.Some? &&
    var root := if put.rotate then put.newRoot else s.state.value.root;
    && s.state.value.snapshot.op != put.op && s.state.value.snapshot.revision == put.base
    && Verify(root, put.signature, SyncMessage(put.base, put.op, put.blob))
    && (put.rotate ==> Verify(s.state.value.root, put.authorization,
                              RotateMessage(put.base, root, put.blob, put.recovery)))
  }

  /** The put builds on another head, or its operation made the head with other contents: what a client takes
      for a conflict. */
  predicate Outdated<B(==)>(s: Server<B>, put: Put<B>) {
    s.state.Some? &&
    var head := s.state.value.snapshot;
    if head.op == put.op then !IsHead(s, put) else put.base != head.revision
  }

  function WaitingPut<B>(root: string, token: string, put: Put<B>): Task<B> {
    PutTask(token, put, root, if put.rotate then put.newRoot else root)
  }

  /** The session of the task is live, and head and root are those it was checked against. */
  predicate Current<B>(s: Server<B>, now: nat, t: Task<B>)
    requires t.PutTask?
  {
    Holds(s, t.token, now) && s.state.value.snapshot.revision == t.put.base && s.state.value.root == t.oldRoot
  }

  /** The new head is the put, signed by the account's root, and the head before it joins a history of
      the last twenty, of which nothing else changes; a rotation leaves only the session that asked. */
  ghost predicate Advances<B(!new)>(s: Server<B>, n: Server<B>, now: nat, t: Task<B>)
    requires t.PutTask? && s.state.Some?
  {
    && n.state.Some? && n == s.(state := n.state, history := n.history)
    && (var head := n.state.value.snapshot;
        && head.revision == s.state.value.snapshot.revision + 1 && head.base == t.put.base
        && head.op == t.put.op && head.blob == t.put.blob && head.root == n.state.value.root
        && Verify(n.state.value.root, head.signature, SyncMessage(head.base, head.op, head.blob)))
    && (forall r: nat :: r in n.history <==> 1 <= r <= t.put.base <= r + 19)
    && t.put.base in n.history && n.history[t.put.base] == s.state.value.snapshot
    && (forall r | r in n.history && r != t.put.base :: r in s.history && n.history[r] == s.history[r])
    && (if t.put.rotate then
          && n.state.value.root == t.root && n.state.value.recovery == t.put.recovery
          && |n.state.value.devices| == 1 && n.state.value.devices[0] in s.state.value.devices
          && n.state.value.devices[0].digest == t.token
        else
          && n.state.value.root == s.state.value.root && n.state.value.recovery == s.state.value.recovery
          && n.state.value.devices == s.state.value.devices)
  }

  lemma ServedCommit<B(!new)>(s: Server<B>, now: nat, t: Task<B>)
    requires Inv(s) && t in s.tasks && t.PutTask?
    ensures Serve(s, now, FinishPut(t)) == DoFinishPut(s, now, t)
    ensures var reply := DoFinishPut(s, now, t).1;
            reply == if !Holds(s, t.token, now) then Refused(401)
                     else if !Current(s, now, t) then Refused(409)
                     else Accepted(Committed(t.put, t.root))
    ensures var (n, reply) := DoFinishPut(s, now, t);
            && Stepped(s, Event(now, FinishPut(t)), n)
            && (reply.Accepted? <==> Current(s, now, t))
            && (if reply.Accepted? then Advances(s, n, now, t) && reply.snapshot == n.state.value.snapshot else n == s)
  {
    LiveIff(s, t.token, now);
    if Current(s, now, t) {
      FindFinds(s.state.value.devices, t.token, now);
      assert TaskOk(t);
    }
  }

  /** A browser approves a request that is pending, under the account's root. */
  predicate Approvable<B(==)>(s: Server<B>, now: nat, token: string, id: string, grant: string,
                              signature: Signature<B>) {
    && s.state.Some? && HasBrowser(s.state.value.devices, token, now)
    && id in s.links && s.links[id].expires >= now && !s.links[id].approved && |grant| <= 4096
    && Verify(s.state.value.root, signature, LinkMessage(id, s.links[id].publicKey, s.links[id].expires, grant))
  }

  predicate Unexpired(before: map<string, Link>, after: map<string, Link>, now: nat) {
    && (forall id | id in before && before[id].expires >= now :: id in after)
    && (forall id | id in after :: id in before && before[id].expires >= now && after[id] == before[id])
  }

  /** If the put was committed in the run, the reply is the snapshot that it made. */
  ghost predicate AnswersRepeat<B(!new)>(states: seq<Server<B>>, events: seq<Event<B>>, put: Put<B>, reply: Reply<B>) {
    forall i: nat | CommitsAt(states, events, i, put) ::
      states[i + 1].state.Some? && reply == Accepted(states[i + 1].state.value.snapshot)
  }

  lemma RepeatsAreAnswered<B(!new)>(states: seq<Server<B>>, events: seq<Event<B>>, now: nat, token: string, put: Put<B>)
    requires Run(states, events)
    ensures var s := states[|states| - 1];
            Holds(s, token, now) && Revision(s) == put.base + 1 ==>
              AnswersRepeat(states, events, put, Serve(s, now, BeginPut(token, put)).1)
  {
    var s := states[|states| - 1];
    LiveIff(s, token, now);
    hide Live, Holds, Serve;
    if Live(s, token, now) && Revision(s) == put.base + 1 {
      forall i: nat | CommitsAt(states, events, i, put)
        ensures states[i + 1].state.Some?
                && Serve(s, now, BeginPut(token, put)).1 == Accepted(states[i + 1].state.value.snapshot)
      {
        RetryReturnsTheCommit(states, events, i, |states| - 1, put, now, token);
        RunKeepsInvariant(states, events, i);
        assert Stepped(states[i], events[i], states[i + 1]);
        CommitAdvances(states[i], events[i], states[i + 1]);
      }
    }
  }

  /** All commits of the run were on earlier bases. */
  ghost predicate CommittedBelow<B(!new)>(states: seq<Server<B>>, events: seq<Event<B>>, base: nat) {
    forall i: nat, p | CommitsAt(states, events, i, p) :: p.base < base
  }

  lemma FirstOnItsBase<B(!new)>(states: seq<Server<B>>, events: seq<Event<B>>, put: Put<B>)
    requires Run(states, events) && events != [] && CommitsAt(states, events, |events| - 1, put)
    ensures CommittedBelow(states[..|events|], events[..|events| - 1], put.base)
  {
    hide Stepped, Serve;
    var n := |events| - 1;
    var before, earlier := states[..n + 1], events[..n];
    forall i: nat, p | CommitsAt(before, earlier, i, p) ensures p.base < put.base {
      assert CommitsAt(states, events, i, p);
      CommittedAtMostOnce(states, events, i, n, p, put);
    }
  }

  lemma PutWaitsIff<B(!new)>(s: Server<B>, now: nat, token: string, put: Put<B>)
    ensures var (n, reply) := DoBeginPut(s, now, token, put);
            && (reply.Accepted? <==> Holds(s, token, now) && IsHead(s, put) && ValidId(put.op))
            && (reply.Suspended? <==> Holds(s, token, now) && Authorised(s, put) && ValidId(put.op))
            && (reply == Refused(401) <==> !Holds(s, token, now))
            && (reply == Refused(409) <==> Holds(s, token, now) && ValidId(put.op) && Outdated(s, put))
            && (reply.Accepted? ==> reply.snapshot == s.state.value.snapshot)
            && (if reply.Suspended? then n == s.(tasks := s.tasks + {WaitingPut(s.state.value.root, token, put)})
                else n == s)
  {
    LiveIff(s, token, now);
    hide Find, ValidId, HasSession;
  }

  lemma ApprovalWaitsIff<B(!new)>(s: Server<B>, now: nat, token: string, id: string, grant: string,
                                  signature: Signature<B>)
    requires s.state.Some? ==> DistinctDigests(s.state.value.devices)
    ensures var (n, reply) := DoBeginApprove(Swept(s, now), now, token, id, grant, signature);
            && (reply.Suspended? || reply.Refused?)
            && (reply.Suspended? <==> Approvable(s, now, token, id, grant, signature))
            && Unexpired(s.links, n.links, now) && n == s.(links := n.links, tasks := n.tasks)
            && (reply.Suspended? ==>
                  && id in n.links && s.state.Some?
                  && n.tasks == s.tasks + {ApproveTask(token, n.links[id], s.state.value.root, grant, signature)})
            && (!reply.Suspended? ==> n.tasks == s.tasks)
  {
    LiveIff(s, token, now);
    if s.state.Some? { FindsTheOne(s.state.value.devices, token, now); }
    hide Find, HasSession, HasBrowser;
  }

  /** A request to be linked that has not expired. */
  predicate Pending(links: map<string, Link>, id: string, now: nat) {
    id in links && links[id].expires >= now
  }

  /** The session may delete the request: it is a browser's, or that of the device it is for. */
  predicate MayDelete(devices: seq<Device>, token: string, now: nat, link: Link) {
    exists d :: d in devices && d.digest == token && d.expires > now && (d.kind == "browser" || d.id == link.deviceId)
  }

  /** Of the requests other than `id`, exactly the expired ones are gone. */
  ghost predicate OthersPending(before: map<string, Link>, after: map<string, Link>, id: string, now: nat) {
    forall x | x != id :: (x in after <==> Pending(before, x, now)) && (x in after ==> after[x] == before[x])
  }

  predicate MayStart<B>(s: Option<State<B>>, links: map<string, Link>, now: nat, id: string, deviceId: string,
                        display: string) {
    && s.Some? && ValidId(id) && ValidId(deviceId) && ValidLabel(display)
    && !Pending(links, id, now) && |set x | x in links && Pending(links, x, now)| < 12
  }

  /** A device may ask to be linked exactly if its data are valid, the id is not in use and fewer than twelve
      requests wait. */
  lemma StartLinkIff<B(!new)>(s: Server<B>, now: nat, id: string, publicKey: string, deviceId: string, display: string)
    ensures var (n, reply) := Serve(s, now, StartLink(id, publicKey, deviceId, display));
            && (reply.Done? <==> MayStart(s.state, s.links, now, id, deviceId, display))
            && OthersPending(s.links, n.links, id, now)
            && (if reply.Done? then
                  && n == s.(links := n.links, serial := s.serial + 1)
                  && Get(n.links, id) == Some(Link(id, publicKey, deviceId, display, now + 600000, false, "", "",
                                                   s.serial))
                else n == s.(links := n.links) && Get(n.links, id)
                     == (if Pending(s.links, id, now) then Some(s.links[id]) else None))
  {
    var rest := Swept(s, now).links;
    assert rest.Keys == set x | x in s.links && Pending(s.links, x, now);
    assert |rest| == |rest.Keys|;
    hide ValidId, ValidLabel;
  }

  function Get(links: map<string, Link>, id: string): Option<Link> {
    if id in links then Some(links[id]) else None
  }

  lemma DeleteLinkIff<B(!new)>(s: Server<B>, now: nat, token: string, id: string)
    requires s.state.Some? ==> DistinctDigests(s.state.value.devices)
    ensures var (n, reply) := Serve(s, now, DeleteLink(token, id));
            && (reply.Done? <==>
                  && s.state.Some? && Pending(s.links, id, now)
                  && MayDelete(s.state.value.devices, token, now, s.links[id]))
            && OthersPending(s.links, n.links, id, now) && n == s.(links := n.links)
            && Get(n.links, id) == (if Pending(s.links, id, now) && !reply.Done? then Some(s.links[id]) else None)
  {
    if s.state.Some? {
      LiveIff(s, token, now);
      FindIff(s.state.value.devices, token, now);
      FindsTheOne(s.state.value.devices, token, now);
    }
    hide Find;
  }

  // --- the object ---

  lemma RunGrows<B(!new)>(states: seq<Server<B>>, events: seq<Event<B>>, e: Event<B>, t: Server<B>)
    requires Run(states, events) && Stepped(states[|states| - 1], e, t)
    ensures Run(states + [t], events + [e])
  {}

  class AccountObject<B(==, !new)> {
    var state: Option<State<B>>
    var history: map<nat, Snapshot<B>>
    var links: map<string, Link>
    var tasks: set<Task<B>>
    var serial: nat
    ghost var issued: set<string>
    ghost var approvals: seq<nat>
    ghost var states: seq<Server<B>>
    ghost var events: seq<Event<B>>

    ghost function Value(): Server<B>
      reads this
    {
      Server(state, history, links, tasks, issued, serial, approvals)
    }

    /** What the object went through is a run, and it is in the last state of that run. */
    ghost predicate Valid()
      reads this
    {
      Run(states, events) && Value() == states[|states| - 1]
    }

    /** A session that was revoked at some moment of the run. */
    ghost predicate WasRevoked(token: string)
      reads this
    {
      exists i :: 0 <= i < |states| && Revoked(states[i], token)
    }

    constructor ()
      ensures Valid() && Value() == NewServer() && events == []
    {
      state, history, links, tasks, serial := None, map[], map[], {}, 0;
      issued, approvals := {}, [];
      states, events := [NewServer()], [];
    }

    /** The request was served: the run is longer by it. */
    ghost method Record(e: Event<B>, before: Server<B>)
      requires Run(states, events) && states[|states| - 1] == before && Stepped(before, e, Value())
      modifies this`states, this`events
      ensures Valid() && states == old(states) + [Value()] && events == old(events) + [e]
      ensures Actor(e.request).Some? && old(WasRevoked(Actor(e.request).value)) ==>
                Serve(before, e.now, e.request).1.Refused?
    {
      RunGrows(states, events, e, Value());
      states, events := states + [Value()], events + [e];
      if Actor(e.request).Some? && old(WasRevoked(Actor(e.request).value)) {
        var i :| 0 <= i < |old(states)| && Revoked(old(states)[i], Actor(e.request).value);
        RevocationIsFinal(states, events, i, |events| - 1, Actor(e.request).value);
      }
    }

    /** `login`: the caller's copy of the row gets a new session and is saved. */
    method SaveLogin(row: State<B>, now: nat, x: Session) returns (reply: Reply<B>)
      requires DistinctIds(row.devices)
      modifies this`state, this`issued
      ensures (Value(), reply) == Issue(old(Value()), Account.Login(row, now, x), x)
      ensures reply.Granted? <==> HasRoom(row.devices, now, x)
      ensures if reply.Granted?
              then state.Some? && state.value == row.(devices := state.value.devices)
                   && SignedIn(row.devices, state.value.devices, now, x)
              else Value() == old(Value())
    {
      LoginIff(row, now, x);
      hide Renewed, Rivals;
      if !ValidId(x.deviceId) || !ValidLabel(x.display) {
        return Refused(400);
      }
      var previous := Named(row.devices, x.deviceId);
      var devices := Others(row.devices, x.deviceId, now);
      if |devices| >= 32 {
        return Refused(409);
      }
      var shown, created := x.display, now;
      if previous.Some? {
        shown, created := previous.value.display, previous.value.created;
      }
      devices := devices + [Device(x.deviceId, shown, x.token, now + SessionMs, created, x.kind)];
      state := Some(row.(devices := devices));
      issued := issued + {x.token};
      reply := Granted(x.token);
      LoginKeeps(row, now, x);
    }

    /** Registration succeeds exactly on an unused account, with a first vault that its root signed. */
    method Register(now: nat, put: Put<B>, root: string, recovery: string, x: Session) returns (reply: Reply<B>)
      requires Valid() && x.token !in issued
      modifies this`state, this`issued, this`states, this`events
      ensures Valid() && Inv(Value()) && events == old(events) + [Event(now, Request.Register(put, root, recovery, x))]
      ensures reply.Granted? <==>
              old(state.None?) && ValidId(put.op) && put.base == 0
              && Verify(root, put.signature, SyncMessage(0, put.op, put.blob)) && ValidSession(x)
      ensures if reply.Granted?
              then && state.Some? && state.value.root == root && state.value.recovery == recovery
                   && state.value.snapshot == Snapshot(1, 0, put.op, put.blob, put.signature, root)
                   && |state.value.devices| == 1 && Opened(state.value.devices[0], now, x)
                   && state.value.devices[0].display == x.display && state.value.devices[0].created == now
              else Value() == old(Value())
    {
      ghost var before := Value();
      ghost var e := Event(now, Request.Register(put, root, recovery, x));
      if state.Some? {
        reply := Refused(409);
      } else if !ValidId(put.op) || put.base != 0 || !Verify(root, put.signature, SyncMessage(0, put.op, put.blob)) {
        reply := Refused(400);
      } else {
        reply := SaveLogin(State(recovery, root, [], Snapshot(1, 0, put.op, put.blob, put.signature, root)), now, x);
      }
      assert (Value(), reply) == Serve(before, now, e.request);
      Record(e, before);
      RunKeepsInvariant(states, events, |events|);
    }

    /** Signing in with the password. */
    method SignIn(now: nat, x: Session, passwordOk: bool) returns (reply: Reply<B>)
      requires Valid() && x.token !in issued
      modifies this`state, this`issued, this`states, this`events
      ensures Valid() && Inv(Value()) && events == old(events) + [Event(now, Request.SignIn(x, passwordOk))]
      ensures reply.Granted? <==> passwordOk && old(state.Some?) && old(HasRoom(state.value.devices, now, x))
      ensures if reply.Granted? then
                && state.Some? && state.value == old(state.value).(devices := state.value.devices)
                && SignedIn(old(state.value.devices), state.value.devices, now, x)
              else Value() == old(Value())
    {
      ghost var before := Value();
      ghost var e := Event(now, Request.SignIn(x, passwordOk));
      RunKeepsInvariant(states, events, |events|);
      SignInIff(before, now, x, passwordOk);
      if state.None? || !passwordOk {
        reply := Refused(401);
      } else {
        reply := SaveLogin(state.value, now, x);
      }
      assert (Value(), reply) == Serve(before, now, e.request);
      hide Serve, HasRoom, SignedIn, Inv;
      Record(e, before);
      RunKeepsInvariant(states, events, |events|);
    }

    /** Recovery: every session ends, and their tokens are of no more use; the device that recovers has the only one. */
    method Recover(now: nat, x: Session, codeOk: bool) returns (reply: Reply<B>)
      requires Valid() && x.token !in issued
      modifies this`state, this`issued, this`states, this`events
      ensures Valid() && Inv(Value()) && events == old(events) + [Event(now, Request.Recover(x, codeOk))]
      ensures reply.Granted? <==> codeOk && old(state.Some?) && ValidSession(x)
      ensures reply.Granted? ==>
                && state.Some? && |state.value.devices| == 1 && Opened(state.value.devices[0], now, x)
                && state.value == old(state.value).(devices := state.value.devices)
                && forall d | d in old(state.value.devices) :: Revoked(Value(), d.digest)
      ensures !reply.Granted? ==> Value() == old(Value())
    {
      ghost var before := Value();
      ghost var e := Event(now, Request.Recover(x, codeOk));
      RunKeepsInvariant(states, events, |events|);
      RecoverIff(before, now, x, codeOk);
      if state.None? || !codeOk {
        reply := Refused(401);
      } else {
        reply := SaveLogin(state.value.(devices := []), now, x);
      }
      assert (Value(), reply) == Serve(before, now, e.request);
      hide Serve, HasRoom, SignedIn, Inv, Revoked;
      Record(e, before);
      RunKeepsInvariant(states, events, |events|);
    }

    /** A change of password ends every session but the one it is made in. */
    method ChangePassword(now: nat, token: string, passwordOk: bool) returns (reply: Reply<B>)
      requires Valid()
      modifies this`state, this`states, this`events
      ensures Valid() && Inv(Value()) && events == old(events) + [Event(now, Request.ChangePassword(token, passwordOk))]
      ensures reply.Done? <==> passwordOk && old(Holds(Value(), token, now))
      ensures reply.Done? ==>
                LeavesOnly(old(Value()), Value(), set d | d in old(state.value.devices) && d.digest == token)
      ensures !reply.Done? ==> Value() == old(Value())
      ensures old(WasRevoked(token)) ==> reply.Refused?
    {
      ghost var before := Value();
      ghost var e := Event(now, Request.ChangePassword(token, passwordOk));
      RunKeepsInvariant(states, events, |events|);
      ChangePasswordIff(before, now, token, passwordOk);
      if state.None? || Find(state.value.devices, token, now).None? || !passwordOk {
        reply := Refused(401);
      } else {
        state := Some(state.value.(devices := [Find(state.value.devices, token, now).value]));
        reply := Done;
      }
      assert (Value(), reply) == Serve(before, now, e.request);
      hide Serve, LeavesOnly, Holds, Inv;
      Record(e, before);
      RunKeepsInvariant(states, events, |events|);
    }

    /** Revoking a device ends its session and no other. */
    method RevokeDevice(now: nat, token: string, id: string) returns (reply: Reply<B>)
      requires Valid()
      modifies this`state, this`states, this`events
      ensures Valid() && Inv(Value()) && events == old(events) + [Event(now, Request.RevokeDevice(token, id))]
      ensures reply.Done? <==> old(Holds(Value(), token, now))
      ensures reply.Done? ==> LeavesOnly(old(Value()), Value(), set d | d in old(state.value.devices) && d.id != id)
      ensures !reply.Done? ==> Value() == old(Value())
      ensures old(WasRevoked(token)) ==> reply.Refused?
    {
      ghost var before := Value();
      ghost var e := Event(now, Request.RevokeDevice(token, id));
      RunKeepsInvariant(states, events, |events|);
      RevokeDeviceIff(before, now, token, id);
      if state.None? || Find(state.value.devices, token, now).None? {
        reply := Refused(401);
      } else {
        state := Some(state.value.(devices := Without(state.value.devices, id)));
        reply := Done;
      }
      assert (Value(), reply) == Serve(before, now, e.request);
      hide Serve, LeavesOnly, Holds, Inv;
      Record(e, before);
      RunKeepsInvariant(states, events, |events|);
    }

    /** A device asks to be linked. */
    method StartLink(now: nat, id: string, publicKey: string, deviceId: string, display: string)
      returns (reply: Reply<B>)
      requires Valid()
      modifies this`links, this`serial, this`states, this`events
      ensures Valid() && Inv(Value())
      ensures events == old(events) + [Event(now, Request.StartLink(id, publicKey, deviceId, display))]
      ensures reply.Done? <==> old(MayStart(state, links, now, id, deviceId, display))
      ensures OthersPending(old(links), links, id, now)
      ensures if reply.Done? then
                && Get(links, id) == Some(Link(id, publicKey, deviceId, display, now + LinkMs, false, "", "",
                                               old(serial)))
                && serial == old(serial) + 1
              else Get(links, id) == (if Pending(old(links), id, now) then Some(old(links)[id]) else None)
    {
      ghost var before := Value();
      ghost var e := Event(now, Request.StartLink(id, publicKey, deviceId, display));
      StartLinkIff(before, now, id, publicKey, deviceId, display);
      reply := WriteLink(now, id, publicKey, deviceId, display);
      assert (Value(), reply) == Serve(before, now, e.request);
      hide Serve, Inv, MayStart, OthersPending;
      Record(e, before);
      RunKeepsInvariant(states, events, |events|);
    }

    method WriteLink(now: nat, id: string, publicKey: string, deviceId: string, display: string)
      returns (reply: Reply<B>)
      modifies this`links, this`serial
      ensures (Value(), reply) == DoStartLink(Swept(old(Value()), now), now, id, publicKey, deviceId, display)
    {
      links := Sweep(links, now);
      if state.None? {
        return Refused(401);
      }
      if !ValidId(id) || !ValidId(deviceId) || !ValidLabel(display) {
        return Refused(400);
      }
      if id in links {
        return Refused(409);
      }
      if |links| >= 12 {
        return Refused(429);
      }
      links := links[id := Link(id, publicKey, deviceId, display, now + LinkMs, false, "", "", serial)];
      serial := serial + 1;
      reply := Done;
    }

    /** A request is deleted by a browser or by the device that made it. */
    method DeleteLink(now: nat, token: string, id: string) returns (reply: Reply<B>)
      requires Valid()
      modifies this`links, this`states, this`events
      ensures Valid() && Inv(Value()) && events == old(events) + [Event(now, Request.DeleteLink(token, id))]
      ensures reply.Done? <==>
                && state.Some? && Pending(old(links), id, now)
                && MayDelete(state.value.devices, token, now, old(links)[id])
      ensures OthersPending(old(links), links, id, now)
      ensures Get(links, id) ==
                if Pending(old(links), id, now) && !reply.Done? then Some(old(links)[id]) else None
      ensures old(WasRevoked(token)) ==> reply.Refused?
    {
      ghost var before := Value();
      ghost var e := Event(now, Request.DeleteLink(token, id));
      RunKeepsInvariant(states, events, |events|);
      DeleteLinkIff(before, now, token, id);
      reply := DropLink(now, token, id);
      assert (Value(), reply) == Serve(before, now, e.request);
      hide Serve, Inv, MayDelete, OthersPending;
      Record(e, before);
      RunKeepsInvariant(states, events, |events|);
    }

    method DropLink(now: nat, token: string, id: string) returns (reply: Reply<B>)
      modifies this`links
      ensures (Value(), reply) == DoDeleteLink(Swept(old(Value()), now), now, token, id)
    {
      links := Sweep(links, now);
      if state.None? || Find(state.value.devices, token, now).None? {
        return Refused(401);
      }
      if id !in links {
        return Refused(404);
      }
      var actor := Find(state.value.devices, token, now).value;
      if actor.id != links[id].deviceId && actor.kind != "browser" {
        return Refused(403);
      }
      links := links - {id};
      reply := Done;
    }

    /** `PUT`, up to the await: the head's own request is answered with the head, even if it was committed
        long ago; a new one waits exactly if it is authorised. */
    method StartPut(now: nat, token: string, put: Put<B>) returns (reply: Reply<B>)
      requires Valid()
      modifies this`tasks, this`states, this`events
      ensures Valid() && Inv(Value()) && events == old(events) + [Event(now, BeginPut(token, put))]
      ensures reply.Accepted? <==> old(Holds(Value(), token, now) && IsHead(Value(), put)) && ValidId(put.op)
      ensures reply.Suspended? <==> old(Holds(Value(), token, now) && Authorised(Value(), put)) && ValidId(put.op)
      ensures reply == Refused(401) <==> old(!Holds(Value(), token, now))
      ensures reply == Refused(409) <==> old(Holds(Value(), token, now) && Outdated(Value(), put)) && ValidId(put.op)
      ensures reply.Accepted? ==> reply.snapshot == state.value.snapshot
      ensures reply.Suspended? ==>
                tasks == old(tasks) + {WaitingPut(state.value.root, token, put)}
      ensures !reply.Suspended? ==> Value() == old(Value())
      ensures old(Holds(Value(), token, now) && Revision(Value()) == put.base + 1) ==>
                AnswersRepeat(old(states), old(events), put, reply)
      ensures old(WasRevoked(token)) ==> reply.Refused?
    {
      ghost var before := Value();
      ghost var e := Event(now, BeginPut(token, put));
      reply := CheckPut(now, token, put);
      PutWaitsIff(before, now, token, put);
      assert Stepped(before, e, Value()) && reply == Serve(before, now, e.request).1;
      hide DoBeginPut, IsHead, Authorised, Serve, Stepped, Inv, AnswersRepeat;
      Record(e, before);
      RunKeepsInvariant(states, events, |events|);
      RepeatsAreAnswered(old(states), old(events), now, token, put);
    }

    method CheckPut(now: nat, token: string, put: Put<B>) returns (reply: Reply<B>)
      modifies this`tasks
      ensures (Value(), reply) == DoBeginPut(old(Value()), now, token, put)
    {
      if state.None? || Find(state.value.devices, token, now).None? {
        return Refused(401);
      }
      var s := state.value;
      if !ValidId(put.op) {
        return Refused(400);
      }
      if s.snapshot.op == put.op {
        if s.snapshot.blob == put.blob && s.snapshot.signature == put.signature && s.snapshot.base == put.base {
          return Accepted(s.snapshot);
        }
        return Refused(409);
      }
      if put.base != s.snapshot.revision {
        return Refused(409);
      }
      var root := s.root;
      if put.rotate {
        root := put.newRoot;
      }
      if !Verify(root, put.signature, SyncMessage(put.base, put.op, put.blob)) {
        return Refused(403);
      }
      if put.rotate && !Verify(s.root, put.authorization, RotateMessage(put.base, root, put.blob, put.recovery)) {
        return Refused(403);
      }
      tasks := tasks + {PutTask(token, put, s.root, root)};
      reply := Suspended;
    }

    /** `PUT`, the transaction: it succeeds exactly if the task is still current, advances the head, and is the
        first on its base. */
    method CommitPut(now: nat, t: Task<B>) returns (reply: Reply<B>)
      requires Valid() && t in tasks && t.PutTask?
      modifies this`state, this`history, this`states, this`events
      ensures Valid() && Inv(Value()) && events == old(events) + [Event(now, FinishPut(t))]
      ensures reply.Accepted? <==> old(Current(Value(), now, t))
      ensures if reply.Accepted?
              then Advances(old(Value()), Value(), now, t) && reply.snapshot == state.value.snapshot
              else Value() == old(Value())
      ensures reply.Accepted? ==> CommittedBelow(old(states), old(events), t.put.base)
      ensures old(WasRevoked(t.token)) ==> reply.Refused?
    {
      ghost var before := Value();
      ghost var e := Event(now, FinishPut(t));
      RunKeepsInvariant(states, events, |events|);
      ServedCommit(before, now, t);
      hide Stepped, Serve, DoFinishPut, Current, Advances, Inv, CommittedBelow;
      reply := WritePut(now, t);
      Record(e, before);
      RunKeepsInvariant(states, events, |events|);
      if reply.Accepted? {
        assert states[..|events|] == old(states) && events[..|events| - 1] == old(events);
        FirstOnItsBase(states, events, t.put);
      }
    }

    method WritePut(now: nat, t: Task<B>) returns (reply: Reply<B>)
      requires t.PutTask?
      modifies this`state, this`history
      ensures (Value(), reply) == DoFinishPut(old(Value()), now, t)
    {
      if state.None? || Find(state.value.devices, t.token, now).None? {
        return Refused(401);
      }
      var s := state.value;
      if s.snapshot.revision != t.put.base || s.root != t.oldRoot {
        return Refused(409);
      }
      history := history[s.snapshot.revision := s.snapshot];
      if t.put.rotate {
        s := s.(root := t.root, recovery := t.put.recovery, devices := [Find(s.devices, t.token, now).value]);
      }
      s := s.(snapshot := Committed(t.put, t.root));
      state := Some(s);
      history := map r | r in history && r + 19 >= t.put.base :: history[r];
      reply := Accepted(s.snapshot);
    }

    /** An approval waits exactly if a browser signed in asks for it, the request is pending, and the
        account's root signed it; only expired requests go meanwhile. */
    method BeginApproval(now: nat, token: string, id: string, grant: string, signature: Signature<B>)
      returns (reply: Reply<B>)
      requires Valid()
      modifies this`links, this`tasks, this`states, this`events
      ensures Valid() && Inv(Value()) && events == old(events) + [Event(now, BeginApprove(token, id, grant, signature))]
      ensures Unexpired(old(links), links, now) && Value() == old(Value()).(links := links, tasks := tasks)
      ensures reply.Suspended? || reply.Refused?
      ensures reply.Suspended? <==> old(Approvable(Value(), now, token, id, grant, signature))
      ensures tasks == if reply.Suspended?
                       then old(tasks) + {ApproveTask(token, links[id], state.value.root, grant, signature)}
                       else old(tasks)
      ensures old(WasRevoked(token)) ==> reply.Refused?
    {
      ghost var before := Value();
      ghost var e := Event(now, BeginApprove(token, id, grant, signature));
      RunKeepsInvariant(states, events, |events|);
      reply := CheckApproval(now, token, id, grant, signature);
      ApprovalWaitsIff(before, now, token, id, grant, signature);
      assert Stepped(before, e, Value()) && reply == Serve(before, now, e.request).1;
      hide DoBeginApprove, Approvable, Unexpired, Serve, Stepped, Swept, Inv;
      Record(e, before);
      RunKeepsInvariant(states, events, |events|);
    }

    method CheckApproval(now: nat, token: string, id: string, grant: string, signature: Signature<B>)
      returns (reply: Reply<B>)
      modifies this`links, this`tasks
      ensures (Value(), reply) == DoBeginApprove(Swept(old(Value()), now), now, token, id, grant, signature)
    {
      links := Sweep(links, now);
      if state.None? || Find(state.value.devices, token, now).None? {
        return Refused(401);
      }
      if id !in links {
        return Refused(404);
      }
      if Find(state.value.devices, token, now).value.kind != "browser" {
        return Refused(403);
      }
      if links[id].approved {
        return Refused(409);
      }
      var root := state.value.root;
      if |grant| > 4096 {
        return Refused(400);
      }
      if !Verify(root, signature, LinkMessage(id, links[id].publicKey, links[id].expires, grant)) {
        return Refused(403);
      }
      tasks := tasks + {ApproveTask(token, links[id], root, grant, signature)};
      reply := Suspended;
    }

    /** An approval takes effect exactly if session, root and request still stand, for a request that was
        never approved before, and signs its device in. */
    method CommitApproval(now: nat, t: Task<B>, newToken: string) returns (reply: Reply<B>)
      requires Valid() && t in tasks && t.ApproveTask? && newToken !in issued
      modifies this`state, this`issued, this`links, this`approvals, this`states, this`events
      ensures Valid() && Inv(Value()) && events == old(events) + [Event(now, FinishApprove(t, newToken))]
      ensures reply.Done? || reply.Refused?
      ensures reply.Done? <==> old(Grantable(Value(), now, t, newToken))
      ensures reply.Done? ==>
                var current := old(links)[t.link.id];
                && state.Some? && state.value == old(state.value).(devices := state.value.devices)
                && SignedIn(old(state.value.devices), state.value.devices, now, LinkSession(current, newToken))
                && links == old(links)[t.link.id := current.(approved := true, root := t.root, token := newToken)]
                && current.serial !in old(approvals) && approvals == old(approvals) + [current.serial]
                && (current.serial == t.link.serial <==> current == t.link)
      ensures !reply.Done? ==> Value() == old(Value())
      ensures old(WasRevoked(t.token)) ==> reply.Refused?
    {
      ghost var before := Value();
      RunKeepsInvariant(states, events, |events|);
      reply := WriteApproval(now, t, newToken);
      ghost var e := Event(now, FinishApprove(t, newToken));
      assert Stepped(before, e, Value());
      Record(e, before);
      RunKeepsInvariant(states, events, |events|);
    }

    method WriteApproval(now: nat, t: Task<B>, newToken: string) returns (reply: Reply<B>)
      requires t.ApproveTask? && Inv(Value())
      modifies this`state, this`issued, this`links, this`approvals
      ensures (Value(), reply) == DoFinishApprove(old(Value()), now, t, newToken)
      ensures reply.Done? || reply.Refused?
      ensures reply.Done? <==> old(Grantable(Value(), now, t, newToken))
      ensures reply.Done? ==>
                var current := old(links)[t.link.id];
                && state.Some? && state.value == old(state.value).(devices := state.value.devices)
                && SignedIn(old(state.value.devices), state.value.devices, now, LinkSession(current, newToken))
                && links == old(links)[t.link.id := current.(approved := true, root := t.root, token := newToken)]
                && current.serial !in old(approvals) && approvals == old(approvals) + [current.serial]
      ensures !reply.Done? ==> Value() == old(Value())
    {
      LiveIff(Value(), t.token, now);
      hide HasSession, HasRoom, SignedIn;
      if state.None? || state.value.root != t.root || Find(state.value.devices, t.token, now).None? {
        return Refused(409);
      }
      if t.link.id !in links || links[t.link.id].approved || links[t.link.id].expires < now {
        return Refused(409);
      }
      var current := links[t.link.id];
      reply := SaveLogin(state.value, now, Session(current.deviceId, current.display, "cli", newToken));
      if !reply.Granted? {
        return;
      }
      links := links[current.id := current.(approved := true, root := t.root, token := newToken)];
      approvals := approvals + [current.serial];
      reply := Done;
    }
  }
}
