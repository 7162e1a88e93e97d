/** Which signed requests for a terminal the agent admits on one connection
    (internal/cloudsync/shell.go, internal/cloudagent/agent.go). */
module Terminal {
  import opened Text
  import opened Wire

  datatype Open = Open(lifetime: string, mode: string, device: string, epoch: string, session: string, expires: int,
                       signature: Signature)

  /** The text a request signs: three versions, told apart by their first line. */
  function Message(user: string, r: Open): string {
    if r.lifetime == "connection" then
      Fields('\n', ["sshm-shell-v3", user, r.device, r.epoch,
                    r.session + "\n" + Numeral(r.expires) + "\n" + r.mode + "\nconnection"])
    else if r.mode == "ssh" then
      Fields('\n', ["sshm-shell-v2", user, r.device, r.epoch, r.session + "\n" + Numeral(r.expires) + "\nssh"])
    else Fields('\n', ["sshm-shell-v1", user, r.device, r.epoch, r.session + "\n" + Numeral(r.expires)])
  }

  /** The connection's identity: account, device, epoch and vault root. */
  datatype Identity = Identity(user: string, device: string, epoch: string, root: string)

  predicate Plain(me: Identity) {
    '\n' !in me.user && '\n' !in me.device && '\n' !in me.epoch
  }

  const WindowMs := 15 * 60000

  predicate Genuine(me: Identity, r: Open) {
    && (r.lifetime == "" || r.lifetime == "connection") && (r.mode == "" || r.mode == "ssh")
    && r.device == me.device && r.epoch == me.epoch && 8 <= |r.session| <= 100
    && Verify(me.root, r.signature, Message(me.user, r))
  }

  /** `VerifyShell`, which reads the clock twice. */
  predicate Verified(me: Identity, r: Open, now: nat, later: nat) {
    Genuine(me, r) && now < r.expires <= later + WindowMs
  }

  lemma LastLine(x: string, m: int, y: string, n: int)
    requires x + "\n" + Numeral(m) == y + "\n" + Numeral(n)
    ensures x == y && m == n
  {
    NumeralIsPlain(m);
    NumeralIsPlain(n);
    SplitsLast('\n', x, Numeral(m), y, Numeral(n));
    NumeralInjective(m, n);
  }

  function Version(r: Open): string {
    if r.lifetime == "connection" then "sshm-shell-v3" else if r.mode == "ssh" then "sshm-shell-v2" else "sshm-shell-v1"
  }

  function Tail(r: Open): string {
    var line := r.session + "\n" + Numeral(r.expires);
    if r.lifetime == "connection" then line + "\n" + r.mode + "\nconnection"
    else if r.mode == "ssh" then line + "\nssh"
    else line
  }

  lemma MessageLines(user: string, r: Open)
    ensures Message(user, r) == Fields('\n', [Version(r), user, r.device, r.epoch, Tail(r)])
  {
    var line := r.session + "\n" + Numeral(r.expires);
    assert r.session + "\n" + Numeral(r.expires) + "\n" + r.mode + "\nconnection"
           == line + "\n" + r.mode + "\nconnection";
  }

  lemma TailInjective(q: Open, r: Open)
    requires q.mode in {"", "ssh"} && r.mode in {"", "ssh"} && q.lifetime in {"", "connection"}
             && r.lifetime in {"", "connection"}
    requires Version(q) == Version(r) && Tail(q) == Tail(r)
    ensures q.session == r.session && q.expires == r.expires && q.mode == r.mode && q.lifetime == r.lifetime
  {
    var x, y := q.session + "\n" + Numeral(q.expires), r.session + "\n" + Numeral(r.expires);
    if q.lifetime == "connection" {
      assert Tail(q) == (x + "\n" + q.mode) + "\n" + "connection"
             && Tail(r) == (y + "\n" + r.mode) + "\n" + "connection";
      SplitsLast('\n', x + "\n" + q.mode, "connection", y + "\n" + r.mode, "connection");
      SplitsLast('\n', x, q.mode, y, r.mode);
    } else if q.mode == "ssh" {
      assert Tail(q) == x + "\n" + "ssh" && Tail(r) == y + "\n" + "ssh";
      SplitsLast('\n', x, "ssh", y, "ssh");
    }
    LastLine(q.session, q.expires, r.session, r.expires);
  }

  /** One signature stands for one request, even if a session id contains line breaks. */
  lemma SignatureFixesRequest(me: Identity, q: Open, r: Open)
    requires Plain(me) && Genuine(me, q) && Genuine(me, r) && q.signature == r.signature
    ensures q == r
  {
    MessageLines(me.user, q);
    MessageLines(me.user, r);
    var a := [Version(q), me.user, me.device, me.epoch, Tail(q)];
    var b := [Version(r), me.user, me.device, me.epoch, Tail(r)];
    assert a[..4] == [Version(q), me.user, me.device, me.epoch] && b[..4] == [Version(r), me.user, me.device, me.epoch];
    FieldsInjective('\n', a, b);
    assert a[0] == b[0] && a[4] == b[4];
    TailInjective(q, r);
  }

  // --- the session table ---

  /** `clock` is the latest reading of the clock so far; `admitted` lists the requests admitted. */
  datatype Table = Table(sessions: set<string>, seen: map<string, int>, admitted: seq<Open>, clock: nat)

  /** An open request with the readings of the clock while it is handled: two in `VerifyShell`, then
      one for each remembered session; or the end of a session, for whatever reason. */
  datatype Event = Opening(r: Open, now: nat, later: nat, at: string -> nat, end: nat) | Closing(session: string)

  predicate Timely(t: Table, e: Event) {
    e.Opening? ==> t.clock <= e.now <= e.later <= e.end && (forall id | id in t.seen :: e.later <= e.at(id) <= e.end)
  }

  function Forget(seen: map<string, int>, at: string -> nat): map<string, int> {
    map id | id in seen && seen[id] > at(id) :: seen[id]
  }

  predicate Room(t: Table, seen: map<string, int>, r: Open) {
    |t.sessions| < 2 && r.session !in t.sessions && r.session !in seen && |seen| < 256
  }

  predicate Admits(me: Identity, t: Table, e: Event) {
    e.Opening? && Verified(me, e.r, e.now, e.later) && Room(t, Forget(t.seen, e.at), e.r)
  }

  function Step(me: Identity, t: Table, e: Event): Table {
    match e
    case Closing(id) => t.(sessions := t.sessions - {id})
    case Opening(r, now, later, at, end) =>
      if !Verified(me, r, now, later) then t.(clock := end)
      else
        var seen := Forget(t.seen, at);
        if !Room(t, seen, r) then t.(seen := seen, clock := end)
        else Table(t.sessions + {r.session}, seen[r.session := r.expires], t.admitted + [r], end)
  }

  ghost predicate Run(me: Identity, states: seq<Table>, events: seq<Event>) {
    && |states| == |events| + 1 && states[0] == Table({}, map[], [], 0)
    && forall i | 0 <= i < |events| :: Timely(states[i], events[i]) && states[i + 1] == Step(me, states[i], events[i])
  }

  /** An admitted request has expired, or is remembered with its expiry. */
  predicate Remembered(me: Identity, seen: map<string, int>, clock: nat, r: Open) {
    && Genuine(me, r) && r.expires <= clock + WindowMs
    && (r.expires <= clock || (r.session in seen && seen[r.session] == r.expires))
  }

  predicate Inv(me: Identity, t: Table) {
    |t.sessions| <= 2 && |t.seen| <= 256 && forall r | r in t.admitted :: Remembered(me, t.seen, t.clock, r)
  }

  lemma ForgetIsSmaller(seen: map<string, int>, at: string -> nat)
    ensures |Forget(seen, at)| <= |seen|
  {
    SubsetSize(Forget(seen, at).Keys, seen.Keys);
    assert |Forget(seen, at)| == |Forget(seen, at).Keys| && |seen| == |seen.Keys|;
  }

  lemma ForgetKeeps(me: Identity, t: Table, e: Event)
    requires Inv(me, t) && Timely(t, e) && e.Opening?
    ensures Inv(me, t.(seen := Forget(t.seen, e.at), clock := e.end)) && Inv(me, t.(clock := e.end))
  {
    hide Genuine;
    ForgetIsSmaller(t.seen, e.at);
  }

  lemma AdmitKeeps(me: Identity, t: Table, r: Open)
    requires Inv(me, t) && Genuine(me, r) && r.expires <= t.clock + WindowMs && Room(t, t.seen, r)
    ensures Inv(me, t.(sessions := t.sessions + {r.session}, seen := t.seen[r.session := r.expires],
                       admitted := t.admitted + [r]))
  {
    hide Genuine;
    var seen := t.seen[r.session := r.expires];
    assert seen.Keys == t.seen.Keys + {r.session};
    assert |seen| == |seen.Keys| && |t.seen| == |t.seen.Keys|;
    forall q | q in t.admitted ensures Remembered(me, seen, t.clock, q) {
      assert Remembered(me, t.seen, t.clock, q);
    }
  }

  lemma StepKeeps(me: Identity, t: Table, e: Event)
    requires Inv(me, t) && Timely(t, e)
    ensures Inv(me, Step(me, t, e))
  {
    if e.Opening? {
      ForgetKeeps(me, t, e);
      if Admits(me, t, e) { AdmitKeeps(me, t.(seen := Forget(t.seen, e.at), clock := e.end), e.r); }
    } else {
      hide Remembered;
      assert |t.sessions - {e.session}| <= |t.sessions|;
    }
  }

  /** In every state of a connection at most two sessions are open. */
  lemma {:induction false} AtMostTwoSessions(me: Identity, states: seq<Table>, events: seq<Event>, i: nat)
    requires Run(me, states, events) && i < |states|
    ensures Inv(me, states[i]) && |states[i].sessions| <= 2 && |states[i].seen| <= 256
  {
    if i > 0 {
      AtMostTwoSessions(me, states, events, i - 1);
      StepKeeps(me, states[i - 1], events[i - 1]);
    }
  }

  /** Exactly when a request that was admitted before is admitted again: when it expires while it is
      being handled, between the check of its signature and the moment its session is forgotten. */
  lemma AdmittedAgainIff(me: Identity, states: seq<Table>, events: seq<Event>, i: nat)
    requires Run(me, states, events) && i < |events| && events[i].Opening? && events[i].r in states[i].admitted
    ensures var t, e := states[i], events[i];
            Admits(me, t, e) <==>
              && e.now < e.r.expires <= e.at(e.r.session)
              && |t.sessions| < 2 && e.r.session !in t.sessions && |Forget(t.seen, e.at)| < 256
  {
    AtMostTwoSessions(me, states, events, i);
    var t, e := states[i], events[i];
    if e.now < e.r.expires {
      assert e.r.session in t.seen && t.seen[e.r.session] == e.r.expires;
    }
  }

  /** No request is handled across its expiry. */
  predicate Prompt(e: Event) {
    e.Opening? && e.now < e.r.expires ==> e.at(e.r.session) < e.r.expires
  }

  predicate NoneTwice(rs: seq<Open>) {
    forall i, j | 0 <= i < j < |rs| :: rs[i].signature != rs[j].signature
  }

  /** If none is, each signed request is admitted at most once. */
  lemma {:induction false} AdmittedAtMostOnce(me: Identity, states: seq<Table>, events: seq<Event>, n: nat)
    requires Plain(me) && Run(me, states, events) && n < |states| && forall e | e in events :: Prompt(e)
    ensures NoneTwice(states[n].admitted)
  {
    if n > 0 {
      AdmittedAtMostOnce(me, states, events, n - 1);
      AtMostTwoSessions(me, states, events, n - 1);
      var t, e := states[n - 1], events[n - 1];
      assert e in events;
      if Admits(me, t, e) {
        forall r | r in t.admitted ensures r.signature != e.r.signature {
          if r.signature == e.r.signature {
            SignatureFixesRequest(me, r, e.r);
            AdmittedAgainIff(me, states, events, n - 1);
          }
        }
        OnceMore(t.admitted, e.r);
      }
    }
  }

  lemma OnceMore(rs: seq<Open>, r: Open)
    requires NoneTwice(rs) && forall q | q in rs :: q.signature != r.signature
    ensures NoneTwice(rs + [r])
  {}

  lemma AdmitsToEmpty(me: Identity, t: Table, e: Event)
    requires e.Opening? && Verified(me, e.r, e.now, e.later) && t.sessions == {} && forall id | id in t.seen ::
               t.seen[id] <= e.at(id)
    ensures Step(me, t, e) == Table({e.r.session}, map[e.r.session := e.r.expires], t.admitted + [e.r], e.end)
  {
    hide Verified;
    var seen := Forget(t.seen, e.at);
    assert seen == map[];
    assert t.sessions + {e.r.session} == {e.r.session}
           && seen[e.r.session := e.r.expires] == map[e.r.session := e.r.expires];
  }

  lemma Closes(me: Identity, t: Table, id: string)
    ensures Step(me, t, Closing(id)) == t.(sessions := t.sessions - {id})
  {}

  /** Otherwise it may be admitted twice: admitted, closed, and handled again across its expiry. */
  lemma AdmittedTwice(me: Identity, r: Open, now: nat)
    requires Genuine(me, r) && now < r.expires <= now + WindowMs
    ensures exists states: seq<Table>, events: seq<Event> ::
              Run(me, states, events) && states[|events|].admitted == [r, r]
  {
    hide Genuine, Step, Run;
    var at := (id: string) => now;
    var late := (id: string) => r.expires as nat;
    var e0, e1, e2 := Opening(r, now, now, at, now), Closing(r.session), Opening(r, now, now, late, r.expires);
    var s0, s1 := Table({}, map[], [], 0), Table({r.session}, map[r.session := r.expires], [r], now);
    var s2, s3 := s1.(sessions := {}), s1.(admitted := [r, r], clock := r.expires);
    AdmitsToEmpty(me, s0, e0);
    Closes(me, s1, r.session);
    AdmitsToEmpty(me, s2, e2);
    ThreeSteps(me, [s0, s1, s2, s3], [e0, e1, e2]);
  }

  lemma ThreeSteps(me: Identity, s: seq<Table>, e: seq<Event>)
    requires |s| == 4 && |e| == 3 && s[0] == Table({}, map[], [], 0)
    requires Timely(s[0], e[0]) && Timely(s[1], e[1]) && Timely(s[2], e[2])
    requires s[1] == Step(me, s[0], e[0]) && s[2] == Step(me, s[1], e[1]) && s[3] == Step(me, s[2], e[2])
    ensures Run(me, s, e)
  {
    hide Step, Timely;
    forall i | 0 <= i < 3 ensures Timely(s[i], e[i]) && s[i + 1] == Step(me, s[i], e[i]) {
      if i == 0 {} else if i == 1 {} else {}
    }
  }

  // --- the code ---

  lemma RunGrows(me: Identity, states: seq<Table>, events: seq<Event>, e: Event, t: Table)
    requires Run(me, states, events) && Timely(states[|states| - 1], e) && t == Step(me, states[|states| - 1], e)
    ensures Run(me, states + [t], events + [e])
  {
    hide Step, Timely;
  }

  /** The object keeps, as a ghost, the run it has been through. */
  class Connection {
    const me: Identity
    var sessions: set<string>
    var seen: map<string, int>
    ghost var admitted: seq<Open>
    ghost var clock: nat
    ghost var states: seq<Table>
    ghost var events: seq<Event>

    ghost function Value(): Table
      reads this
    {
      Table(sessions, seen, admitted, clock)
    }

    ghost predicate Valid()
      reads this
    {
      Run(me, states, events) && Value() == states[|states| - 1]
    }

    constructor (me: Identity)
      ensures this.me == me && Valid() && Value() == Table({}, map[], [], 0) && events == []
    {
      this.me, sessions, seen, admitted, clock := me, {}, map[], [], 0;
      states, events := [Table({}, map[], [], 0)], [];
    }

    ghost method Record(e: Event)
      requires Run(me, states, events) && Timely(states[|states| - 1], e)
               && Value() == Step(me, states[|states| - 1], e)
      modifies this`states, this`events
      ensures Valid() && states == old(states) + [Value()] && events == old(events) + [e]
      ensures |sessions| <= 2 && |seen| <= 256
      ensures Plain(me) && (forall x | x in events :: Prompt(x)) ==> NoneTwice(admitted)
    {
      RunGrows(me, states, events, e, Value());
      states, events := states + [Value()], events + [e];
      AtMostTwoSessions(me, states, events, |events|);
      if Plain(me) && (forall x | x in events :: Prompt(x)) { AdmittedAtMostOnce(me, states, events, |events|); }
    }

    method ForgetExpired(at: string -> nat)
      modifies this`seen
      ensures seen == Forget(old(seen), at)
    {
      var all := seen;
      var left := seen.Keys;
      while left != {}
        invariant left <= all.Keys && seen.Keys <= all.Keys
        invariant forall id | id in seen :: seen[id] == all[id]
        invariant forall id | id in left :: id in seen
        invariant forall id | id in all && id !in left :: id in seen <==> all[id] > at(id)
        decreases left
      {
        var id :| id in left;
        if all[id] <= at(id) {
          seen := seen - {id};
        }
        left := left - {id};
      }
    }

    /** Handling of an `open` message: a request that was never admitted before is admitted exactly if it
        verifies and there is room; one that was, exactly if it expires while it is handled. */
    method OnOpen(e: Event) returns (ok: bool)
      requires Valid() && e.Opening? && Timely(Value(), e)
      modifies this
      ensures Valid() && events == old(events) + [e]
      ensures ok <==> Verified(me, e.r, e.now, e.later) && Room(old(Value()), Forget(old(seen), e.at), e.r)
      ensures ok ==> e.now < e.r.expires <= e.later + 900000
      ensures ok ==> e.r.session in sessions && e.r.session !in old(sessions) && admitted == old(admitted) + [e.r]
      ensures !ok ==> sessions == old(sessions) && admitted == old(admitted)
      ensures ok && e.r in old(admitted) ==> e.now < e.r.expires <= e.at(e.r.session)
      ensures |sessions| <= 2 && |seen| <= 256
      ensures Plain(me) && (forall x | x in events :: Prompt(x)) ==> NoneTwice(admitted)
    {
      ghost var before := Value();
      ok := Handle(e);
      assert ok ==> e.now < e.r.expires <= e.later + 900000;
      hide Verified, Room, Forget, Step;
      Record(e);
      if e.r in before.admitted {
        AdmittedAgainIff(me, states, events, |events| - 1);
      }
    }

    method Handle(e: Event) returns (ok: bool)
      requires e.Opening?
      modifies this`sessions, this`seen, this`admitted, this`clock
      ensures ok == Admits(me, old(Value()), e)
      ensures Value() == Step(me, old(Value()), e)
    {
      clock := e.end;
      if !Verified(me, e.r, e.now, e.later) {
        return false;
      }
      ForgetExpired(e.at);
      var busy := |sessions| >= 2 || e.r.session in sessions || e.r.session in seen || |seen| >= 256;
      if busy {
        return false;
      }
      seen := seen[e.r.session := e.r.expires];
      sessions := sessions + {e.r.session};
      admitted := admitted + [e.r];
      ok := true;
    }

    /** The end of a session makes room, and leaves what was seen. */
    method CloseSession(id: string)
      requires Valid()
      modifies this`sessions, this`states, this`events
      ensures Valid() && events == old(events) + [Closing(id)]
      ensures sessions == old(sessions) - {id} && |sessions| <= 2
      ensures Plain(me) && (forall x | x in events :: Prompt(x)) ==> NoneTwice(admitted)
    {
      sessions := sessions - {id};
      Record(Closing(id));
    }
  }
}
