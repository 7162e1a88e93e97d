/** The keys of terminal sessions over the life of a connection: every admitted request gets a cipher per direction
    that starts from zero, under a key that depends on the session id only (internal/cloudagent/agent.go,
    internal/cloudsync/shell.go). */
module SessionKeys {
  import opened Text
  import T = Terminal
  import S = Shell

  /** Nothing of the identity reads as a separator of key labels. */
  predicate Slashless(me: T.Identity) {
    '/' !in me.user + me.device + me.epoch
  }

  function Label(me: T.Identity, session: string, direction: string): string {
    S.KeyLabel(me.user, me.device, me.epoch, session, direction)
  }

  /** The cipher that an admission makes. */
  function NewCipher(me: T.Identity, session: string, direction: string): S.Cipher {
    S.Cipher(Label(me, session, direction), session, direction, 0)
  }

  lemma LabelsDiffer(me: T.Identity, session: string, other: string, direction: string)
    requires Slashless(me) && direction in {"c2a", "a2c"}
             && Label(me, session, direction) == Label(me, other, direction)
    ensures session == other
  {
    S.KeysAreDistinct(me.user, me.device, me.epoch, session, direction, me.user, me.device, me.epoch, other, direction);
  }

  // --- a connection that also sends ---

  /** What a key has encrypted: the label of the key, and the nonce. */
  datatype Use = Use(key: string, nonce: Bytes)

  /** The session table, the sending cipher of each open session, and every use of a key so far. */
  datatype Host = Host(table: T.Table, senders: map<string, S.Cipher>, used: seq<Use>)

  datatype Event = Table(e: T.Event) | Sealing(session: string, p: S.Payload)

  function Step(me: T.Identity, w: Host, e: Event): Host {
    match e
    case Table(x) =>
      var senders :=
        if x.Closing? then w.senders - {x.session}
        else if T.Admits(me, w.table, x) then w.senders[x.r.session := NewCipher(me, x.r.session, "a2c")]
        else w.senders;
      w.(table := T.Step(me, w.table, x), senders := senders)
    case Sealing(session, p) =>
      if session !in w.senders || S.Seal(w.senders[session], p).None? then w
      else
        var c := w.senders[session];
        w.(senders := w.senders[session := S.Seal(c, p).value.0], used := w.used + [Use(c.key, S.Nonce(c.count))])
  }

  const Idle := Host(T.Table({}, map[], [], 0), map[], [])

  ghost predicate Run(me: T.Identity, states: seq<Host>, events: seq<Event>) {
    && |states| == |events| + 1 && states[0] == Idle
    && forall i | 0 <= i < |events| ::
         && (events[i].Table? ==> T.Timely(states[i].table, events[i].e))
         && states[i + 1] == Step(me, states[i], events[i])
  }

  /** What happens to the session table. */
  function Project(events: seq<Event>): seq<T.Event> {
    if events == [] then []
    else
      var n := |events| - 1;
      Project(events[..n]) + if events[n].Table? then [events[n].e] else []
  }

  predicate Once(used: seq<Use>) {
    forall i, j | 0 <= i < j < |used| :: used[i] != used[j]
  }

  predicate SessionsOnce(rs: seq<T.Open>) {
    forall i, j | 0 <= i < j < |rs| :: rs[i].session != rs[j].session
  }

  predicate Admitted(w: Host, session: string) {
    exists r | r in w.table.admitted :: r.session == session
  }

  // --- no session twice, no use twice ---

  /** A key was used for an admitted session only, and by an open one only with counts it has passed. */
  ghost predicate UseOk(me: T.Identity, w: Host, u: Use) {
    exists session, c: nat :: UsedBy(me, w, u, session, c)
  }

  ghost predicate UsedBy(me: T.Identity, w: Host, u: Use, session: string, c: nat) {
    && u == Use(Label(me, session, "a2c"), S.Nonce(c)) && c < S.Limit && Admitted(w, session)
    && (session in w.senders ==> c < w.senders[session].count)
  }

  ghost predicate Inv(me: T.Identity, w: Host) {
    && Once(w.used) && (forall u | u in w.used :: UseOk(me, w, u))
    && (forall x | x in w.senders ::
          && Admitted(w, x) && w.senders[x].(count := 0) == NewCipher(me, x, "a2c") && w.senders[x].count <= S.Limit)
  }

  lemma OnceMore(used: seq<Use>, u: Use)
    requires Once(used) && u !in used
    ensures Once(used + [u])
  {}

  lemma SealKeeps(me: T.Identity, w: Host, session: string, p: S.Payload)
    requires Slashless(me) && Inv(me, w)
    ensures Inv(me, Step(me, w, Sealing(session, p)))
  {
    var n := Step(me, w, Sealing(session, p));
    if n != w {
      var c := w.senders[session];
      var u := Use(c.key, S.Nonce(c.count));
      assert c.(count := 0) == NewCipher(me, session, "a2c");
      hide S.Nonce, S.KeyLabel;
      forall x | x in w.used ensures x != u && UseOk(me, n, x) {
        var s, d: nat :| UsedBy(me, w, x, s, d);
        if x == u {
          LabelsDiffer(me, s, session, "a2c");
          S.NoncesAreDistinct(d, c.count);
        }
        assert UsedBy(me, n, x, s, d);
      }
      assert UsedBy(me, n, u, session, c.count);
      assert n.used == w.used + [u];
      OnceMore(w.used, u);
      assert n.senders[session] == c.(count := c.count + 1);
    }
  }

  lemma AdmittedGrows(me: T.Identity, w: Host, x: T.Event, session: string)
    ensures Admitted(w, session) ==> Admitted(Step(me, w, Table(x)), session)
    ensures x.Opening? && T.Admits(me, w.table, x) ==> Admitted(Step(me, w, Table(x)), x.r.session)
  {
    hide T.Verified, T.Forget, T.Room;
    var n := Step(me, w, Table(x));
    assert forall r | r in w.table.admitted :: r in n.table.admitted;
    if x.Opening? && T.Admits(me, w.table, x) {
      assert n.table.admitted == w.table.admitted + [x.r];
      assert x.r in n.table.admitted;
    }
  }

  lemma TableKeeps(me: T.Identity, w: Host, x: T.Event)
    requires Inv(me, w) && (x.Opening? && T.Admits(me, w.table, x) ==> !Admitted(w, x.r.session))
    ensures Inv(me, Step(me, w, Table(x)))
  {
    var n := Step(me, w, Table(x));
    hide T.Step, T.Admits, S.Nonce, S.KeyLabel, Admitted;
    forall u | u in w.used ensures UseOk(me, n, u) {
      var s, c: nat :| UsedBy(me, w, u, s, c);
      AdmittedGrows(me, w, x, s);
      assert UsedBy(me, n, u, s, c);
    }
    forall s | s in n.senders ensures Admitted(n, s) {
      AdmittedGrows(me, w, x, s);
    }
  }

  /** What was admitted by then was admitted in the end. */
  lemma {:induction false} AdmittedStay(me: T.Identity, states: seq<Host>, events: seq<Event>, i: nat, k: nat)
    requires Run(me, states, events) && i <= k < |states|
    ensures states[i].table.admitted <= states[k].table.admitted
    decreases k - i
  {
    hide T.Verified, T.Forget, T.Room, S.Seal;
    if i < k { AdmittedStay(me, states, events, i, k - 1); }
  }

  lemma FreshSession(w: Host, n: Host, r: T.Open, all: seq<T.Open>)
    requires SessionsOnce(all) && n.table.admitted == w.table.admitted + [r] && n.table.admitted <= all
    ensures !Admitted(w, r.session)
  {
    forall q | q in w.table.admitted ensures q.session != r.session {
      var i :| 0 <= i < |w.table.admitted| && w.table.admitted[i] == q;
      assert all[i] == n.table.admitted[i] && all[|w.table.admitted|] == n.table.admitted[|w.table.admitted|];
    }
  }

  lemma {:induction false} OnceInRun(me: T.Identity, states: seq<Host>, events: seq<Event>, k: nat)
    requires Slashless(me) && Run(me, states, events) && k < |states| && SessionsOnce(states[|events|].table.admitted)
    ensures Inv(me, states[k])
  {
    hide Inv, Slashless;
    if k == 0 {
      NothingUsed(me);
    } else {
      OnceInRun(me, states, events, k - 1);
      var w, e := states[k - 1], events[k - 1];
      assert states[k] == Step(me, w, e);
      if e.Sealing? {
        SealKeeps(me, w, e.session, e.p);
      } else {
        if e.e.Opening? && T.Admits(me, w.table, e.e) {
          AdmittedStay(me, states, events, k, |events|);
          FreshSession(w, states[k], e.e.r, states[|events|].table.admitted);
        }
        TableKeeps(me, w, e.e);
      }
    }
  }

  lemma NothingUsed(me: T.Identity)
    ensures Inv(me, Idle)
  {}

  // --- a session twice, a use twice ---

  lemma RunGrows(me: T.Identity, states: seq<Host>, events: seq<Event>, e: Event)
    requires Run(me, states, events) && (e.Table? ==> T.Timely(states[|events|].table, e.e))
    ensures var n := Step(me, states[|events|], e);
            && Run(me, states + [n], events + [e])
            && Project(events + [e]) == Project(events) + if e.Table? then [e.e] else []
  {
    hide Step;
    assert (events + [e])[..|events|] == events;
  }

  /** The first use of the key of each admission. */
  function FirstUses(me: T.Identity, rs: seq<T.Open>): seq<Use> {
    seq(|rs|, i requires 0 <= i < |rs| => Use(Label(me, rs[i].session, "a2c"), S.Nonce(0)))
  }

  /** Every run of the session table goes with one in which each session sends one frame when it is admitted. */
  lemma {:induction false} EachSendsOne(me: T.Identity, tables: seq<T.Table>, xs: seq<T.Event>, n: nat)
    returns (states: seq<Host>, events: seq<Event>)
    requires T.Run(me, tables, xs) && n < |tables|
    ensures Run(me, states, events) && Project(events) == xs[..n] && states[|events|].table == tables[n]
    ensures states[|events|].used == FirstUses(me, tables[n].admitted)
  {
    hide T.Timely, T.Step, T.Admits, S.Nonce, S.KeyLabel;
    if n == 0 {
      states, events := [Idle], [];
      return;
    }
    states, events := EachSendsOne(me, tables, xs, n - 1);
    var x, w := xs[n - 1], states[|events|];
    assert T.Timely(tables[n - 1], x) && tables[n] == T.Step(me, tables[n - 1], x);
    assert xs[..n] == xs[..n - 1] + [x];
    RunGrows(me, states, events, Table(x));
    states, events := states + [Step(me, w, Table(x))], events + [Table(x)];
    AdmittedNext(me, w.table, x);
    if x.Opening? && T.Admits(me, w.table, x) {
      FirstUseOf(me, states[|events|], x.r, w.table.admitted);
      RunGrows(me, states, events, Sealing(x.r.session, []));
      states := states + [Step(me, states[|events|], Sealing(x.r.session, []))];
      events := events + [Sealing(x.r.session, [])];
    }
  }

  lemma AdmittedNext(me: T.Identity, t: T.Table, x: T.Event)
    ensures T.Step(me, t, x).admitted == t.admitted + if x.Opening? && T.Admits(me, t, x) then [x.r] else []
  {
    hide T.Verified, T.Forget, T.Room;
  }

  lemma FirstUseOf(me: T.Identity, w: Host, r: T.Open, rs: seq<T.Open>)
    requires r.session in w.senders && w.senders[r.session] == NewCipher(me, r.session, "a2c")
             && w.used == FirstUses(me, rs)
    ensures Step(me, w, Sealing(r.session, [])).used == FirstUses(me, rs + [r])
    ensures Step(me, w, Sealing(r.session, [])).table == w.table
  {
    hide S.Nonce, S.KeyLabel;
  }

  /** No key is used twice with a nonce, whatever the sessions send. */
  ghost predicate AlwaysOnce(me: T.Identity, xs: seq<T.Event>) {
    forall states: seq<Host>, events: seq<Event> | Run(me, states, events) && Project(events) == xs ::
      Once(states[|events|].used)
  }

  lemma {:induction false} TablesAgree(me: T.Identity, states: seq<Host>, events: seq<Event>, tables: seq<T.Table>)
    requires Run(me, states, events) && T.Run(me, tables, Project(events))
    ensures states[|events|].table == tables[|tables| - 1]
    decreases |events|
  {
    if events != [] {
      hide T.Step, T.Timely;
      var n := |events| - 1;
      var xs := Project(events[..n]);
      assert Run(me, states[..n + 1], events[..n]);
      var before := if events[n].Table? then tables[..|tables| - 1] else tables;
      assert T.Run(me, before, xs) by {
        assert forall i | 0 <= i < |xs| :: xs[i] == Project(events)[i] && before[i] == tables[i];
      }
      TablesAgree(me, states[..n + 1], events[..n], before);
      assert states[n + 1] == Step(me, states[n], events[n]);
      if events[n].Table? {
        var k := |xs|;
        assert Project(events)[k] == events[n].e;
        assert tables[k + 1] == T.Step(me, tables[k], Project(events)[k]);
      }
    }
  }

  /** Exactly when no key is ever used twice with a nonce: no session id was admitted twice. */
  lemma UsedOnceIff(me: T.Identity, tables: seq<T.Table>, xs: seq<T.Event>)
    requires Slashless(me) && T.Run(me, tables, xs)
    ensures AlwaysOnce(me, xs) <==> SessionsOnce(tables[|xs|].admitted)
  {
    hide T.Step, Step, Slashless;
    var all := tables[|xs|].admitted;
    if SessionsOnce(all) {
      forall states: seq<Host>, events: seq<Event> | Run(me, states, events) && Project(events) == xs
        ensures Once(states[|events|].used)
      {
        TablesAgree(me, states, events, tables);
        OnceAtTheEnd(me, states, events);
      }
    } else {
      var i, j :| 0 <= i < j < |all| && all[i].session == all[j].session;
      var states, events := EachSendsOne(me, tables, xs, |xs|);
      assert xs[..|xs|] == xs;
      var used := states[|events|].used;
      assert used[i] == used[j];
    }
  }

  lemma OnceAtTheEnd(me: T.Identity, states: seq<Host>, events: seq<Event>)
    requires Slashless(me) && Run(me, states, events) && SessionsOnce(states[|events|].table.admitted)
    ensures Once(states[|events|].used)
  {
    OnceInRun(me, states, events, |events|);
  }

  // --- requests ---

  /** Session ids are random: requests with one id are one request. */
  predicate OneRequest(rs: seq<T.Open>) {
    forall q, r | q in rs && r in rs && q.session == r.session :: q == r
  }

  /** If session ids are not chosen twice, no key is ever used twice with a nonce exactly if no request was
      admitted twice. */
  lemma RequestsOnceIff(me: T.Identity, tables: seq<T.Table>, xs: seq<T.Event>)
    requires Slashless(me) && T.Plain(me) && T.Run(me, tables, xs) && OneRequest(tables[|xs|].admitted)
    ensures AlwaysOnce(me, xs) <==> T.NoneTwice(tables[|xs|].admitted)
  {
    T.AtMostTwoSessions(me, tables, xs, |xs|);
    UsedOnceIff(me, tables, xs);
    var all := tables[|xs|].admitted;
    forall i, j | 0 <= i < j < |all|
      ensures all[i].session == all[j].session <==> all[i].signature == all[j].signature
    {
      assert all[i] in all && all[j] in all;
      if all[i].signature == all[j].signature { T.SignatureFixesRequest(me, all[i], all[j]); }
    }
  }

  /** So it never is on a connection that handles no request across its expiry. */
  lemma PromptKeysAreFresh(me: T.Identity, tables: seq<T.Table>, xs: seq<T.Event>)
    requires Slashless(me) && T.Plain(me) && T.Run(me, tables, xs) && OneRequest(tables[|xs|].admitted)
    requires forall x | x in xs :: T.Prompt(x)
    ensures AlwaysOnce(me, xs)
  {
    T.AdmittedAtMostOnce(me, tables, xs, |xs|);
    RequestsOnceIff(me, tables, xs);
  }

  /** Otherwise it may be: whatever the request, there is a connection on which its key is used twice with a nonce. */
  lemma KeyUsedTwice(me: T.Identity, r: T.Open, now: nat)
    requires Slashless(me) && T.Genuine(me, r) && now < r.expires <= now + T.WindowMs
    ensures exists states: seq<Host>, events: seq<Event> :: Run(me, states, events) && !Once(states[|events|].used)
  {
    hide T.Genuine, T.Step, Step, Slashless;
    T.AdmittedTwice(me, r, now);
    var tables: seq<T.Table>, xs: seq<T.Event> :| T.Run(me, tables, xs) && tables[|xs|].admitted == [r, r];
    assert tables[|xs|].admitted[0].session == tables[|xs|].admitted[1].session;
    UsedOnceIff(me, tables, xs);
  }

  /** A frame that a browser made for one admitted request opens for another, at the same count, exactly if both
      have one session id: so on a second admission all frames of the first session open again. */
  lemma FramesOpenIff(me: T.Identity, q: T.Open, r: T.Open, count: nat, p: S.Payload)
    requires Slashless(me) && count < S.Limit && |p| <= 32768
    ensures var sender := NewCipher(me, q.session, "c2a").(count := count);
            var receiver := NewCipher(me, r.session, "c2a").(count := count);
            && S.Seal(sender, p).Some?
            && (S.Open(receiver, S.Seal(sender, p).value.1).Some? <==> q.session == r.session)
            && (q.session == r.session ==> S.Open(receiver, S.Seal(sender, p).value.1).value.1 == p)
  {
    hide S.Nonce, S.Aad;
    if Label(me, q.session, "c2a") == Label(me, r.session, "c2a") { LabelsDiffer(me, q.session, r.session, "c2a"); }
  }
}
