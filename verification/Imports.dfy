/** Which of the vault's credentials the device store gets for a target
    (internal/cloudsync/local_credentials.go, internal/cloudsync/load_agent.go). */
module Imports {
  import opened Text
  import opened Vault
  import opened LocalStore
  import opened Remember
  import Outcomes

  // --- the entry of a target ---

  predicate BoundHere(m: Import, s: Server) {
    s.cloudEntry != "" && s.cloudVault == m.owner
  }

  /** The same host, port and user; and the same way there, unless the target was published from this vault, when
      the way is the device's own. */
  predicate Leads(m: Import, s: Server, e: Entry) {
    && ToLower(TrimSpace(s.host)) == ToLower(TrimSpace(e.server.host))
    && Outcomes.Port(s) == Outcomes.Port(e.server) && s.user == e.server.user
    && (!BoundHere(m, s) ==>
          && s.proxy == e.server.proxy && s.proxyJump == e.server.proxyJump
          && s.proxyCommand == e.server.proxyCommand && s.forwards == e.server.forwards)
  }

  lemma SameLineIff(m: Import, s: Server, e: Entry)
    requires Outcomes.RoutesDiffer(m.h)
    ensures SameLine(m, s, e) <==> Leads(m, s, e)
  {
    hide ToLower, TrimSpace;
  }

  /** The entry is listed, neither deleted nor in conflict, and leads to the target. */
  predicate Serves(m: Import, s: Server, id: string) {
    && id in m.vault.entries && id !in m.vault.deleted && id !in m.vault.conflicts && Leads(m, s, m.vault.entries[id])
  }

  /** A published target is served by its own entry; another one by the only entry that leads to it; a target of
      another vault, and a marker that lost its binding, by none. */
  lemma MatchingIff(m: Import, s: Server, id: string)
    requires Outcomes.RoutesDiffer(m.h) && forall k | k in m.vault.entries :: m.vault.entries[k].id == k
    ensures Matching(m, s) == Some(id) <==>
              && Serves(m, s, id) && (s.cloudVault == "" || s.cloudVault == m.owner)
              && if s.cloudEntry != "" then id == s.cloudEntry && s.cloudVault == m.owner
                 else s.auth != AuthCloud && forall k | Serves(m, s, k) :: k == id
  {
    forall k | k in m.vault.entries ensures SameLine(m, s, m.vault.entries[k]) <==> Leads(m, s, m.vault.entries[k]) {
      SameLineIff(m, s, m.vault.entries[k]);
    }
    hide SameLine, Leads;
    var all := Served(m, s);
    assert forall k :: k in all <==> Serves(m, s, k);
    if Serves(m, s, id) && forall k | Serves(m, s, k) :: k == id {
      assert all == {id};
    }
    if |all| == 1 && s.cloudEntry == "" {
      var k :| k in all;
      Singleton(all, k);
    }
  }

  // --- the credentials of an entry ---

  /** The private key of a credential: its own, or else the one of the target's key file. */
  predicate Opens(m: Import, e: Entry, s: Server, c: Credential, raw: Bytes) {
    var direct := m.k.parse(c.key, c.passphrase);
    direct == Some(raw) || (direct.None? && s.keyPath != "" && m.k.recover(e, s.keyPath, c) == Some(raw))
  }

  /** The key is the one that the credential names, and the one of the target's key file, if it has one. */
  predicate Fits(m: Import, s: Server, c: Credential, raw: Bytes, x: Secret) {
    && m.k.encode(raw) == Some(x.key) && x.passphrase == [] && x.password == ""
    && m.k.public(raw) == Some(x.fingerprint) && (c.fingerprint == "" || c.fingerprint == x.fingerprint)
    && (s.auth == AuthKey && s.keyPath != "" ==> m.w.file(s.keyPath, x).Same?)
  }

  /** The secret that the device gets from a credential. */
  ghost predicate Gives(m: Import, e: Entry, s: Server, c: Credential, x: Secret) {
    || (c.kind == "password" && e.server.auth == AuthPassword && c.password != ""
        && x == Secret([], [], c.password, ""))
    || (c.kind == "key" && exists raw :: Opens(m, e, s, c, raw) && Fits(m, s, c, raw, x))
  }

  ghost predicate GivenBy(m: Import, e: Entry, s: Server, ids: seq<string>, x: Secret) {
    exists id :: id in ids && id in m.vault.credentials && Gives(m, e, s, m.vault.credentials[id], x)
  }

  /** The credential is a key for the target's key file, which cannot be read. */
  ghost predicate Blocked(m: Import, e: Entry, s: Server, c: Credential) {
    c.kind == "key" && s.auth == AuthKey && s.keyPath != ""
    && exists raw :: Opens(m, e, s, c, raw) && m.k.encode(raw).Some? && m.k.public(raw).Some?
                     && (c.fingerprint == "" || m.k.public(raw) == Some(c.fingerprint))
                     && m.w.file(s.keyPath, Secret(m.k.encode(raw).value, [], "", m.k.public(raw).value)).Unreadable?
  }

  ghost predicate BlockedBy(m: Import, e: Entry, s: Server, ids: seq<string>) {
    exists id :: id in ids && id in m.vault.credentials && Blocked(m, e, s, m.vault.credentials[id])
  }

  lemma KeyItemIff(m: Import, e: Entry, s: Server, c: Credential, x: Secret)
    requires c.kind == "key"
    ensures KeyItem(m, e, s, c, m.k.parse(c.key, c.passphrase)) == Took(x) <==> Gives(m, e, s, c, x)
    ensures KeyItem(m, e, s, c, m.k.parse(c.key, c.passphrase)).Abort? <==> Blocked(m, e, s, c)
  {
    var direct := m.k.parse(c.key, c.passphrase);
    var raw := if direct.None? && s.keyPath != "" then m.k.recover(e, s.keyPath, c) else direct;
    if raw.Some? { assert Opens(m, e, s, c, raw.value); }
  }

  function Password(w: string): Secret {
    Secret([], [], w, "")
  }

  /** The loop gathers exactly what the listed credentials give, unless one of them is blocked. */
  lemma {:induction false} GatherIff(m: Import, e: Entry, s: Server, ids: seq<string>, p: Pile)
    requires "" !in p.passwords && forall x | x in p.passwords :: Password(x) in p.secrets
    ensures var r := Gather(m, e, s, ids, p);
            && (r.None? <==> BlockedBy(m, e, s, ids))
            && (r.Some? ==> forall x :: x in r.value.secrets <==> x in p.secrets || GivenBy(m, e, s, ids, x))
            && (r.Some? ==> "" !in r.value.passwords)
            && (r.Some? ==> forall w | w != "" ::
                  w in r.value.passwords <==> w in p.passwords || GivenBy(m, e, s, ids, Password(w)))
    decreases |ids|
  {
    if ids != [] {
      var rest := ids[1..];
      assert ids == [ids[0]] + rest;
      forall x ensures GivenBy(m, e, s, ids, x) <==>
        GivenBy(m, e, s, rest, x) || (ids[0] in m.vault.credentials && Gives(m, e, s, m.vault.credentials[ids[0]], x))
      {
        assert forall id :: id in ids <==> id == ids[0] || id in rest;
      }
      assert BlockedBy(m, e, s, ids) <==>
        BlockedBy(m, e, s, rest) || (ids[0] in m.vault.credentials
                                     && Blocked(m, e, s, m.vault.credentials[ids[0]])) by {
        assert forall id :: id in ids <==> id == ids[0] || id in rest;
      }
      if ids[0] !in m.vault.credentials {
        GatherIff(m, e, s, rest, p);
      } else {
        var c := m.vault.credentials[ids[0]];
        var item := KeyItem(m, e, s, c, m.k.parse(c.key, c.passphrase));
        if c.kind == "key" {
          KeyItemIff(m, e, s, c, Password(""));
          forall x ensures item == Took(x) <==> Gives(m, e, s, c, x) { KeyItemIff(m, e, s, c, x); }
        }
        assert c.kind != "key" ==> !Blocked(m, e, s, c);
        hide KeyItem, Opens, Fits, GivenBy, BlockedBy, Blocked;
        if c.kind == "password" {
          GatherIff(m, e, s, rest, AddPassword(e, c, p));
        } else if c.kind == "key" && item.Took? {
          GatherIff(m, e, s, rest, p.(secrets := p.secrets + [item.secret]));
        } else if c.kind != "key" || !item.Abort? {
          GatherIff(m, e, s, rest, p);
        }
      }
    }
  }

  // --- what is stored ---

  /** What the store holds for a secret: a key with the fingerprint that it proves. */
  function Held(w: World, x: Secret): Secret {
    if x.key != [] && w.prove(x).Some? then x.(fingerprint := w.prove(x).value) else x
  }

  /** Only the target's own credentials and its mark may change. */
  ghost predicate OnlyTarget(w: World, d: Contents, out: Contents, s: Server) {
    && out.secrets == d.secrets && out.keyFiles == d.keyFiles
    && (forall id | Some(id) != Identity(w, s) :: Get(out.connections, id) == Get(d.connections, id))
    && (forall id | Some(id) != Identity(w, s) :: id in out.disabled <==> id in d.disabled)
  }

  /** The target carries this vault's mark, and its entry was deleted. */
  predicate Deleted(m: Import, s: Server) {
    s.cloudVault == m.owner && (if s.cloudEntry == "" then EntryId(m.h, CleanServer(s))
                                else s.cloudEntry) in m.vault.deleted
  }

  /** The entry gives something, and not two passwords. */
  ghost predicate Usable(m: Import, e: Entry, s: Server) {
    && (exists x :: GivenBy(m, e, s, e.credentialIds, x))
    && (forall v, w | GivenBy(m, e, s, e.credentialIds, Password(v)) && GivenBy(m, e, s, e.credentialIds, Password(w))
                      && v != "" && w != "" :: v == w)
  }

  lemma AtMostOne(s: set<string>)
    requires forall v, w | v in s && w in s :: v == w
    ensures |s| <= 1
  {
    if v :| v in s {
      assert s == {v};
    }
  }

  /** A target is disabled exactly if this vault deleted it; else it gets the credentials that its entry gives, if
      there are any; a target that no entry serves gets nothing. */
  lemma StageIs(m: Import, d: Contents, s: Server)
    requires Outcomes.RoutesDiffer(m.h) && forall k | k in m.vault.entries :: m.vault.entries[k].id == k
    requires Stage(m, d, s).Done?
    ensures forall id | Matching(m, s) == Some(id) && !Deleted(m, s) && Usable(m, m.vault.entries[id], s) ::
              GetsFrom(m, d, Stage(m, d, s).value, s, id)
    ensures var out := Stage(m, d, s).value;
            && OnlyTarget(m.w, d, out, s)
            && if Deleted(m, s) then
                 && Identity(m.w, s).Some? && Identity(m.w, s).value in out.disabled && out.connections == d.connections
               else out == d || GetsFromEntry(m, d, out, s)
  {
    hide Identity, CleanServer, EntryId;
    if !Deleted(m, s) && Matching(m, s).Some? {
      var id := Matching(m, s).value;
      MatchingIff(m, s, id);
      var e := m.vault.entries[id];
      var g := Gather(m, e, s, e.credentialIds, Pile([], {}));
      GatherIff(m, e, s, e.credentialIds, Pile([], {}));
      if Usable(m, e, s) { AtMostOne(g.value.passwords); }
      if |g.value.passwords| <= 1 && g.value.secrets != [] {
        PutHolds(m.w, d, s, g.value.secrets);
        assert g.value.secrets[0] in g.value.secrets;
        assert GetsFrom(m, d, Stage(m, d, s).value, s, id);
      }
    }
  }

  /** Nothing is stored past a key file that cannot be read: the import fails. */
  lemma UnreadableStops(m: Import, d: Contents, s: Server, id: string)
    requires Matching(m, s) == Some(id) && !Deleted(m, s)
             && BlockedBy(m, m.vault.entries[id], s, m.vault.entries[id].credentialIds)
    ensures Stage(m, d, s) == Error(KeyFileUnreadable)
  {
    GatherIff(m, m.vault.entries[id], s, m.vault.entries[id].credentialIds, Pile([], {}));
  }

  lemma PutHolds(w: World, d: Contents, s: Server, cs: seq<Secret>)
    requires Put(w, d, s, cs).Done?
    ensures var out := Put(w, d, s, cs).value;
            && OnlyTarget(w, d, out, s) && Identity(w, s).Some?
            && (var id := Identity(w, s).value;
                && id in out.connections && id !in out.disabled
                && forall y :: y in out.connections[id] <==> exists x :: x in cs && y == Held(w, x))
  {
    hide Identity;
    var id := Identity(w, s).value;
    var out := Put(w, d, s, cs).value;
    assert |out.connections[id]| == |cs|;
    forall i | 0 <= i < |cs| ensures out.connections[id][i] == Held(w, cs[i]) && cs[i] in cs {
      assert ValidSecret(w, cs[i]) && out.connections[id][i] == Proved(w, cs[i]);
    }
    forall y | exists x :: x in cs && y == Held(w, x) ensures y in out.connections[id] {
      var x :| x in cs && y == Held(w, x);
      var i :| 0 <= i < |cs| && cs[i] == x;
      assert out.connections[id][i] == y;
    }
  }

  /** The target's credentials are now exactly those that an entry gives which serves it. */
  ghost predicate GetsFrom(m: Import, d: Contents, out: Contents, s: Server, id: string) {
    && Serves(m, s, id) && Identity(m.w, s).Some?
    && (var t := Identity(m.w, s).value;
        && t in out.connections && t !in out.disabled && out.connections[t] != []
        && forall y :: y in out.connections[t] <==>
             exists x :: GivenBy(m, m.vault.entries[id], s, m.vault.entries[id].credentialIds, x) && y == Held(m.w, x))
  }

  ghost predicate GetsFromEntry(m: Import, d: Contents, out: Contents, s: Server) {
    exists id :: GetsFrom(m, d, out, s, id)
  }

  /** In particular a target on another host, or of another user, gets nothing. */
  lemma OthersGetNothing(m: Import, d: Contents, s: Server)
    requires Outcomes.RoutesDiffer(m.h) && (forall k | k in m.vault.entries :: m.vault.entries[k].id == k)
    requires Stage(m, d, s).Done? && s.cloudVault != m.owner
    requires forall id | id in m.vault.entries && id !in m.vault.deleted && id !in m.vault.conflicts ::
               !Leads(m, s, m.vault.entries[id])
    ensures Stage(m, d, s).value == d
  {
    StageIs(m, d, s);
  }
}
