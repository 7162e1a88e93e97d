/** Publication of the vault's connections into the local configuration
    (internal/cloudsync/local_inventory.go, internal/config/config.go). */
module Inventory {
  import opened Text
  import opened Wire
  import opened Observations
  import opened Vault

  /** A nil record is `None`. */
  type Servers = map<string, Option<Server>>

  /** What refers to servers by name: the default and the projects. */
  datatype Anchors = Anchors(chosen: string, projects: map<string, Option<string>>)

  datatype Config = Config(servers: Servers, anchors: Anchors)

  /** `cfg.Servers[alias]`, nil if there is none. */
  function At(m: Servers, alias: string): Option<Server> {
    if alias in m then m[alias] else None
  }

  // --- protection from removal ---

  /** Reasons that removals elsewhere cannot take away: a manual mark, the default, a project. */
  predicate Pinned(c: Anchors, alias: string, s: Server) {
    s.meta.cleanupProtected || c.chosen == alias || exists p | p in c.projects :: c.projects[p] == Some(alias)
  }

  /** Another record uses `alias` as its jump host. */
  predicate Jumped(m: Servers, alias: string) {
    exists n | n in m :: n != alias && m[n].Some? && TrimSpace(m[n].value.proxyJump) == alias
  }

  /** `CleanupProtectionReasons` is not empty. */
  predicate Protected(c: Anchors, m: Servers, alias: string) {
    At(m, alias).Some? && (Pinned(c, alias, At(m, alias).value) || Jumped(m, alias))
  }

  // --- recognising records ---

  predicate SameRoute(h: Digests, a: Server, b: Server) {
    EntryId(h, a.(auth := "")) == EntryId(h, b.(auth := ""))
  }

  predicate AllDigits(s: string) {
    s != "" && forall c | c in s :: '0' <= c <= '9'
  }

  predicate GeneratedFrom(alias: string, name: string, id: string)
    requires |id| >= 8
  {
    var prefix := name + "~" + id[..8];
    alias == prefix || (prefix + "-" <= alias && AllDigits(alias[|prefix| + 1..]))
  }

  predicate Generated(alias: string, e: Entry)
    requires |e.id| >= 8
  {
    exists name | name in e.aliases :: GeneratedFrom(alias, name, e.id)
  }

  method GeneratedCloudAlias(alias: string, e: Entry) returns (b: bool)
    requires |e.id| >= 8
    ensures b == Generated(alias, e)
  {
    for i := 0 to |e.aliases|
      invariant forall k | 0 <= k < i :: !GeneratedFrom(alias, e.aliases[k], e.id)
    {
      var prefix := e.aliases[i] + "~" + e.id[..8];
      if alias == prefix {
        assert GeneratedFrom(alias, e.aliases[i], e.id);
        return true;
      }
      if prefix + "-" <= alias {
        var suffix := alias[|prefix| + 1..];
        if AllDigits(suffix) {
          assert GeneratedFrom(alias, e.aliases[i], e.id);
          return true;
        }
      }
    }
    b := false;
  }

  /** The names that publication makes up for an entry: one of its aliases with the beginning of its id, and perhaps
      a number. */
  lemma GeneratedIff(alias: string, e: Entry)
    requires |e.id| >= 8
    ensures Generated(alias, e) <==>
              exists name, suffix :: name in e.aliases && alias == name + "~" + e.id[..8] + suffix && Numbering(suffix)
  {
    if name, suffix :| name in e.aliases && alias == name + "~" + e.id[..8] + suffix && Numbering(suffix) {
      var prefix := name + "~" + e.id[..8];
      if suffix == "" {
        assert alias == prefix;
      } else {
        assert suffix == "-" + suffix[1..] && alias == prefix + "-" + suffix[1..];
        assert prefix + "-" <= alias && alias[|prefix| + 1..] == suffix[1..];
      }
      assert GeneratedFrom(alias, name, e.id);
    }
    if name :| name in e.aliases && GeneratedFrom(alias, name, e.id) {
      var prefix := name + "~" + e.id[..8];
      if alias == prefix {
        assert alias == name + "~" + e.id[..8] + "" && Numbering("");
      } else {
        var suffix := alias[|prefix|..];
        assert alias == prefix + suffix && suffix[0] == alias[|prefix|] == (prefix + "-")[|prefix|];
        assert suffix[1..] == alias[|prefix| + 1..];
        forall i | 1 <= i < |suffix| ensures '0' <= suffix[i] <= '9' {
          assert suffix[i] == alias[|prefix| + 1..][i - 1] && alias[|prefix| + 1..][i - 1] in alias[|prefix| + 1..];
        }
        assert alias == name + "~" + e.id[..8] + suffix && Numbering(suffix);
      }
    }
  }

  /** Nothing, or a dash and digits. */
  predicate Numbering(suffix: string) {
    suffix == "" || (|suffix| >= 2 && suffix[0] == '-' && forall i | 1 <= i < |suffix| :: '0' <= suffix[i] <= '9')
  }

  /** The same way to the same host, by whatever authentication. */
  lemma SameRouteIff(h: Digests, s: Server, t: Server)
    requires forall a, b :: h.route(a) == h.route(b) ==> a == b
    ensures SameRoute(h, s, t) <==>
              && s.host == t.host && s.port == t.port && s.user == t.user && s.proxyJump == t.proxyJump
              && s.proxyCommand == t.proxyCommand && s.proxy == t.proxy && s.forwards == t.forwards
  {}

  // --- restoring lost bindings ---

  predicate Candidate(h: Digests, d: Data, alias: string, s: Server, id: string)
    requires forall k | k in d.entries :: |d.entries[k].id| >= 8
  {
    id in d.entries && id !in d.deleted && SameRoute(h, s, d.entries[id].server)
    && (Generated(alias, d.entries[id]) || alias in d.entries[id].aliases)
  }

  function Candidates(h: Digests, d: Data, alias: string, s: Server): set<string>
    requires forall k | k in d.entries :: |d.entries[k].id| >= 8
  {
    set id | id in d.entries && Candidate(h, d, alias, s, id)
  }

  /** A cloud marker whose binding was lost. */
  predicate Unbound(s: Server) {
    s.auth == AuthCloud && s.cloudEntry == "" && s.cloudVault == ""
  }

  /** Exactly one candidate rebinds a lost marker; nothing else changes. */
  predicate RestoresRecord(h: Digests, d: Data, owner: string, alias: string, r: Option<Server>, o: Option<Server>)
    requires forall k | k in d.entries :: |d.entries[k].id| >= 8
  {
    if r.None? || !Unbound(r.value) || |Candidates(h, d, alias, r.value)| != 1 then o == r
    else
      && o.Some? && Candidates(h, d, alias, r.value) == {o.value.cloudEntry}
      && o.value == r.value.(cloudEntry := o.value.cloudEntry, cloudVault := owner)
  }

  ghost predicate Restores(h: Digests, d: Data, owner: string, m: Servers, n: Servers)
    requires forall k | k in d.entries :: |d.entries[k].id| >= 8
  {
    n.Keys == m.Keys && forall alias | alias in m :: RestoresRecord(h, d, owner, alias, m[alias], n[alias])
  }

  // --- what publication promises ---

  predicate Bound(s: Server, id: string, owner: string) {
    s.cloudEntry == id && s.cloudVault == owner
  }

  predicate NativeFor(h: Digests, s: Server, id: string) {
    s.cloudEntry == "" && EntryId(h, CleanServer(s)) == id
  }

  /** Entries that publication must make reachable. */
  predicate Live(d: Data, id: string) {
    id in d.entries && id !in d.conflicts && id !in d.deleted
  }

  /** A record that lists the entry: bound to it, no credential in it, leading where the entry says. */
  predicate Lists(s: Server, e: Entry, owner: string) {
    && Bound(s, e.id, owner) && s.auth == AuthCloud && s.keyPath == ""
    && s.host == e.server.host && s.port == e.server.port && s.user == e.server.user && s.meta == e.server.meta
  }

  predicate Reaches(h: Digests, d: Data, owner: string, s: Option<Server>, id: string)
    requires id in d.entries
  {
    s.Some? && (NativeFor(h, s.value, id) || Lists(s.value, d.entries[id], owner))
  }

  ghost predicate Covered(h: Digests, d: Data, owner: string, m: Servers, id: string) {
    id in d.entries && exists alias :: Reaches(h, d, owner, At(m, alias), id)
  }

  /** A record that stays: at most, a native one is marked as belonging to this vault. */
  predicate Stays(h: Digests, d: Data, owner: string, s: Server, t: Server) {
    t == s || (s.cloudEntry == "" && s.cloudVault == "" && EntryId(h, CleanServer(s)) in d.entries
               && t == s.(cloudVault := owner))
  }

  /** Why a record may be removed: it belongs to this vault, and the vault has a tombstone for it, or
      no longer lists it, or it is a generated duplicate. */
  predicate MayGo(h: Digests, d: Data, owner: string, alias: string, s: Server) {
    && s.cloudVault == owner
    && if s.cloudEntry == "" then EntryId(h, CleanServer(s)) in d.deleted
       else if s.cloudEntry !in d.entries || s.cloudEntry in d.deleted then
         s.cloudEntry !in d.conflicts || s.cloudEntry in d.deleted
       else |d.entries[s.cloudEntry].id| >= 8 && Generated(alias, d.entries[s.cloudEntry])
            && SameRoute(h, s, d.entries[s.cloudEntry].server)
  }

  /** No record lost the jump host it had. */
  ghost predicate JumpsStay(m: Servers, n: Servers) {
    forall u | u in n && n[u].Some? && At(m, TrimSpace(n[u].value.proxyJump)).Some? ::
      TrimSpace(n[u].value.proxyJump) in n
  }

  predicate StaysOrGoes(h: Digests, d: Data, owner: string, c: Anchors, m: Servers, n: Servers, alias: string)
    requires alias in m
  {
    if m[alias].None? then alias in n && n[alias].None?
    else if alias in n then n[alias].Some? && Stays(h, d, owner, m[alias].value, n[alias].value)
    else MayGo(h, d, owner, alias, m[alias].value) && !Pinned(c, alias, m[alias].value)
  }

  /** The removals: `m` is the configuration before, `n` after. */
  ghost predicate Swept(h: Digests, d: Data, owner: string, c: Anchors, m: Servers, n: Servers) {
    && n.Keys <= m.Keys && JumpsStay(m, n)
    && forall alias | alias in m :: StaysOrGoes(h, d, owner, c, m, n, alias)
  }

  /** The additions: records stay, except that a record bound to this vault may be refreshed, never
      to list another entry. */
  ghost predicate Extended(owner: string, m: Servers, n: Servers) {
    forall alias | At(m, alias).Some? ::
      At(n, alias).Some? && (n[alias] == m[alias]
                             || (m[alias].value.cloudEntry != ""
                                 && Bound(m[alias].value, n[alias].value.cloudEntry, n[alias].value.cloudVault)
                                 && m[alias].value.cloudVault == owner))
  }

  /** A record bound to this vault whose entry is deleted, or is neither listed nor in conflict; or a native one
      with this vault's mark and a tombstone. */
  predicate Stale(h: Digests, d: Data, owner: string, s: Server) {
    s.cloudVault == owner &&
    if s.cloudEntry == "" then EntryId(h, CleanServer(s)) in d.deleted
    else s.cloudEntry in d.deleted || (s.cloudEntry !in d.entries && s.cloudEntry !in d.conflicts)
  }

  /** The records under these names are bound to one live entry. */
  predicate Twins(d: Data, owner: string, m: Servers, a: string, b: string) {
    && At(m, a).Some? && At(m, b).Some? && At(m, a).value.cloudVault == owner && At(m, b).value.cloudVault == owner
    && At(m, a).value.cloudEntry != "" && At(m, a).value.cloudEntry == At(m, b).value.cloudEntry
    && Live(d, At(m, a).value.cloudEntry)
  }

  /** A generated name of an entry that is listed under a lesser name as well. */
  ghost predicate Duplicate(h: Digests, d: Data, owner: string, m: Servers, alias: string) {
    && !Twins(d, owner, m, alias, "") && (exists b :: b != "" && Less(b, alias) && Twins(d, owner, m, alias, b))
    && (var e := d.entries[m[alias].value.cloudEntry];
        |e.id| >= 8 && Generated(alias, e) && SameRoute(h, m[alias].value, e.server))
  }

  /** What publication has to remove: a stale record, or a duplicate, that nothing protects. */
  ghost predicate MustGo(h: Digests, d: Data, owner: string, c: Anchors, m: Servers, alias: string) {
    && At(m, alias).Some? && !Pinned(c, alias, m[alias].value) && !Jumped(m, alias)
    && (Stale(h, d, owner, m[alias].value) || Duplicate(h, d, owner, m, alias))
  }

  /** What had to go is gone. */
  ghost predicate Cleared(h: Digests, d: Data, owner: string, c: Anchors, m: Servers, n: Servers) {
    forall alias | MustGo(h, d, owner, c, m, alias) :: alias !in n
  }

  /** Native records of listed connections are marked, with this vault or another. */
  ghost predicate Marked(h: Digests, d: Data, owner: string, m: Servers) {
    forall a | At(m, a).Some? && m[a].value.cloudEntry == "" && EntryId(h, CleanServer(m[a].value)) in d.entries ::
      m[a].value.cloudVault != "" || owner == ""
  }

  function ActivityOf(d: Data, id: string): Activity {
    if id in d.activity then d.activity[id] else NoActivity
  }

  /** The record was this device's listing of the entry, for the same host, port and user. */
  predicate OwnListing(e: Entry, owner: string, was: Option<Server>) {
    && was.Some? && was.value.cloudEntry == e.id && was.value.cloudVault == owner
    && was.value.host == e.server.host && was.value.user == e.server.user
    && (was.value.port == e.server.port || (was.value.port == 0 && e.server.port == 22))
  }

  /** The route is the entry's, or the one that this device chose before. */
  predicate RoutedAs(s: Server, e: Entry, owner: string, was: Option<Server>) {
    var from := if OwnListing(e, owner, was) then was.value else e.server;
    && s.proxy == from.proxy && s.proxyJump == from.proxyJump && s.proxyCommand == from.proxyCommand
    && s.forwards == from.forwards
  }

  /** The observations are the vault's; a date that the vault does not know stays as the entry has it, and a
      later use on this device is kept. */
  predicate Shows(s: Server, e: Entry, a: Activity, was: Option<Server>) {
    && s.seen.lastStatus == a.status && s.seen.lastSSHError == a.sshError && s.seen.platform == a.platform
    && s.seen.hardware == a.hardware && s.seen.sshmStatus == a.sshmStatus && s.seen.sshmVersion == a.sshmVersion
    && s.seen.lastSeen == (if a.lastSeen > 0 then a.lastSeen else e.server.seen.lastSeen)
    && s.seen.lastChecked == (if a.checkedAt > 0 then a.checkedAt else e.server.seen.lastChecked)
    && s.seen.lastSSHChecked == (if a.sshCheckedAt > 0 then a.sshCheckedAt else e.server.seen.lastSSHChecked)
    && s.seen.sshmCheckedAt == (if a.sshmCheckedAt > 0 then a.sshmCheckedAt else e.server.seen.sshmCheckedAt)
    && (var known := if a.lastConnected > 0 then a.lastConnected else e.server.seen.lastUsed;
        s.seen.lastUsed ==
        if was.Some? && was.value.cloudEntry == e.id then Max(known, was.value.seen.lastUsed) else known)
  }

  /** A new record has the least of the entry's aliases as its name, or a name made up from it. */
  ghost predicate NamedAfter(alias: string, e: Entry) {
    exists least, suffix ::
      && least in e.aliases && (forall b | b in e.aliases :: !Less(b, least)) && Numbering(suffix)
      && |e.id| >= 8
      && (alias == TrimSpace(least) || alias == TrimSpace(least) + "~" + e.id[..8] + suffix)
  }

  /** No native record leads to the entry, and no record is bound to it, unless one under the empty name is. */
  ghost predicate Unlisted(h: Digests, owner: string, m: Servers, id: string) {
    && (forall b | At(m, b).Some? :: !NativeFor(h, m[b].value, id))
    && ((exists b :: At(m, b).Some? && Bound(m[b].value, id, owner)) ==>
          At(m, "").Some? && Bound(m[""].value, id, owner))
  }

  /** A record as publication makes it: a new one only for an entry that was not listed. */
  ghost predicate ListedAs(h: Digests, d: Data, owner: string, m: Servers, n: Servers, alias: string, id: string) {
    && Live(d, id) && At(n, alias).Some? && (At(m, alias).None? ==>
                                               NamedAfter(alias, d.entries[id]) && Unlisted(h, owner, m, id))
    && Lists(n[alias].value, d.entries[id], owner) && RoutedAs(n[alias].value, d.entries[id], owner, At(m, alias))
    && Shows(n[alias].value, d.entries[id], ActivityOf(d, id), At(m, alias))
  }

  /** Every record that is new or changed lists one of these entries. */
  ghost predicate Added(h: Digests, d: Data, owner: string, m: Servers, n: Servers, ids: set<string>) {
    forall alias | At(n, alias) != At(m, alias) :: exists id :: id in ids && ListedAs(h, d, owner, m, n, alias, id)
  }

  /** A whole publication, step by step. */
  ghost predicate Published(h: Digests, d: Data, owner: string, c: Config, restored: Servers, swept: Servers,
                            n: Servers)
    requires forall k | k in d.entries :: |d.entries[k].id| >= 8
  {
    && Restores(h, d, owner, c.servers, restored) && Swept(h, d, owner, c.anchors, restored, swept)
    && Cleared(h, d, owner, c.anchors, restored, swept) && Marked(h, d, owner, swept)
    && Extended(owner, swept, n) && Added(h, d, owner, swept, n, d.entries.Keys)
    && forall id | Live(d, id) :: Covered(h, d, owner, n, id)
  }

  /** Records of other vaults are not touched. */
  lemma ForeignRecordsUntouched(h: Digests, d: Data, owner: string, c: Config, restored: Servers, swept: Servers,
                                n: Servers, alias: string)
    requires (forall k | k in d.entries :: |d.entries[k].id| >= 8) && Published(h, d, owner, c, restored, swept, n)
    requires At(c.servers, alias).Some? && At(c.servers, alias).value.cloudVault !in {"", owner}
    ensures At(n, alias) == At(c.servers, alias)
  {
    assert RestoresRecord(h, d, owner, alias, c.servers[alias], restored[alias]);
    assert StaysOrGoes(h, d, owner, c.anchors, restored, swept, alias);
    assert At(swept, alias) == c.servers[alias];
  }

  /** A native record changes at most in the vault it is marked with, unless it was already marked
      with this one, the vault holds a tombstone for it, and nothing protects it: no mark, no default,
      no project, and no record left that jumps through it. */
  lemma NativeRecordsKept(h: Digests, d: Data, owner: string, c: Config, restored: Servers, swept: Servers, n: Servers,
                          alias: string)
    requires (forall k | k in d.entries :: |d.entries[k].id| >= 8) && Published(h, d, owner, c, restored, swept, n)
    requires At(c.servers, alias).Some? && At(c.servers, alias).value.cloudEntry == ""
    requires !Rebinds(h, d, alias, At(c.servers, alias).value)
    ensures var s := At(c.servers, alias).value;
            || At(n, alias) == Some(s)
            || (At(n, alias) == Some(s.(cloudVault := owner)) && s.cloudVault == "")
            || (&& s.cloudVault == owner && EntryId(h, CleanServer(s)) in d.deleted
                && !Pinned(c.anchors, alias, s) && !Jumped(swept, alias))
  {
    assert RestoresRecord(h, d, owner, alias, c.servers[alias], restored[alias]);
    assert StaysOrGoes(h, d, owner, c.anchors, restored, swept, alias);
    if alias in swept { assert At(swept, alias).Some?; }
  }

  /** A cloud marker that lost its binding, and for which the vault has exactly one candidate. */
  predicate Rebinds(h: Digests, d: Data, alias: string, s: Server)
    requires forall k | k in d.entries :: |d.entries[k].id| >= 8
  {
    Unbound(s) && |Candidates(h, d, alias, s)| == 1
  }

  /** Such a marker ends bound to its candidate, unless it is an unprotected duplicate or a leftover
      and goes. */
  lemma LostMarkersAreRebound(h: Digests, d: Data, owner: string, c: Config, restored: Servers, swept: Servers,
                              n: Servers, alias: string)
    requires (forall k | k in d.entries :: |d.entries[k].id| >= 8) && Published(h, d, owner, c, restored, swept, n)
    requires At(c.servers, alias).Some? && Rebinds(h, d, alias, At(c.servers, alias).value)
    ensures exists id | id in d.entries ::
              && Candidates(h, d, alias, At(c.servers, alias).value) == {id} && id !in d.deleted
              && SameRoute(h, At(c.servers, alias).value, d.entries[id].server)
              && (alias in d.entries[id].aliases || Generated(alias, d.entries[id]))
              && (var s := At(c.servers, alias).value.(cloudEntry := id, cloudVault := owner);
                  || (At(n, alias).Some? && (id != "" ==> Bound(n[alias].value, id, owner)))
                  || (MayGo(h, d, owner, alias, s) && !Pinned(c.anchors, alias, s) && !Jumped(swept, alias)))
  {
    assert RestoresRecord(h, d, owner, alias, c.servers[alias], restored[alias]);
    assert StaysOrGoes(h, d, owner, c.anchors, restored, swept, alias);
    var id := restored[alias].value.cloudEntry;
    assert id in Candidates(h, d, alias, c.servers[alias].value);
    if alias in swept { assert At(swept, alias).Some?; }
  }

  /** What had to go is gone, or its name lists a live entry. */
  lemma StaleRecordsGo(h: Digests, d: Data, owner: string, c: Config, restored: Servers, swept: Servers, n: Servers,
                       alias: string)
    requires (forall k | k in d.entries :: |d.entries[k].id| >= 8) && Published(h, d, owner, c, restored, swept, n)
    requires MustGo(h, d, owner, c.anchors, restored, alias)
    ensures At(n, alias).None? || exists id :: Live(d, id) && Lists(n[alias].value, d.entries[id], owner)
  {
    hide MustGo, Lists, RoutedAs, Shows;
    assert At(swept, alias) == None;
  }

  /** So no record leads to a deleted entry, unless it is pinned or was a jump host. */
  lemma NothingStaleIsListed(h: Digests, d: Data, owner: string, c: Config, restored: Servers, swept: Servers,
                             n: Servers, alias: string)
    requires (forall k | k in d.entries :: |d.entries[k].id| >= 8) && Published(h, d, owner, c, restored, swept, n)
    requires forall k | k in d.entries :: d.entries[k].id == k
    requires At(n, alias).Some? && At(n, alias).value.cloudVault == owner && At(n, alias).value.cloudEntry in d.deleted
    requires At(n, alias).value.cloudEntry != ""
    ensures At(restored, alias).Some? && (Pinned(c.anchors, alias, restored[alias].value) || Jumped(restored, alias))
  {
    hide RoutedAs, Shows, Covered, Restores, JumpsStay, Duplicate;
    forall id | id in d.entries ensures !ListedAs(h, d, owner, swept, n, alias, id) {}
    assert StaysOrGoes(h, d, owner, c.anchors, restored, swept, alias);
    assert Stale(h, d, owner, restored[alias].value);
  }

  /** The default server and the servers of projects resolve after as before. */
  lemma ReferencesResolve(h: Digests, d: Data, owner: string, c: Config, restored: Servers, swept: Servers, n: Servers,
                          alias: string)
    requires (forall k | k in d.entries :: |d.entries[k].id| >= 8) && Published(h, d, owner, c, restored, swept, n)
    requires At(c.servers, alias).Some?
    requires c.anchors.chosen == alias || exists p | p in c.anchors.projects :: c.anchors.projects[p] == Some(alias)
    ensures At(n, alias).Some?
  {
    assert RestoresRecord(h, d, owner, alias, c.servers[alias], restored[alias]);
    assert StaysOrGoes(h, d, owner, c.anchors, restored, swept, alias);
    assert Pinned(c.anchors, alias, restored[alias].value);
    assert At(swept, alias).Some?;
  }

  // --- the index of bindings beside the configuration ---

  /** What a binding is tied to: a record that leads elsewhere has another mark. */
  datatype Line = Line(host: string, user: string, auth: string, key: string, jump: string, command: string,
                       proxy: string, port: int, forwards: seq<string>)

  function LineOf(s: Server): Line {
    Line(s.host, s.user, s.auth, s.keyPath, s.proxyJump, s.proxyCommand, s.proxy, s.port, s.forwards)
  }

  datatype Binding = Binding(mark: string, entry: string, vault: string)

  /** `SaveCloudBindings`: what the index says about the records. `mark` is a digest. */
  function Bindings(mark: Line -> string, m: Servers): map<string, Binding> {
    map alias | alias in m && m[alias].Some? && m[alias].value.cloudVault != "" ::
      Binding(mark(LineOf(m[alias].value)), m[alias].value.cloudEntry, m[alias].value.cloudVault)
  }

  /** One record as `applyCloudBindings` leaves it: a binding in the record itself has precedence. */
  function ReboundRecord(mark: Line -> string, index: map<string, Binding>, alias: string,
                         r: Option<Server>): Option<Server> {
    if r.None? || alias !in index || r.value.cloudVault != "" || r.value.cloudEntry != "" || index[alias].vault == ""
       || mark(LineOf(r.value)) != index[alias].mark then r
    else Some(r.value.(cloudEntry := index[alias].entry, cloudVault := index[alias].vault))
  }

  function Rebound(mark: Line -> string, index: map<string, Binding>, m: Servers): Servers {
    map alias | alias in m :: ReboundRecord(mark, index, alias, m[alias])
  }

  /** The records as a program leaves them that does not know the cloud fields. */
  function Stripped(m: Servers): Servers {
    map alias | alias in m :: if m[alias].None? then None else Some(m[alias].value.(cloudEntry := "", cloudVault := ""))
  }

  /** What the index is for: it gives back all bindings that were stripped from the configuration,
      exactly if every binding names its vault; as published ones do. */
  lemma IndexRestoresIff(mark: Line -> string, m: Servers)
    ensures Rebound(mark, Bindings(mark, m), Stripped(m)) == m
            <==> forall alias | alias in m && m[alias].Some? && m[alias].value.cloudVault == "" ::
                   m[alias].value.cloudEntry == ""
  {
    var n := Rebound(mark, Bindings(mark, m), Stripped(m));
    forall alias | alias in m
      ensures n[alias] == m[alias] <==>
                (m[alias].Some? && m[alias].value.cloudVault == "" ==> m[alias].value.cloudEntry == "")
    {
      IndexRestores(mark, m, alias);
    }
    assert n.Keys == m.Keys;
  }

  lemma IndexRestores(mark: Line -> string, m: Servers, alias: string)
    requires alias in m
    ensures Rebound(mark, Bindings(mark, m), Stripped(m))[alias] == m[alias]
            <==> (m[alias].Some? && m[alias].value.cloudVault == "" ==> m[alias].value.cloudEntry == "")
  {
    if m[alias].Some? {
      var s := m[alias].value;
      assert LineOf(s.(cloudEntry := "", cloudVault := "")) == LineOf(s);
      assert s.(cloudEntry := "", cloudVault := "").(cloudEntry := s.cloudEntry, cloudVault := s.cloudVault) == s;
    }
  }

  /** The index moves no binding to a record that leads elsewhere, and replaces none. */
  lemma IndexKeepsLines(mark: Line -> string, m: Servers, n: Servers, alias: string)
    requires forall a, b :: mark(a) == mark(b) ==> a == b
    requires alias in n && Rebound(mark, Bindings(mark, m), n)[alias] != n[alias]
    ensures && At(m, alias).Some? && At(n, alias).Some?
            && (var s, t := m[alias].value, n[alias].value;
                && s.host == t.host && s.user == t.user && s.auth == t.auth && s.keyPath == t.keyPath
                && s.port == t.port
                && s.proxyJump == t.proxyJump && s.proxyCommand == t.proxyCommand && s.proxy == t.proxy
                && s.forwards == t.forwards)
            && n[alias].value.cloudEntry == "" && n[alias].value.cloudVault == ""
            && Rebound(mark, Bindings(mark, m), n)[alias]
               == Some(n[alias].value.(cloudEntry := m[alias].value.cloudEntry,
                                       cloudVault := m[alias].value.cloudVault))
  {}

  // --- names for new records ---

  function Names(base: string, n: nat): set<string> {
    set k: nat | 2 <= k < n :: base + "-" + Numeral(k)
  }

  lemma NumberedDistinct(base: string, m: nat, n: nat)
    requires base + "-" + Numeral(m) == base + "-" + Numeral(n)
    ensures m == n
  {
    var s := base + "-" + Numeral(m);
    assert s[|base| + 1..] == Numeral(m) == Numeral(n);
    NumeralInjective(m, n);
  }

  lemma {:induction false} NamesCount(base: string, n: nat)
    requires n >= 2
    ensures |Names(base, n)| == n - 2
  {
    if n > 2 {
      NamesCount(base, n - 1);
      var last := base + "-" + Numeral(n - 1);
      assert Names(base, n) == Names(base, n - 1) + {last};
      if last in Names(base, n - 1) {
        var k: nat :| 2 <= k < n - 1 && base + "-" + Numeral(k) == last;
        NumberedDistinct(base, k, n - 1);
      }
    }
  }

}
