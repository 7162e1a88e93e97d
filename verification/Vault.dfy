/** The encrypted vault's plaintext: connection entries, credentials, tombstones and conflicts
    (internal/cloudsync/data.go). */
module Vault {
  import opened Text
  import opened Observations

  datatype Metadata = Metadata(
    display: string, description: string, tags: seq<string>, group: string, notes: string,
    initState: string, cleanupProtected: bool)

  /** Per-device observations carried by a local record; none of them enters the vault entry. */
  datatype Observed = Observed(
    hardware: Option<Sample>, platform: string, lastUsed: int, lastSeen: int,
    lastChecked: int, lastStatus: string, lastSSHChecked: int, lastSSHError: string,
    sshmStatus: string, sshmVersion: string, sshmCheckedAt: int, createdAt: int, identityChangedAt: int)

  const Unobserved := Observed(None, "", 0, 0, 0, "", 0, "", "", "", 0, 0, 0)

  datatype Server = Server(
    cloudEntry: string, cloudVault: string,
    host: string, port: int, user: string, auth: string, keyPath: string,
    proxyJump: string, proxyCommand: string, proxy: string, forwards: seq<string>,
    meta: Metadata, seen: Observed)

  const AuthCloud := "cloud"
  const AuthKey := "key"
  const AuthPassword := "password"
  const AuthAgent := "agent"

  /** What identifies a connection. */
  datatype Route = Route(
    host: string, port: int, user: string, auth: string,
    jump: string, command: string, proxy: string, forwards: seq<string>)

  datatype Credential = Credential(kind: string, key: Bytes, passphrase: Bytes, password: string, fingerprint: string)

  datatype Source = Source(device: string, alias: string, server: Server)

  datatype Entry = Entry(
    id: string, aliases: seq<string>, server: Server, credentialIds: seq<string>, sources: map<string, Source>)

  datatype Conflict = Conflict(local: Option<Entry>, remote: Option<Entry>)

  datatype Data = Data(
    version: int,
    hardware: map<string, Option<Sample>>,
    activity: map<string, Activity>,
    entries: map<string, Entry>,
    credentials: map<string, Credential>,
    deleted: set<string>,
    conflicts: map<string, Conflict>)

  const EmptyData := Data(1, map[], map[], map[], map[], {}, map[])

  /** `Digest` at the types it is applied to. It stays uninterpreted: a statement that needs
      collision freedom says so with `Injective`. */
  datatype Digests = Digests(
    route: Route -> string, credential: Credential -> string,
    pair: (string, string) -> string, source: Source -> string)

  ghost predicate Injective(h: Digests) {
    && (forall a, b :: h.credential(a) == h.credential(b) ==> a == b)
    && (forall a, b, c, d :: h.pair(a, b) == h.pair(c, d) ==> a == c && b == d)
    && (forall a, b :: h.source(a) == h.source(b) ==> a == b)
  }

  function CleanServer(s: Server): Server {
    s.(cloudEntry := "", cloudVault := "", keyPath := "", seen := Unobserved,
       port := if s.port == 0 then 22 else s.port,
       host := ToLower(TrimSpace(s.host)))
  }

  function EntryId(h: Digests, s: Server): string {
    h.route(Route(s.host, s.port, s.user, s.auth, s.proxyJump, s.proxyCommand, s.proxy, s.forwards))
  }

  // --- validation ---

  predicate ValidSample(h: Option<Sample>, now: int) {
    h.Some? ==>
      && 0 <= h.value.attemptedAt <= now + 86400000
      && 0 <= h.value.checkedAt <= now + 86400000
      && h.value.status in {"ok", "partial", "unavailable"}
  }

  predicate ValidPlatform(p: string) {
    ToLower(TrimSpace(p)) in {"", "unknown", "auto", "windows", "win", "linux", "macos", "darwin", "mac"}
  }

  predicate ValidActivity(id: string, a: Activity, now: int) {
    && ValidSample(a.hardware, now) && ValidId(id)
    && a.lastConnected >= 0 && a.lastSeen >= 0 && a.checkedAt >= 0 && a.sshCheckedAt >= 0 && a.sshmCheckedAt >= 0
    && |a.sshError| <= 64 && |a.status| <= 16 && |a.sshmStatus| <= 16 && |a.sshmVersion| <= 100
    && ValidPlatform(a.platform)
  }

  predicate ValidMetadata(m: Metadata) {
    && !ContainsAny(m.description, {'\0', '\r', '\n'}) && |m.description| <= 500
    && !ContainsAny(m.display, {'\0', '\r', '\n'}) && |m.display| <= 100
    && !ContainsAny(m.group, {'\0', '\r', '\n'}) && |m.group| <= 100
    && !ContainsAny(m.notes, {'\0'}) && |m.notes| <= 4000
    && |m.tags| <= 32
    && forall t | t in m.tags :: TrimSpace(t) != "" && !ContainsAny(t, {'\0', '\r', '\n'}) && |t| <= 64
  }

  predicate ValidEntry(id: string, e: Entry, credentials: map<string, Credential>) {
    && ValidId(id) && id == e.id
    && 0 < |e.aliases| <= 200 && |e.credentialIds| <= 200 && |e.sources| <= 200
    && !ContainsAny(e.server.host + e.server.user, {'\0', '\r', '\n'})
    && e.server.host != "" && 1 <= e.server.port <= 65535 && e.server.keyPath == ""
    && TrimSpace(e.server.user) != "" && e.server.auth in {AuthKey, AuthAgent, AuthPassword}
    && ValidMetadata(e.server.meta)
    && (forall a | a in e.aliases :: TrimSpace(a) != "" && |a| <= 256 && !ContainsAny(a, {'\0', '\r', '\n', '\U{1b}'}))
    && (forall c | c in e.credentialIds :: c in credentials)
  }

  predicate ValidCredential(id: string, c: Credential) {
    && ValidId(id) && c.kind in {"key", "password"}
    && |c.key| <= 1048576 && |c.password| <= 65536 && |c.passphrase| <= 65536
  }

  /** `Validate`. Lengths are counted in characters. */
  predicate Valid(d: Data, now: int) {
    && d.version == 1 && |d.entries| <= 2000 && |d.credentials| <= 4000 && |d.activity| <= 2000 && |d.hardware| <= 256
    && (forall id | id in d.hardware :: ValidId(id) && ValidSample(d.hardware[id], now))
    && (forall id | id in d.activity :: ValidActivity(id, d.activity[id], now))
    && (forall id | id in d.entries :: ValidEntry(id, d.entries[id], d.credentials))
    && (forall id | id in d.credentials :: ValidCredential(id, d.credentials[id]))
  }

  /** A vault accepted once is accepted at every later time. */
  lemma ValidLater(d: Data, t: int, u: int)
    requires Valid(d, t) && t <= u
    ensures Valid(d, u)
  {
    hide ValidEntry, ValidCredential, ValidPlatform, ValidId;
    forall id | id in d.activity ensures ValidActivity(id, d.activity[id], u) {
      assert ValidActivity(id, d.activity[id], t);
    }
    forall id | id in d.hardware ensures ValidId(id) && ValidSample(d.hardware[id], u) {
      assert ValidSample(d.hardware[id], t);
    }
  }

  // --- one identifier's view of a vault ---

  /** Everything a vault says about one entry id. Merging works id by id. */
  datatype Slot = Slot(entry: Option<Entry>, deleted: bool, conflict: Option<Conflict>)

  function Get<V>(m: map<string, V>, id: string): Option<V> {
    if id in m then Some(m[id]) else None
  }

  function SlotAt(d: Data, id: string): Slot {
    Slot(Get(d.entries, id), id in d.deleted, Get(d.conflicts, id))
  }

  lemma SameMap<V>(m: map<string, V>, n: map<string, V>)
    requires forall id :: Get(m, id) == Get(n, id)
    ensures m == n
  {
    forall id ensures id in m <==> id in n {
      assert Get(m, id) == Get(n, id);
    }
    forall id | id in m ensures m[id] == n[id] {
      assert Get(m, id) == Get(n, id);
    }
  }

  /** The slots of a vault determine its entries, tombstones and conflicts. */
  lemma SlotsDetermine(d: Data, e: Data)
    requires forall id :: SlotAt(d, id) == SlotAt(e, id)
    ensures d.entries == e.entries && d.deleted == e.deleted && d.conflicts == e.conflicts
  {
    forall id ensures Get(d.entries, id) == Get(e.entries, id) && Get(d.conflicts, id) == Get(e.conflicts, id)
      && (id in d.deleted <==> id in e.deleted)
    {
      assert SlotAt(d, id) == SlotAt(e, id);
    }
    SameMap(d.entries, e.entries);
    SameMap(d.conflicts, e.conflicts);
  }
}
