/** Every operation on a vault's plaintext as a step, and what all of them keep
    (internal/cloudsync/data.go, device_entry.go, import_protected.go, activity.go). */
module VaultOps {
  import opened Text
  import opened Observations
  import opened Vault
  import opened Merge
  import MergeLaws

  // --- the operations ---

  function SetPassword(h: Digests, d: Data, id: string, password: string): Option<Data> {
    if id !in d.entries || d.entries[id].server.auth != AuthPassword then None
    else
      var c := Credential("password", [], [], password, "");
      var cid := h.credential(c);
      Some(d.(credentials := d.credentials[cid := c],
              entries := d.entries[id := d.entries[id].(credentialIds := [cid])]))
  }

  function Remove(d: Data, id: string): Data {
    d.(entries := d.entries - {id}, activity := d.activity - {id}, conflicts := d.conflicts - {id},
       deleted := d.deleted + {id})
  }

  datatype Side = Local | Remote

  function Resolve(d: Data, id: string, side: Side): Option<Data> {
    if id !in d.conflicts then None
    else
      var e := if side.Local? then d.conflicts[id].local else d.conflicts[id].remote;
      if e.None? then Some(Remove(d, id))
      else Some(d.(entries := d.entries[id := e.value], deleted := d.deleted - {id}, conflicts := d.conflicts - {id}))
  }

  datatype Device = Device(id: string, display: string, kind: string, platform: string, version: string,
                           lastSeen: int, group: string, tags: seq<string>)

  function HexDigit(n: int): char
    requires 0 <= n < 16
  {
    "0123456789abcdef"[n]
  }

  /** `hex.EncodeToString` of a device id, whose characters are ASCII. */
  function Hex(s: string): string {
    if s == "" then "" else [HexDigit(s[0] as int / 16 % 16), HexDigit(s[0] as int % 16)] + Hex(s[1..])
  }

  function DeviceName(device: Device, name: string): string {
    var n := TrimSpace(name);
    if n != "" then n else if device.display != "" then device.display else device.id
  }

  function DeviceServer(device: Device, name: string, description: string): Server {
    Server("", "", "sshm-device-" + Hex(device.id) + ".invalid", 22, "sshm-client", AuthAgent, "", "", "", "", [],
           Metadata(name, description, device.tags, device.group, "", "", false), Unobserved)
  }

  function NormalizedPlatform(p: string): string {
    var q := ToLower(TrimSpace(p));
    if q in {"windows", "win"} then "windows"
    else if q == "linux" then "linux"
    else if q in {"macos", "darwin", "mac"} then "macos"
    else ""
  }

  predicate DeviceRefused(h: Digests, d: Data, device: Device, n: string, s: Server) {
    || !ValidId(device.id) || device.kind == "browser" || |n| > 100 || ContainsAny(n, {'\0', '\r', '\n', '\U{1b}'})
    || !ValidMetadata(s.meta) || EntryId(h, s) in d.conflicts
  }

  function DeviceEntry(prior: Option<Entry>, id: string, n: string, description: string, s: Server): Entry {
    var e := if prior.Some? then prior.value else Entry(id, [], s, [], map[]);
    var meta := e.server.meta.(display := n,
                               description := if prior.None? || description != "" then description
                                              else e.server.meta.description);
    e.(aliases := [n], server := e.server.(meta := meta))
  }

  function DeviceActivity(a: Activity, device: Device): Activity {
    a.(platform := NormalizedPlatform(device.platform), lastSeen := Max(a.lastSeen, device.lastSeen),
       sshmStatus := "installed", sshmVersion := device.version, sshmCheckedAt := Max(a.sshmCheckedAt, device.lastSeen))
  }

  function Place(d: Data, id: string, e: Entry, a: Activity): Data {
    d.(entries := d.entries[id := e], deleted := d.deleted - {id}, activity := d.activity[id := a])
  }

  function AddDevice(h: Digests, d: Data, device: Device, name: string, description: string): Option<Data> {
    var n := DeviceName(device, name);
    var s := DeviceServer(device, n, description);
    var id := EntryId(h, s);
    if DeviceRefused(h, d, device, n, s) then None
    else
      var before := if id in d.activity then d.activity[id] else NoActivity;
      Some(Place(d, id, DeviceEntry(Get(d.entries, id), id, n, description, s), DeviceActivity(before, device)))
  }

  /** What reading a configured key file gives: nothing usable, or a credential. */
  datatype KeyRead = Unreadable | KeyRead(credential: Credential)

  /** One configured record, with what reading its key file would give. */
  datatype Local = Local(alias: string, server: Option<Server>, key: KeyRead)

  predicate Importable(h: Digests, d: Data, s: Option<Server>) {
    s.Some? && s.value.cloudEntry == "" && EntryId(h, CleanServer(s.value)) !in d.deleted
  }

  /** One iteration of `Import`. A failed key read still leaves the provenance just recorded. */
  ghost function ImportServer(h: Digests, d: Data, device: string, includeKeys: bool, l: Local): Data {
    if !Importable(h, d, l.server) then d
    else
      var s := CleanServer(l.server.value);
      var id := EntryId(h, s);
      var prior := if id in d.entries then d.entries[id] else Entry(id, [], s, [], map[]);
      var noted := prior.(sources := prior.sources[h.pair(device, l.alias) := Source(device, l.alias, s)]);
      var named := noted.(aliases := Union(prior.aliases, [l.alias]));
      if s.auth != AuthKey || !includeKeys then d.(entries := d.entries[id := named])
      else if l.key.Unreadable? then
        if id in d.entries then d.(entries := d.entries[id := noted]) else d
      else
        var cid := h.credential(l.key.credential);
        d.(credentials := d.credentials[cid := l.key.credential],
           entries := d.entries[id := named.(credentialIds := Union(prior.credentialIds, [cid]))])
  }

  /** `Import` stops at a record whose key file cannot be read. */
  predicate ImportFails(h: Digests, d: Data, includeKeys: bool, l: Local) {
    Importable(h, d, l.server) && l.server.value.auth == AuthKey && includeKeys && l.key.Unreadable?
  }

  function ActivityTime(t: int, now: int): int {
    if t <= 0 || t > now + 86400000 then 0 else t
  }

  function Report(s: Server, now: int): Activity {
    Activity(s.seen.hardware, s.seen.platform, ActivityTime(s.seen.lastChecked, now), s.seen.lastStatus,
             ActivityTime(s.seen.lastSSHChecked, now), s.seen.lastSSHError,
             ActivityTime(s.seen.sshmCheckedAt, now), s.seen.sshmVersion, s.seen.sshmStatus,
             ActivityTime(s.seen.lastUsed, now), ActivityTime(s.seen.lastSeen, now))
  }

  function ObservedId(h: Digests, s: Server): string {
    if s.cloudEntry != "" then s.cloudEntry else EntryId(h, CleanServer(s))
  }

  /** One iteration of `ImportActivity`. */
  function ObserveServer(h: Digests, d: Data, server: Option<Server>, now: int): Data {
    if server.None? || ObservedId(h, server.value) !in d.entries then d
    else
      var id := ObservedId(h, server.value);
      var before := if id in d.activity then d.activity[id] else NoActivity;
      var next := MergeActivity(before, Report(server.value, now));
      if before == next then d else d.(activity := d.activity[id := next])
  }

  predicate Mentioned(d: Data, cid: string) {
    || (exists id | id in d.entries :: cid in d.entries[id].credentialIds)
    || (exists id | id in d.conflicts ::
          || (d.conflicts[id].local.Some? && cid in d.conflicts[id].local.value.credentialIds)
          || (d.conflicts[id].remote.Some? && cid in d.conflicts[id].remote.value.credentialIds))
  }

  /** `pruneUnreferencedCredential`. */
  function Prune(d: Data, cid: string): Data {
    if Mentioned(d, cid) then d else d.(credentials := d.credentials - {cid})
  }

  function PruneAll(d: Data, cids: seq<string>): Data
    decreases |cids|
  {
    if cids == [] then d else PruneAll(Prune(d, cids[0]), cids[1..])
  }

  /** A locked copy of exactly these key bytes, which an unlocked import supersedes. `parses` says
      whether stored bytes parse as a private key. */
  predicate Obsolete(h: Digests, d: Data, parses: Bytes -> bool, c: Credential, oldId: string) {
    && oldId != h.credential(c) && c.kind == "key" && oldId in d.credentials
    && d.credentials[oldId].kind == "key" && d.credentials[oldId].passphrase == []
    && d.credentials[oldId].key == c.key && !parses(d.credentials[oldId].key)
  }

  function Kept(h: Digests, d: Data, parses: Bytes -> bool, c: Credential, ids: seq<string>): seq<string> {
    if ids == [] then []
    else (if Obsolete(h, d, parses, c, ids[0]) then [] else [ids[0]]) + Kept(h, d, parses, c, ids[1..])
  }

  function Dropped(h: Digests, d: Data, parses: Bytes -> bool, c: Credential, ids: seq<string>): seq<string> {
    if ids == [] then []
    else (if Obsolete(h, d, parses, c, ids[0]) then [ids[0]] else []) + Dropped(h, d, parses, c, ids[1..])
  }

  /** One credential of `ImportProtected`: attach it, detach its obsolete locked copies from this
      entry, and delete those nothing else refers to. */
  ghost function Protect(h: Digests, d: Data, parses: Bytes -> bool, id: string, c: Credential): Data {
    if id !in d.entries then d
    else
      var cid := h.credential(c);
      var ids := d.entries[id].credentialIds;
      var e := d.entries[id].(credentialIds := Union(Kept(h, d, parses, c, ids), [cid]));
      PruneAll(d.(credentials := d.credentials[cid := c], entries := d.entries[id := e]), Dropped(h, d, parses, c, ids))
  }

  ghost predicate Repairs(h: Digests, d: Data, out: Data) {
    && (forall id :: RepairsSlot(h, SlotAt(d, id), SlotAt(out, id)))
    && out == d.(entries := out.entries, conflicts := out.conflicts)
  }

  datatype Op =
    | OpSetPassword(id: string, password: string)
    | OpRemove(id: string)
    | OpResolve(id: string, side: Side)
    | OpAddDevice(device: Device, name: string, description: string)
    | OpImport(deviceId: string, includeKeys: bool, record: Local)
    | OpObserve(server: Option<Server>, now: int)
    | OpProtect(parses: Bytes -> bool, id: string, credential: Credential)
    | OpPrune(cid: string)
    | OpRepair
    | OpMerge(at: int, base: Data, remote: Data)

  function OrSame(r: Option<Data>, d: Data): Data {
    if r.Some? then r.value else d
  }

  /** `out` is a possible state after `op`; an operation that reports an error leaves the data. */
  ghost predicate Step(h: Digests, op: Op, d: Data, out: Data) {
    match op
    case OpSetPassword(id, password) => out == OrSame(SetPassword(h, d, id, password), d)
    case OpRemove(id) => out == Remove(d, id)
    case OpResolve(id, side) => out == OrSame(Resolve(d, id, side), d)
    case OpAddDevice(device, name, description) => out == OrSame(AddDevice(h, d, device, name, description), d)
    case OpImport(device, includeKeys, l) => out == ImportServer(h, d, device, includeKeys, l)
    case OpObserve(server, now) => out == ObserveServer(h, d, server, now)
    case OpProtect(parses, id, c) => out == Protect(h, d, parses, id, c)
    case OpPrune(cid) => out == Prune(d, cid)
    case OpRepair => Repairs(h, d, out)
    case OpMerge(now, base, remote) =>
      exists res :: Merges(h, now, base, d, remote, res) && out == if res.Ok? then res.data else d
  }

  // --- what every operation keeps ---

  ghost predicate EntryOk(id: string, e: Entry, credentials: map<string, Credential>) {
    e.id == id && SetOf(e.credentialIds) <= credentials.Keys
  }

  ghost predicate SlotOk(id: string, s: Slot, credentials: map<string, Credential>) {
    && !(s.deleted && s.entry.Some?)
    && (s.entry.Some? ==> EntryOk(id, s.entry.value, credentials))
    && (s.conflict.Some? && s.conflict.value.local.Some? ==> EntryOk(id, s.conflict.value.local.value, credentials))
    && (s.conflict.Some? && s.conflict.value.remote.Some? ==> EntryOk(id, s.conflict.value.remote.value, credentials))
  }

  /** Credentials are content-addressed. */
  ghost predicate Addressed(h: Digests, credentials: map<string, Credential>) {
    forall cid | cid in credentials :: h.credential(credentials[cid]) == cid
  }

  /** Entries and tombstones are disjoint, every entry (also inside a conflict) is stored under its
      own id and refers only to credentials that are present, activity is kept only for existing
      entries, and every credential is stored under its digest. */
  ghost predicate WellFormed(h: Digests, d: Data) {
    && (forall id :: SlotOk(id, SlotAt(d, id), d.credentials))
    && d.activity.Keys <= d.entries.Keys
    && Addressed(h, d.credentials)
  }

  lemma EmptyIsWellFormed(h: Digests)
    ensures WellFormed(h, EmptyData)
  {}

  lemma SlotOkGrows(id: string, s: Slot, small: map<string, Credential>, big: map<string, Credential>)
    requires SlotOk(id, s, small) && small.Keys <= big.Keys
    ensures SlotOk(id, s, big)
  {}

  /** Replacing one entry, with credentials only added, keeps a vault well formed. */
  lemma PutEntryKeeps(h: Digests, d: Data, id: string, e: Entry, credentials: map<string, Credential>, out: Data)
    requires WellFormed(h, d) && id !in d.deleted
    requires d.credentials.Keys <= credentials.Keys && Addressed(h, credentials) && EntryOk(id, e, credentials)
    requires out == d.(entries := d.entries[id := e], credentials := credentials)
    ensures WellFormed(h, out)
  {
    forall i ensures SlotOk(i, SlotAt(out, i), out.credentials) {
      assert SlotOk(i, SlotAt(d, i), d.credentials);
      SlotOkGrows(i, SlotAt(d, i), d.credentials, credentials);
    }
  }

  lemma RemoveKeeps(h: Digests, d: Data, id: string)
    requires WellFormed(h, d)
    ensures WellFormed(h, Remove(d, id))
  {
    var out := Remove(d, id);
    forall i ensures SlotOk(i, SlotAt(out, i), out.credentials) {
      assert SlotOk(i, SlotAt(d, i), d.credentials);
    }
  }

  lemma ResolveKeeps(h: Digests, d: Data, id: string, side: Side)
    requires WellFormed(h, d) && Resolve(d, id, side).Some?
    ensures WellFormed(h, Resolve(d, id, side).value)
  {
    RemoveKeeps(h, d, id);
    var out := Resolve(d, id, side).value;
    assert SlotOk(id, SlotAt(d, id), d.credentials);
    forall i ensures SlotOk(i, SlotAt(out, i), out.credentials) {
      assert SlotOk(i, SlotAt(d, i), d.credentials);
      if out == Remove(d, id) { assert SlotOk(i, SlotAt(Remove(d, id), i), d.credentials); }
    }
  }

  lemma SetPasswordKeeps(h: Digests, d: Data, id: string, password: string)
    requires WellFormed(h, d) && SetPassword(h, d, id, password).Some?
    ensures WellFormed(h, SetPassword(h, d, id, password).value)
  {
    var c := Credential("password", [], [], password, "");
    var cid := h.credential(c);
    assert SlotOk(id, SlotAt(d, id), d.credentials);
    PutEntryKeeps(h, d, id, d.entries[id].(credentialIds := [cid]), d.credentials[cid := c],
                  SetPassword(h, d, id, password).value);
  }

  lemma PlaceKeeps(h: Digests, d: Data, id: string, e: Entry, a: Activity)
    requires WellFormed(h, d) && EntryOk(id, e, d.credentials)
    ensures WellFormed(h, Place(d, id, e, a))
  {
    var out := Place(d, id, e, a);
    forall i ensures SlotOk(i, SlotAt(out, i), out.credentials) {
      assert SlotOk(i, SlotAt(d, i), d.credentials);
    }
  }

  lemma AddDeviceKeeps(h: Digests, d: Data, device: Device, name: string, description: string)
    requires WellFormed(h, d) && AddDevice(h, d, device, name, description).Some?
    ensures WellFormed(h, AddDevice(h, d, device, name, description).value)
  {
    var n := DeviceName(device, name);
    var s := DeviceServer(device, n, description);
    var id := EntryId(h, s);
    assert SlotOk(id, SlotAt(d, id), d.credentials);
    var e := DeviceEntry(Get(d.entries, id), id, n, description, s);
    assert EntryOk(id, e, d.credentials);
    PlaceKeeps(h, d, id, e, DeviceActivity(if id in d.activity then d.activity[id] else NoActivity, device));
  }

  lemma ImportKeeps(h: Digests, d: Data, device: string, includeKeys: bool, l: Local)
    requires WellFormed(h, d)
    ensures WellFormed(h, ImportServer(h, d, device, includeKeys, l))
  {
    if Importable(h, d, l.server) {
      var s := CleanServer(l.server.value);
      var id := EntryId(h, s);
      assert SlotOk(id, SlotAt(d, id), d.credentials);
      var out := ImportServer(h, d, device, includeKeys, l);
      if id in out.entries {
        var e := out.entries[id];
        if s.auth == AuthKey && includeKeys && l.key.KeyRead? {
          assert EntryOk(id, e, out.credentials);
        } else {
          assert EntryOk(id, e, d.credentials);
        }
        PutEntryKeeps(h, d, id, e, out.credentials, out);
      }
    }
  }

  lemma ObserveKeeps(h: Digests, d: Data, server: Option<Server>, now: int)
    requires WellFormed(h, d)
    ensures WellFormed(h, ObserveServer(h, d, server, now))
  {
    var out := ObserveServer(h, d, server, now);
    forall i ensures SlotOk(i, SlotAt(out, i), out.credentials) {
      assert SlotOk(i, SlotAt(d, i), d.credentials);
    }
  }

  lemma PruneKeeps(h: Digests, d: Data, cid: string)
    requires WellFormed(h, d)
    ensures WellFormed(h, Prune(d, cid))
  {
    if !Mentioned(d, cid) {
      var out := Prune(d, cid);
      forall i ensures SlotOk(i, SlotAt(out, i), out.credentials) {
        assert SlotOk(i, SlotAt(d, i), d.credentials);
        assert forall e | e in MergeLaws.Mentions(SlotAt(d, i)) :: cid !in e.credentialIds;
      }
    }
  }

  lemma {:induction false} PruneAllKeeps(h: Digests, d: Data, cids: seq<string>)
    requires WellFormed(h, d)
    ensures WellFormed(h, PruneAll(d, cids))
    decreases |cids|
  {
    if cids != [] {
      PruneKeeps(h, d, cids[0]);
      PruneAllKeeps(h, Prune(d, cids[0]), cids[1..]);
    }
  }

  lemma {:induction false} KeptIsPart(h: Digests, d: Data, parses: Bytes -> bool, c: Credential, ids: seq<string>)
    ensures SetOf(Kept(h, d, parses, c, ids)) <= SetOf(ids)
  {
    if ids != [] {
      KeptIsPart(h, d, parses, c, ids[1..]);
      assert SetOf(ids) == {ids[0]} + SetOf(ids[1..]) by { assert ids == [ids[0]] + ids[1..]; }
    }
  }

  lemma ProtectKeeps(h: Digests, d: Data, parses: Bytes -> bool, id: string, c: Credential)
    requires WellFormed(h, d)
    ensures WellFormed(h, Protect(h, d, parses, id, c))
  {
    if id in d.entries {
      var cid := h.credential(c);
      var ids := d.entries[id].credentialIds;
      KeptIsPart(h, d, parses, c, ids);
      var e := d.entries[id].(credentialIds := Union(Kept(h, d, parses, c, ids), [cid]));
      var attached := d.(credentials := d.credentials[cid := c], entries := d.entries[id := e]);
      assert SlotOk(id, SlotAt(d, id), d.credentials);
      PutEntryKeeps(h, d, id, e, attached.credentials, attached);
      PruneAllKeeps(h, attached, Dropped(h, d, parses, c, ids));
    }
  }

  /** Some entry, or some side of a conflict, refers to the credential. */
  ghost predicate Referred(d: Data, cid: string) {
    exists id, e :: e in MergeLaws.Mentions(SlotAt(d, id)) && cid in e.credentialIds
  }

  lemma MentionedIff(d: Data, cid: string)
    ensures Mentioned(d, cid) <==> Referred(d, cid)
  {
    if id :| id in d.entries && cid in d.entries[id].credentialIds {
      assert d.entries[id] in MergeLaws.Mentions(SlotAt(d, id));
    }
    if id :| id in d.conflicts && d.conflicts[id].local.Some? && cid in d.conflicts[id].local.value.credentialIds {
      assert d.conflicts[id].local.value in MergeLaws.Mentions(SlotAt(d, id));
    }
    if id :| id in d.conflicts && d.conflicts[id].remote.Some? && cid in d.conflicts[id].remote.value.credentialIds {
      assert d.conflicts[id].remote.value in MergeLaws.Mentions(SlotAt(d, id));
    }
    if id, e :| e in MergeLaws.Mentions(SlotAt(d, id)) && cid in e.credentialIds {
      assert id in d.entries || id in d.conflicts;
    }
  }

  /** Pruning takes away the credential exactly if nothing refers to it, and no other. */
  lemma PruneIff(d: Data, cid: string)
    ensures Prune(d, cid) == d.(credentials := Prune(d, cid).credentials)
    ensures forall x :: Get(Prune(d, cid).credentials, x) ==
                        if x == cid && !Referred(d, cid) then None else Get(d.credentials, x)
  {
    MentionedIff(d, cid);
  }

  lemma {:induction false} PruneAllIff(d: Data, cids: seq<string>)
    ensures PruneAll(d, cids) == d.(credentials := PruneAll(d, cids).credentials)
    ensures forall x :: Get(PruneAll(d, cids).credentials, x) ==
                        if x in cids && !Referred(d, x) then None else Get(d.credentials, x)
    decreases |cids|
  {
    if cids != [] {
      var n := Prune(d, cids[0]);
      PruneIff(d, cids[0]);
      PruneAllIff(n, cids[1..]);
      forall x ensures Referred(n, x) <==> Referred(d, x) {
        assert forall id :: SlotAt(n, id) == SlotAt(d, id);
      }
      assert cids == [cids[0]] + cids[1..];
    }
  }

  /** A stored key without passphrase that holds exactly the bytes of `c`, which do not parse: the copy that was
      locked when it was stored. */
  predicate LockedCopy(h: Digests, d: Data, parses: Bytes -> bool, c: Credential, cid: string) {
    && c.kind == "key" && cid != h.credential(c) && !parses(c.key)
    && cid in d.credentials
    && (var k := d.credentials[cid]; k.kind == "key" && k.passphrase == [] && k.key == c.key)
  }

  /** The entry refers to the new credential, and no longer to locked copies of it; of the other credentials only
      such copies are gone, and only if nothing refers to them any more. */
  ghost predicate Protects(h: Digests, d: Data, out: Data, parses: Bytes -> bool, id: string, c: Credential)
    requires id in d.entries
  {
    && id in out.entries && StrictlySorted(out.entries[id].credentialIds)
    && out == d.(entries := out.entries, credentials := out.credentials)
    && out.entries == d.entries[id := d.entries[id].(credentialIds := out.entries[id].credentialIds)]
    && (forall x :: x in out.entries[id].credentialIds <==>
          x == h.credential(c) || (x in d.entries[id].credentialIds && !LockedCopy(h, d, parses, c, x)))
    && Get(out.credentials, h.credential(c)) == Some(c)
    && (forall x | x != h.credential(c) ::
          Get(out.credentials, x) ==
          if x in d.entries[id].credentialIds && LockedCopy(h, d, parses, c, x) && !Referred(out, x) then None
          else Get(d.credentials, x))
  }

  lemma {:induction false} SplitIff(h: Digests, d: Data, parses: Bytes -> bool, c: Credential, ids: seq<string>)
    ensures forall x :: x in Kept(h, d, parses, c, ids) <==> x in ids && !LockedCopy(h, d, parses, c, x)
    ensures forall x :: x in Dropped(h, d, parses, c, ids) <==> x in ids && LockedCopy(h, d, parses, c, x)
    decreases |ids|
  {
    if ids != [] {
      SplitIff(h, d, parses, c, ids[1..]);
      assert Obsolete(h, d, parses, c, ids[0]) <==> LockedCopy(h, d, parses, c, ids[0]);
      assert ids == [ids[0]] + ids[1..];
      hide Obsolete, LockedCopy;
      assert forall x :: x in ids <==> x == ids[0] || x in ids[1..];
    }
  }

  lemma ProtectIff(h: Digests, d: Data, parses: Bytes -> bool, id: string, c: Credential)
    requires id in d.entries
    ensures Protects(h, d, Protect(h, d, parses, id, c), parses, id, c)
  {
    var cid := h.credential(c);
    var ids := d.entries[id].credentialIds;
    var all := Union(Kept(h, d, parses, c, ids), [cid]);
    var attached := d.(credentials := d.credentials[cid := c],
                       entries := d.entries[id := d.entries[id].(credentialIds := all)]);
    var out := Protect(h, d, parses, id, c);
    SplitIff(h, d, parses, c, ids);
    PruneAllIff(attached, Dropped(h, d, parses, c, ids));
    assert out == PruneAll(attached, Dropped(h, d, parses, c, ids));
    assert !LockedCopy(h, d, parses, c, cid);
    hide LockedCopy, Kept, Dropped, PruneAll;
    forall x ensures x in all <==> x == cid || (x in ids && !LockedCopy(h, d, parses, c, x)) {
      assert x in all <==> x in SetOf(all);
      assert x in Kept(h, d, parses, c, ids) <==> x in SetOf(Kept(h, d, parses, c, ids));
      assert x in [cid] <==> x in SetOf([cid]);
    }
    forall x ensures Referred(out, x) <==> Referred(attached, x) {
      assert forall i :: SlotAt(out, i) == SlotAt(attached, i);
    }
  }

  lemma AdditionsOk(h: Digests, id: string, a: Entry, b: Entry, m: Entry, credentials: map<string, Credential>)
    requires EntryOk(id, a, credentials) && EntryOk(id, b, credentials) && MergesAdditions(h, a, b, m)
    ensures EntryOk(id, m, credentials)
  {
    MergeLaws.AdditionsContainBoth(h, a, b, m);
  }

  lemma RepairSlotKeeps(h: Digests, id: string, s: Slot, o: Slot, credentials: map<string, Credential>)
    requires SlotOk(id, s, credentials) && RepairsSlot(h, s, o)
    ensures SlotOk(id, o, credentials)
  {
    if Repairable(s) {
      var c := s.conflict.value;
      var m :| MergesAdditions(h, c.local.value, c.remote.value, m)
        && MergesAdditions(h, m, s.entry.value, o.entry.value);
      AdditionsOk(h, id, c.local.value, c.remote.value, m, credentials);
      AdditionsOk(h, id, m, s.entry.value, o.entry.value, credentials);
    }
  }

  lemma RepairKeeps(h: Digests, d: Data, out: Data)
    requires WellFormed(h, d) && Repairs(h, d, out)
    ensures WellFormed(h, out)
  {
    forall id ensures SlotOk(id, SlotAt(out, id), out.credentials) && (id in d.entries ==> id in out.entries) {
      assert SlotOk(id, SlotAt(d, id), d.credentials);
      assert RepairsSlot(h, SlotAt(d, id), SlotAt(out, id));
      RepairSlotKeeps(h, id, SlotAt(d, id), SlotAt(out, id), d.credentials);
    }
  }

  lemma MergeSlotKeeps(h: Digests, id: string, b: Slot, l: Slot, r: Slot, o: Slot, credentials: map<string, Credential>)
    requires SlotOk(id, l, credentials) && SlotOk(id, r, credentials) && SettlesSlot(h, b, l, r, o)
    ensures SlotOk(id, o, credentials)
  {
    var mid :| MergesSlot(h, b, l, r, mid) && RepairsSlot(h, mid, o);
    var selected, clash :| Selects(h, b.entry, l.entry, r.entry, selected, clash)
      && mid == Settle(b, l, r, selected, clash);
    SettleKeeps(h, id, b, l, r, selected, clash, credentials);
    hide Merge.Settle, Merge.Selects, Merge.RepairsSlot, SlotOk;
    RepairSlotKeeps(h, id, mid, o, credentials);
  }

  lemma SettleKeeps(h: Digests, id: string, b: Slot, l: Slot, r: Slot, selected: Option<Entry>, clash: bool,
                    credentials: map<string, Credential>)
    requires SlotOk(id, l, credentials) && SlotOk(id, r, credentials)
             && Selects(h, b.entry, l.entry, r.entry, selected, clash)
    ensures SlotOk(id, Settle(b, l, r, selected, clash), credentials)
  {
    hide Merge.MergesAdditions;
    if selected.Some? && l.entry.Some? && r.entry.Some?
      && MergesAdditions(h, l.entry.value, r.entry.value, selected.value) {
      AdditionsOk(h, id, l.entry.value, r.entry.value, selected.value, credentials);
    }
  }

  /** Merging well-formed vaults, against any base at all, gives a well-formed vault. */
  lemma MergeKeeps(h: Digests, b: Data, l: Data, r: Data, out: Data)
    requires WellFormed(h, l) && WellFormed(h, r) && Merged(h, b, l, r, out)
    ensures WellFormed(h, out)
  {
    forall id ensures SlotOk(id, SlotAt(out, id), out.credentials) {
      assert SlotOk(id, SlotAt(l, id), l.credentials) && SlotOk(id, SlotAt(r, id), r.credentials);
      SlotOkGrows(id, SlotAt(l, id), l.credentials, out.credentials);
      SlotOkGrows(id, SlotAt(r, id), r.credentials, out.credentials);
      MergeSlotKeeps(h, id, SlotAt(b, id), SlotAt(l, id), SlotAt(r, id), SlotAt(out, id), out.credentials);
    }
  }

  /** Content addressing makes the "immutable credential conflict" error unreachable. */
  lemma CredentialsNeverClash(h: Digests, l: Data, r: Data)
    requires Injective(h) && WellFormed(h, l) && WellFormed(h, r)
    ensures !CredentialClash(l, r)
  {}

  lemma StepKeeps(h: Digests, op: Op, d: Data, out: Data)
    requires WellFormed(h, d) && Step(h, op, d, out) && (op.OpMerge? ==> WellFormed(h, op.remote))
    ensures WellFormed(h, out)
  {
    match op
    case OpSetPassword(id, password) =>
      if SetPassword(h, d, id, password).Some? { SetPasswordKeeps(h, d, id, password); }
    case OpRemove(id) => RemoveKeeps(h, d, id);
    case OpResolve(id, side) => if Resolve(d, id, side).Some? { ResolveKeeps(h, d, id, side); }
    case OpAddDevice(device, name, description) =>
      if AddDevice(h, d, device, name, description).Some? { AddDeviceKeeps(h, d, device, name, description); }
    case OpImport(device, includeKeys, l) => ImportKeeps(h, d, device, includeKeys, l);
    case OpObserve(server, now) => ObserveKeeps(h, d, server, now);
    case OpProtect(parses, id, c) => ProtectKeeps(h, d, parses, id, c);
    case OpPrune(cid) => PruneKeeps(h, d, cid);
    case OpRepair => RepairKeeps(h, d, out);
    case OpMerge(now, base, remote) =>
      var res :| Merges(h, now, base, d, remote, res) && out == if res.Ok? then res.data else d;
      if res.Ok? { MergeKeeps(h, base, d, remote, out); }
  }

  /** A history of a vault: each state follows from the one before by an operation. */
  ghost predicate History(h: Digests, ops: seq<Op>, states: seq<Data>) {
    && |states| == |ops| + 1
    && (forall i | 0 <= i < |ops| :: Step(h, ops[i], states[i], states[i + 1]))
    && (forall i | 0 <= i < |ops| && ops[i].OpMerge? :: WellFormed(h, ops[i].remote))
  }

  /** Every sequence of operations, from a well-formed vault such as a new one, keeps every state
      well formed. */
  lemma {:induction false} HistoryIsWellFormed(h: Digests, ops: seq<Op>, states: seq<Data>)
    requires History(h, ops, states) && WellFormed(h, states[0])
    ensures forall i | 0 <= i < |states| :: WellFormed(h, states[i])
    decreases |ops|
  {
    if ops != [] {
      var n := |ops| - 1;
      var initOps, initStates := ops[..n], states[..n + 1];
      assert forall i | 0 <= i < n :: Step(h, initOps[i], initStates[i], initStates[i + 1]);
      HistoryIsWellFormed(h, initOps, initStates);
      assert WellFormed(h, initStates[n]);
      StepKeeps(h, ops[n], states[n], states[n + 1]);
      forall i | 0 <= i < |states| ensures WellFormed(h, states[i]) {
        if i <= n { assert states[i] == initStates[i]; }
      }
    }
  }

  /** ... and none of its merges can fail on credentials. */
  lemma HistoryNeverClashes(h: Digests, ops: seq<Op>, states: seq<Data>, i: nat)
    requires Injective(h) && History(h, ops, states) && WellFormed(h, states[0])
    requires i < |ops| && ops[i].OpMerge?
    ensures !CredentialClash(states[i], ops[i].remote)
  {
    HistoryIsWellFormed(h, ops, states);
    CredentialsNeverClash(h, states[i], ops[i].remote);
  }

  // --- tombstones ---

  /** The id is deleted and not listed. */
  predicate Buried(d: Data, id: string) {
    id in d.deleted && id !in d.entries
  }

  /** The two ways a user explicitly brings an entry back: resolving its conflict to a side that
      exists, and adding a device connection. */
  predicate Restores(h: Digests, op: Op, d: Data, id: string) {
    || (op.OpResolve? && op.id == id && id in d.conflicts
        && (if op.side.Local? then d.conflicts[id].local else d.conflicts[id].remote).Some?)
    || (op.OpAddDevice? && EntryId(h, DeviceServer(op.device, DeviceName(op.device, op.name), op.description)) == id)
  }

  lemma {:induction false} PruneAllSlots(d: Data, cids: seq<string>)
    ensures PruneAll(d, cids) == d.(credentials := PruneAll(d, cids).credentials)
    decreases |cids|
  {
    if cids != [] { PruneAllSlots(Prune(d, cids[0]), cids[1..]); }
  }

  lemma ProtectKeepsTombstones(h: Digests, d: Data, parses: Bytes -> bool, i: string, c: Credential, id: string)
    requires Buried(d, id)
    ensures Buried(Protect(h, d, parses, i, c), id)
  {
    if i in d.entries {
      var cid := h.credential(c);
      var ids := d.entries[i].credentialIds;
      var e := d.entries[i].(credentialIds := Union(Kept(h, d, parses, c, ids), [cid]));
      PruneAllSlots(d.(credentials := d.credentials[cid := c], entries := d.entries[i := e]),
                    Dropped(h, d, parses, c, ids));
    }
  }

  lemma ImportKeepsTombstones(h: Digests, d: Data, device: string, includeKeys: bool, l: Local, id: string)
    requires Buried(d, id)
    ensures Buried(ImportServer(h, d, device, includeKeys, l), id)
  {}

  lemma AddDeviceKeepsTombstones(h: Digests, d: Data, device: Device, name: string, description: string, id: string)
    requires Buried(d, id) && EntryId(h, DeviceServer(device, DeviceName(device, name), description)) != id
    ensures Buried(OrSame(AddDevice(h, d, device, name, description), d), id)
  {}

  lemma ResolveKeepsTombstones(h: Digests, d: Data, op: Op, id: string)
    requires Buried(d, id) && op.OpResolve? && !Restores(h, op, d, id)
    ensures Buried(OrSame(Resolve(d, op.id, op.side), d), id)
  {}

  /** Every other local operation leaves a tombstone in place: an importer skips it. */
  lemma EditsKeepTombstones(h: Digests, op: Op, d: Data, out: Data, id: string)
    requires Step(h, op, d, out) && !op.OpMerge? && !Restores(h, op, d, id) && Buried(d, id)
    ensures Buried(out, id)
  {
    match op
    case OpImport(device, includeKeys, l) => ImportKeepsTombstones(h, d, device, includeKeys, l, id);
    case OpProtect(parses, i, c) => ProtectKeepsTombstones(h, d, parses, i, c, id);
    case OpAddDevice(device, name, description) => AddDeviceKeepsTombstones(h, d, device, name, description, id);
    case OpResolve(_, _) => ResolveKeepsTombstones(h, d, op, id);
    case OpRepair => assert RepairsSlot(h, SlotAt(d, id), SlotAt(out, id));
    case _ =>
  }

  /** A merge keeps the remote side's tombstone, unless the local side dropped one its base had. */
  lemma MergeKeepsTombstones(h: Digests, b: Data, l: Data, r: Data, out: Data, id: string)
    requires Merged(h, b, l, r, out) && Buried(r, id) && (id in b.deleted ==> id in l.deleted)
    ensures Buried(out, id)
  {
    MergeLaws.OutcomeIsFinal(h, SlotAt(b, id), SlotAt(l, id), SlotAt(r, id), SlotAt(out, id));
    var mid :| MergesSlot(h, SlotAt(b, id), SlotAt(l, id), SlotAt(r, id), mid) && RepairsSlot(h, mid, SlotAt(out, id));
  }
}
