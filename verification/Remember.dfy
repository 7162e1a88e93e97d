/** Import of a vault's credentials into the device store
    (internal/cloudsync/local_credentials.go, load_agent.go). */
module Remember {
  import opened Text
  import opened Vault
  import opened LocalStore

  /** Private keys from outside: parsing with a passphrase, recovery from the target's own key file,
      the fingerprint of the public half, and re-encoding. */
  datatype Keys = Keys(
    parse: (Bytes, Bytes) -> Option<Bytes>, recover: (Entry, string, Credential) -> Option<Bytes>,
    public: Bytes -> Option<string>, encode: Bytes -> Option<Bytes>)

  /** An unlocked vault with its owner mark. */
  datatype Import = Import(h: Digests, w: World, k: Keys, vault: Data, owner: string)

  // --- which entry serves a target ---

  predicate ActiveId(d: Data, id: string) {
    id !in d.deleted && id !in d.conflicts
  }

  predicate SameLine(m: Import, s: Server, e: Entry) {
    var near, far := CleanServer(s).(auth := e.server.auth), CleanServer(e.server);
    if s.cloudEntry != "" && s.cloudVault == m.owner then
      EntryId(m.h, near.(proxy := "", proxyJump := "", proxyCommand := "", forwards := []))
      == EntryId(m.h, far.(proxy := "", proxyJump := "", proxyCommand := "", forwards := []))
    else EntryId(m.h, near) == EntryId(m.h, far)
  }

  function Served(m: Import, s: Server): set<string> {
    set id | id in m.vault.entries && ActiveId(m.vault, id) && SameLine(m, s, m.vault.entries[id])
  }

  /** `matchingAgentEntry`: a bound target has its own entry; a native one the only entry with the same
      line; a marker without a binding none. */
  ghost function Matching(m: Import, s: Server): Option<string> {
    if s.cloudVault != "" && s.cloudVault != m.owner then None
    else if s.cloudEntry != "" then
      if s.cloudEntry in m.vault.entries && s.cloudVault == m.owner
        && ActiveId(m.vault, m.vault.entries[s.cloudEntry].id)
         && SameLine(m, s, m.vault.entries[s.cloudEntry]) then Some(s.cloudEntry) else None
    else if s.auth == AuthCloud || |Served(m, s)| != 1 then None
    else
      var id :| id in Served(m, s);
      Some(id)
  }

  // --- the credentials of an entry ---

  datatype Item = Took(secret: Secret) | Skip | Mismatch | Abort

  function KeyItem(m: Import, e: Entry, s: Server, c: Credential, direct: Option<Bytes>): Item {
    var raw := if direct.None? && s.keyPath != "" then m.k.recover(e, s.keyPath, c) else direct;
    if raw.None? then Skip
    else
      var mark, text := m.k.public(raw.value), m.k.encode(raw.value);
      if mark.None? || (c.fingerprint != "" && mark.value != c.fingerprint) || text.None? then Skip
      else
        var secret := Secret(text.value, [], "", mark.value);
        if !UsesFile(s) || m.w.file(s.keyPath, secret).Same? then Took(secret)
        else if m.w.file(s.keyPath, secret).Unreadable? then Abort
        else Mismatch
  }

  datatype Pile = Pile(secrets: seq<Secret>, passwords: set<string>)

  function AddPassword(e: Entry, c: Credential, p: Pile): Pile {
    if e.server.auth != AuthPassword || c.password == "" || c.password in p.passwords then p
    else Pile(p.secrets + [Secret([], [], c.password, "")], p.passwords + {c.password})
  }

  /** All usable credentials of an entry, in its order; `None` if a key file cannot be read. */
  function Gather(m: Import, e: Entry, s: Server, ids: seq<string>, p: Pile): Option<Pile>
    decreases |ids|
  {
    if ids == [] then Some(p)
    else if ids[0] !in m.vault.credentials then Gather(m, e, s, ids[1..], p)
    else
      var c := m.vault.credentials[ids[0]];
      if c.kind == "password" then Gather(m, e, s, ids[1..], AddPassword(e, c, p))
      else if c.kind != "key" then Gather(m, e, s, ids[1..], p)
      else
        match KeyItem(m, e, s, c, m.k.parse(c.key, c.passphrase))
        case Took(x) => Gather(m, e, s, ids[1..], p.(secrets := p.secrets + [x]))
        case Abort => None
        case _ => Gather(m, e, s, ids[1..], p)
  }

  // --- staging ---

  function Binding(m: Import, s: Server): string {
    if s.cloudEntry == "" then EntryId(m.h, CleanServer(s)) else s.cloudEntry
  }

  /** What the import makes of the store for one target. */
  ghost function Stage(m: Import, d: Contents, s: Server): Outcome<Contents> {
    if s.cloudVault == m.owner && Binding(m, s) in m.vault.deleted then Disable(m.w, d, s)
    else if Matching(m, s).None? then Done(d)
    else
      var e := m.vault.entries[Matching(m, s).value];
      var g := Gather(m, e, s, e.credentialIds, Pile([], {}));
      if g.None? then Error(KeyFileUnreadable)
      else if |g.value.passwords| > 1 || g.value.secrets == [] then Done(d)
      else Put(m.w, d, s, g.value.secrets)
  }

  predicate Dormant(m: Import, d: Contents, s: Server) {
    Identity(m.w, s).Some? && Identity(m.w, s).value in d.disabled
  }

  /** Nothing but an absent or a disabled credential may fail to resolve. */
  predicate Settled(m: Import, d: Contents, s: Server) {
    var r := Resolve(m.w, d, s);
    r.Done? || r.error.Inactive? || r.error.NotFound?
  }

  ghost function StageAll(m: Import, began: Contents, d: Contents, targets: seq<Server>): Outcome<Contents>
    decreases |targets|
  {
    if targets == [] then Done(d)
    else if Dormant(m, began, targets[0]) then StageAll(m, began, d, targets[1..])
    else
      var n := Stage(m, d, targets[0]);
      if n.Error? then n else StageAll(m, began, n.value, targets[1..])
  }

  /** The whole import, as one change of the contents. */
  ghost function Imported(m: Import, d: Contents, targets: seq<Server>, name: string,
                          master: Bytes): Outcome<Contents> {
    if exists s | s in targets :: !Settled(m, d, s) then Error(Failed)
    else
      var n := StageAll(m, d, d, targets);
      if n.Error? then n else SetSecret(n.value, name, master)
  }

  // --- what is disabled stays disabled ---

  predicate KeepsDisabled(d: Contents, n: Contents, id: string) {
    id in d.disabled ==> id in n.disabled && Get(n.connections, id) == Get(d.connections, id)
  }

  lemma StageKeeps(m: Import, began: Contents, d: Contents, s: Server, id: string)
    requires id in began.disabled && !Dormant(m, began, s) && Stage(m, d, s).Done?
    ensures KeepsDisabled(d, Stage(m, d, s).value, id)
    ensures Stage(m, d, s).value.keyFiles == d.keyFiles && Stage(m, d, s).value.secrets == d.secrets
  {}

  lemma {:induction false} StageAllKeeps(m: Import, began: Contents, d: Contents, targets: seq<Server>, id: string)
    requires id in began.disabled && id in d.disabled && StageAll(m, began, d, targets).Done?
    ensures KeepsDisabled(d, StageAll(m, began, d, targets).value, id)
    decreases |targets|
  {
    if targets != [] {
      if Dormant(m, began, targets[0]) {
        StageAllKeeps(m, began, d, targets[1..], id);
      } else {
        StageKeeps(m, began, d, targets[0], id);
        StageAllKeeps(m, began, Stage(m, d, targets[0]).value, targets[1..], id);
      }
    }
  }

  /** An import never reactivates an identity that was disabled when it began, and keeps the
      credentials stored for it, whatever the vault and the configuration. */
  lemma ImportKeepsDisabled(m: Import, d: Contents, targets: seq<Server>, name: string, master: Bytes, id: string)
    requires Imported(m, d, targets, name, master).Done?
    ensures KeepsDisabled(d, Imported(m, d, targets, name, master).value, id)
  {
    if id in d.disabled { StageAllKeeps(m, d, d, targets, id); }
  }

  // --- runs of the store ---

  datatype Op =
    | OpPut(s: Server, cs: seq<Secret>)
    | OpDisable(s: Server)
    | OpKeyFile(path: string, c: Secret)
    | OpSecret(name: string, value: Bytes)
    | OpDelete(prefix: string)
    | OpImport(m: Import, targets: seq<Server>, name: string, master: Bytes)

  ghost function Apply(w: World, op: Op, d: Contents): Outcome<Contents> {
    match op
    case OpPut(s, cs) => Put(w, d, s, cs)
    case OpDisable(s) => Disable(w, d, s)
    case OpKeyFile(path, c) => RememberKeyFile(w, d, path, c)
    case OpSecret(name, value) => SetSecret(d, name, value)
    case OpDelete(prefix) => Done(DeleteSecrets(d, prefix))
    case OpImport(m, targets, name, master) => Imported(m, d, targets, name, master)
  }

  /** Every command on the store, with what goes wrong in it. */
  datatype Event = Change(op: Op, io: Io) | Lock(io: Io) | Unlock(io: Io)

  /** A command changes the store exactly if it gets as far as the rename, whatever it then reports.
      Deleting secrets creates no store. */
  ghost function Next(w: World, m: Media, e: Event): Media {
    match e
    case Change(op, io) =>
      var n := Apply(w, op, Before(m));
      if Replaces(m, io, n) && !(op.OpDelete? && m.disk.None?) then m.(disk := Some(n.value)) else m
    case Lock(io) => m.(locked := m.locked || Locks(m, io))
    case Unlock(io) => m.(locked := m.locked && !Unlocks(m, io))
  }

  ghost predicate Run(w: World, states: seq<Media>, events: seq<Event>) {
    |states| == |events| + 1 && forall i | 0 <= i < |events| :: states[i + 1] == Next(w, states[i], events[i])
  }

  /** The user registers a credential for this identity. */
  predicate Registers(w: World, e: Event, id: string) {
    e.Change? && e.op.OpPut? && Identity(w, e.op.s) == Some(id)
  }

  predicate Withdrawn(m: Media, id: string) {
    m.disk.Some? && id in m.disk.value.disabled
  }

  /** Once disabled, an identity does not resolve, not even through a key file, and its credentials
      stay in the store, until somebody registers a credential for it again: over every run of
      commands, failing anywhere, locking and unlocking included. */
  lemma {:induction false} DisabledUntilRegistered(w: World, states: seq<Media>, events: seq<Event>, i: nat, j: nat,
                                                   s: Server)
    requires Run(w, states, events) && i <= j < |states| && Identity(w, s).Some?
             && Withdrawn(states[i], Identity(w, s).value)
    requires forall k | i <= k < j :: !Registers(w, events[k], Identity(w, s).value)
    ensures states[j].disk.Some? && Resolve(w, states[j].disk.value, s) == Error(Inactive)
    ensures KeepsDisabled(states[i].disk.value, states[j].disk.value, Identity(w, s).value)
    decreases j - i
  {
    var id := Identity(w, s).value;
    if i < j {
      DisabledUntilRegistered(w, states, events, i, j - 1, s);
      var e, d := events[j - 1], states[j - 1].disk.value;
      assert !Registers(w, e, id);
      if e.Change? && e.op.OpImport? && Apply(w, e.op, d).Done? {
        ImportKeepsDisabled(e.op.m, d, e.op.targets, e.op.name, e.op.master, id);
      }
    }
  }

  /** A locked store is not changed by anything but its unlocking. */
  lemma {:induction false} LockedUntilUnlocked(w: World, states: seq<Media>, events: seq<Event>, i: nat, j: nat)
    requires Run(w, states, events) && i <= j < |states| && states[i].locked
    requires forall k | i <= k < j :: !events[k].Unlock?
    ensures states[j] == states[i]
    decreases j - i
  {
    if i < j { LockedUntilUnlocked(w, states, events, i, j - 1); }
  }

  // --- the code ---

  class Importer {
    const m: Import
    var parsed: map<string, Option<Bytes>>

    constructor (m: Import)
      ensures this.m == m && Sound()
    {
      this.m, parsed := m, map[];
    }

    /** The cache of parsed keys holds what parsing would give. */
    predicate Sound()
      reads this
    {
      forall id | id in parsed ::
        id in m.vault.credentials && parsed[id] == m.k.parse(m.vault.credentials[id].key,
                                                             m.vault.credentials[id].passphrase)
    }

    method FindEntry(s: Server) returns (r: Option<string>)
      ensures r == Matching(m, s)
      ensures r.Some? ==> r.value in m.vault.entries
    {
      if s.cloudVault != "" && s.cloudVault != m.owner {
        return None;
      }
      if s.cloudEntry != "" {
        if s.cloudEntry in m.vault.entries && s.cloudVault == m.owner
          && ActiveId(m.vault, m.vault.entries[s.cloudEntry].id)
           && SameLine(m, s, m.vault.entries[s.cloudEntry]) {
          return Some(s.cloudEntry);
        }
        return None;
      }
      if s.auth == AuthCloud {
        return None;
      }
      var found, count := CountServed(s);
      if count == 1 {
        return Some(found);
      }
      r := None;
    }

    /** How many active entries have the target's line, and one of them. */
    method CountServed(s: Server) returns (found: string, count: nat)
      ensures count == |Served(m, s)| && (count == 1 ==> Served(m, s) == {found})
    {
      hide SameLine, ActiveId;
      found, count := "", 0;
      var left := m.vault.entries.Keys;
      ghost var hits: set<string> := {};
      while left != {}
        invariant left <= m.vault.entries.Keys && |hits| == count
        invariant hits == set id | id in Served(m, s) && id !in left
        invariant count > 0 ==> found in hits
        decreases left
      {
        var id :| id in left;
        left := left - {id};
        if ActiveId(m.vault, id) && SameLine(m, s, m.vault.entries[id]) {
          found, count := id, count + 1;
          hits := hits + {id};
        }
      }
      assert hits == Served(m, s);
      if count == 1 {
        Singleton(hits, found);
      }
    }

    /** The loop over an entry's credentials, parsing each key once per import. */
    method GatherSecrets(e: Entry, s: Server) returns (r: Option<Pile>)
      requires Sound()
      modifies this`parsed
      ensures Sound() && r == Gather(m, e, s, e.credentialIds, Pile([], {}))
    {
      var p := Pile([], {});
      for i := 0 to |e.credentialIds|
        invariant Sound()
        invariant Gather(m, e, s, e.credentialIds, Pile([], {})) == Gather(m, e, s, e.credentialIds[i..], p)
      {
        assert e.credentialIds[i..][1..] == e.credentialIds[i + 1..];
        var id := e.credentialIds[i];
        if id in m.vault.credentials {
          var c := m.vault.credentials[id];
          if c.kind == "password" {
            p := AddPassword(e, c, p);
          } else if c.kind == "key" {
            if id !in parsed {
              parsed := parsed[id := m.k.parse(c.key, c.passphrase)];
            }
            match KeyItem(m, e, s, c, parsed[id])
            case Took(x) => p := p.(secrets := p.secrets + [x]);
            case Abort => return None;
            case _ =>
          }
        }
      }
      r := Some(p);
    }

    method StageTarget(d: Contents, s: Server) returns (r: Outcome<Contents>)
      requires Sound()
      modifies this`parsed
      ensures Sound() && r == Stage(m, d, s)
    {
      if s.cloudVault == m.owner && Binding(m, s) in m.vault.deleted {
        return Disable(m.w, d, s);
      }
      var id := FindEntry(s);
      if id.None? {
        return Done(d);
      }
      var g := GatherSecrets(m.vault.entries[id.value], s);
      if g.None? {
        return Error(KeyFileUnreadable);
      }
      if |g.value.passwords| > 1 {
        return Done(d);
      }
      if |g.value.secrets| > 0 {
        return Put(m.w, d, s, g.value.secrets);
      }
      r := Done(d);
    }

    /** Every target must resolve, or be absent, or be disabled; the disabled ones are noted. */
    method CheckTargets(d: Contents, targets: seq<Server>) returns (ok: bool, inactive: set<int>)
      ensures ok <==> forall s | s in targets :: Settled(m, d, s)
      ensures ok ==> forall i | 0 <= i < |targets| :: i in inactive <==> Dormant(m, d, targets[i])
    {
      hide Resolve, Identity;
      inactive := {};
      for i := 0 to |targets|
        invariant forall k | 0 <= k < i :: Settled(m, d, targets[k])
        invariant forall k | 0 <= k < i :: k in inactive <==> Dormant(m, d, targets[k])
        invariant forall k | k in inactive :: k < i
      {
        DormantIff(m, d, targets[i]);
        var c := ResolveOpened(m.w, d, targets[i]);
        if c.Error? && c.error.Inactive? {
          inactive := inactive + {i};
        } else if c.Error? && !c.error.NotFound? {
          assert !Settled(m, d, targets[i]);
          return false, {};
        }
      }
      ok := true;
    }

    /** The targets that were not disabled are staged; all in one transaction. */
    method StageTargets(d: Contents, targets: seq<Server>, name: string, master: Bytes) returns (r: Outcome<Contents>)
      requires Sound()
      modifies this`parsed
      ensures r.Done? <==> Imported(m, d, targets, name, master).Done?
      ensures r.Done? ==> r == Imported(m, d, targets, name, master)
    {
      hide Settled, Dormant, Stage, Sound;
      var ok, inactive := CheckTargets(d, targets);
      if !ok {
        return Error(Failed);
      }
      var local := d;
      for i := 0 to |targets|
        invariant Sound() && StageAll(m, d, d, targets) == StageAll(m, d, local, targets[i..])
      {
        assert targets[i..][1..] == targets[i + 1..];
        if i !in inactive {
          var n := StageTarget(local, targets[i]);
          if n.Error? {
            return n;
          }
          local := n.value;
        }
      }
      r := SetSecret(local, name, master);
    }
  }

  lemma DormantIff(m: Import, d: Contents, s: Server)
    ensures Dormant(m, d, s) <==> Resolve(m.w, d, s) == Error(Inactive)
  {
    var id := Identity(m.w, s);
    if id.Some? && id.value !in d.disabled {
      FileErrorIff(m.w, s.keyPath, Selected(m.w, d, id.value, s));
    }
  }

  /** `RememberVault`: success is the import as one transaction; on an error the store keeps its
      contents exactly if the rename was not reached, else it holds the whole import. A locked store
      takes no import. */
  method RememberVault(store: Store, m: Import, verified: bool, now: int, targets: seq<Server>, name: string,
                       master: Bytes, io: Io)
    returns (err: Option<Error>)
    modifies store`disk
    ensures var was := old(store.Value());
            var n := Imported(m, Before(was), targets, name, master);
            var replaced := verified && Valid(m.vault, now) && Replaces(was, io, n);
            && (err.None? <==> replaced && io.syncs)
            && (if replaced then store.disk == Some(n.value) else store.disk == was.disk)
    ensures err.Some? && store.disk != old(store.disk) ==> io.renames && !io.syncs
    ensures store.locked ==> err.Some? && store.disk == old(store.disk)
  {
    hide Valid;
    if !verified || !Valid(m.vault, now) {
      return Some(LocalStore.Invalid);
    }
    var r := store.Begin(io);
    if r.Error? {
      return Some(r.error);
    }
    var importer := new Importer(m);
    var n := importer.StageTargets(r.value, targets, name, master);
    if n.Error? {
      return Some(n.error);
    }
    err := store.Commit(n.value, io);
  }
}
