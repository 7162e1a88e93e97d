/** Import of configured connections together with their device-protected credentials
    (internal/cloudsync/import_protected.go). */
module ProtectedImport {
  import opened Text
  import opened Vault
  import opened LocalStore
  import opened VaultCode
  import Ops = VaultOps
  import Effects

  /** The caller's side of one import: digests, the world of key files, which stored bytes parse as a
      key, the importing device, the vault's owner mark and the clock. */
  datatype Setting = Setting(h: Digests, w: World, parses: Bytes -> bool, device: string, owner: string,
                             includeKeys: bool, now: int)

  /** A configured record and what the credential store answers for it. */
  datatype Record = Record(local: Ops.Local, stored: Outcome<seq<Secret>>)

  // --- the credentials to import ---

  predicate TakesKey(auth: string, c: Secret) {
    auth in {AuthKey, AuthAgent} && c.key != []
  }

  /** The keys of a target, each with the fingerprint it proves. */
  function KeyList(w: World, auth: string, cs: seq<Secret>): seq<Credential> {
    if cs == [] then []
    else
      (if TakesKey(auth, cs[0]) && w.prove(cs[0]).Some?
       then [Credential("key", cs[0].key, cs[0].passphrase, "", w.prove(cs[0]).value)] else [])
      + KeyList(w, auth, cs[1..])
  }

  function PasswordsOf(auth: string, cs: seq<Secret>): set<string> {
    set c | c in cs && auth == AuthPassword && c.password != "" :: c.password
  }

  /** What `protectedCredentials` returns: nothing if a key cannot prove itself or the passwords
      disagree, else all keys and the password. */
  predicate Exports(w: World, auth: string, cs: seq<Secret>, r: Option<seq<Credential>>) {
    var keys, passwords := KeyList(w, auth, cs), PasswordsOf(auth, cs);
    if |passwords| > 1 || Unproven(w, auth, cs) then r.None?
    else
      && r.Some?
      && if passwords == {} then r.value == keys
         else r.value != [] && r.value[|r.value| - 1].password in passwords
              && r.value == keys + [Credential("password", [], [], r.value[|r.value| - 1].password, "")]
  }

  lemma {:induction false} KeysAppend(w: World, auth: string, cs: seq<Secret>, c: Secret)
    ensures KeyList(w, auth, cs + [c]) == KeyList(w, auth, cs) + KeyList(w, auth, [c])
  {
    if cs == [] {
      assert cs + [c] == [c];
    } else {
      assert (cs + [c])[1..] == cs[1..] + [c];
      KeysAppend(w, auth, cs[1..], c);
    }
  }

  lemma OneMore(w: World, auth: string, cs: seq<Secret>, i: nat)
    requires i < |cs|
    ensures var c := cs[i];
            && KeyList(w, auth, cs[..i + 1]) == KeyList(w, auth, cs[..i])
                 + (if TakesKey(auth, c) && w.prove(c).Some?
                    then [Credential("key", c.key, c.passphrase, "", w.prove(c).value)] else [])
            && PasswordsOf(auth, cs[..i + 1]) == PasswordsOf(auth, cs[..i])
                 + (if auth == AuthPassword && c.password != "" then {c.password} else {})
  {
    var c := cs[i];
    assert cs[..i + 1] == cs[..i] + [c];
    KeysAppend(w, auth, cs[..i], c);
    assert [c][1..] == [];
  }

  /** Some key cannot prove itself. */
  predicate Unproven(w: World, auth: string, cs: seq<Secret>) {
    exists c | c in cs :: TakesKey(auth, c) && w.prove(c).None?
  }

  /** The loop over the stored secrets. */
  method Collect(w: World, auth: string, cs: seq<Secret>)
    returns (ok: bool, keys: seq<Credential>, passwords: set<string>)
    ensures ok <==> !Unproven(w, auth, cs)
    ensures ok ==> keys == KeyList(w, auth, cs) && passwords == PasswordsOf(auth, cs)
  {
    keys, passwords := [], {};
    assert KeyList(w, auth, cs[..0]) == [] && PasswordsOf(auth, cs[..0]) == {};
    hide KeyList, PasswordsOf;
    for i := 0 to |cs|
      invariant keys == KeyList(w, auth, cs[..i]) && passwords == PasswordsOf(auth, cs[..i])
      invariant forall k | 0 <= k < i :: TakesKey(auth, cs[k]) ==> w.prove(cs[k]).Some?
    {
      var c := cs[i];
      OneMore(w, auth, cs, i);
      if auth == AuthPassword {
        if c.password != "" {
          passwords := passwords + {c.password};
        }
      } else if auth in {AuthKey, AuthAgent} && c.key != [] {
        var mark := w.prove(c);
        if mark.None? {
          assert cs[i] in cs;
          return false, keys, passwords;
        }
        keys := keys + [Credential("key", c.key, c.passphrase, "", mark.value)];
      }
    }
    assert cs[..|cs|] == cs;
    ok := true;
  }

  method ProtectedCredentials(w: World, auth: string, cs: seq<Secret>) returns (r: Option<seq<Credential>>)
    ensures Exports(w, auth, cs, r)
  {
    hide KeyList, PasswordsOf, Unproven;
    var ok, imported, passwords := Collect(w, auth, cs);
    if !ok || |passwords| > 1 {
      return None;
    }
    if passwords != {} {
      var password :| password in passwords;
      imported := imported + [Credential("password", [], [], password, "")];
    }
    r := Some(imported);
  }

  // --- one record ---

  /** `Import` of this record alone. */
  ghost function ImportOne(x: Setting, d: Data, l: Ops.Local, keys: bool): (Data, bool) {
    var n := Ops.ImportServer(x.h, d, x.device, keys, l);
    if Ops.ImportFails(x.h, d, keys, l) then (n, false)
    else
      var o := Ops.ObserveServer(x.h, n, l.server, x.now);
      (o, Valid(o, x.now))
  }

  ghost function ProtectAll(x: Setting, d: Data, id: string, cs: seq<Credential>): Data
    decreases |cs|
  {
    if cs == [] then d else ProtectAll(x, Ops.Protect(x.h, d, x.parses, id, cs[0]), id, cs[1..])
  }

  /** Only explicit local connections of this vault's owner, neither deleted nor in conflict. */
  predicate Eligible(x: Setting, d: Data, s: Option<Server>) {
    && s.Some? && s.value.cloudEntry == "" && (s.value.cloudVault == "" || s.value.cloudVault == x.owner)
    && s.value.auth != AuthCloud
    && EntryId(x.h, CleanServer(s.value)) !in d.deleted && EntryId(x.h, CleanServer(s.value)) !in d.conflicts
  }

  /** What one record may make of the vault; the flag says whether the import goes on. */
  ghost predicate Takes(x: Setting, d: Data, r: Record, out: Data, goes: bool) {
    if !Eligible(x, d, r.local.server) || (x.includeKeys && r.stored.Error? && r.stored.error.Inactive?) then
      out == d && goes
    else if x.includeKeys && r.stored.Error? && !r.stored.error.NotFound? then out == d && !goes
    else if !x.includeKeys || r.stored.Error? || r.stored.value == [] then
      (out, goes) == ImportOne(x, d, r.local, x.includeKeys)
    else exists cs :: Exports(x.w, r.local.server.value.auth, r.stored.value, cs) && TakesExport(x, d, r, cs, out, goes)
  }

  /** The record alone, then one after the other what its stored secrets export. */
  ghost predicate TakesExport(x: Setting, d: Data, r: Record, cs: Option<seq<Credential>>, out: Data, goes: bool)
    requires r.local.server.Some?
  {
    if cs.None? then out == d && !goes
    else
      var (n, ok) := ImportOne(x, d, r.local, false);
      if !ok then out == n && !goes
      else out == ProtectAll(x, n, EntryId(x.h, CleanServer(r.local.server.value)), cs.value) && goes
  }

  // --- what an import keeps ---

  lemma ImportOneKeeps(x: Setting, d: Data, l: Ops.Local, keys: bool)
    requires Ops.WellFormed(x.h, d)
    ensures Ops.WellFormed(x.h, ImportOne(x, d, l, keys).0)
  {
    hide Ops.WellFormed, Valid;
    Ops.ImportKeeps(x.h, d, x.device, keys, l);
    Ops.ObserveKeeps(x.h, Ops.ImportServer(x.h, d, x.device, keys, l), l.server, x.now);
  }

  lemma {:induction false} ProtectAllKeeps(x: Setting, d: Data, id: string, cs: seq<Credential>)
    requires Ops.WellFormed(x.h, d)
    ensures Ops.WellFormed(x.h, ProtectAll(x, d, id, cs))
    decreases |cs|
  {
    hide Ops.WellFormed, Ops.Protect;
    if cs != [] {
      Ops.ProtectKeeps(x.h, d, x.parses, id, cs[0]);
      ProtectAllKeeps(x, Ops.Protect(x.h, d, x.parses, id, cs[0]), id, cs[1..]);
    }
  }

  lemma TakesKeeps(x: Setting, d: Data, r: Record, out: Data, goes: bool)
    requires Ops.WellFormed(x.h, d) && Takes(x, d, r, out, goes)
    ensures Ops.WellFormed(x.h, out)
  {
    hide Ops.WellFormed, Exports, ImportOne;
    ImportOneKeeps(x, d, r.local, x.includeKeys);
    ImportOneKeeps(x, d, r.local, false);
    if out != d && out != ImportOne(x, d, r.local, x.includeKeys).0 && out != ImportOne(x, d, r.local, false).0 {
      var cs :| Exports(x.w, r.local.server.value.auth, r.stored.value, cs) && cs.Some?
                && out == ProtectAll(x, ImportOne(x, d, r.local, false).0,
                                     EntryId(x.h, CleanServer(r.local.server.value)), cs.value);
      ProtectAllKeeps(x, ImportOne(x, d, r.local, false).0, EntryId(x.h, CleanServer(r.local.server.value)), cs.value);
    }
  }

  /** Tombstones, conflicts and all entries but one are the same. */
  ghost predicate OnlyEntry(d: Data, out: Data, id: string) {
    && out.deleted == d.deleted && out.conflicts == d.conflicts && out.hardware == d.hardware
    && forall k | k != id :: Get(out.entries, k) == Get(d.entries, k)
  }

  lemma {:induction false} ProtectAllTouches(x: Setting, d: Data, id: string, cs: seq<Credential>)
    ensures OnlyEntry(d, ProtectAll(x, d, id, cs), id)
    decreases |cs|
  {
    if cs != [] {
      ProtectTouches(x, d, id, cs[0]);
      ProtectAllTouches(x, Ops.Protect(x.h, d, x.parses, id, cs[0]), id, cs[1..]);
    }
  }

  lemma ProtectTouches(x: Setting, d: Data, id: string, c: Credential)
    ensures OnlyEntry(d, Ops.Protect(x.h, d, x.parses, id, c), id)
  {
    if id in d.entries {
      var ids := d.entries[id].credentialIds;
      var e := d.entries[id].(credentialIds := Union(Ops.Kept(x.h, d, x.parses, c, ids), [x.h.credential(c)]));
      var attached := d.(credentials := d.credentials[x.h.credential(c) := c], entries := d.entries[id := e]);
      Ops.PruneAllSlots(attached, Ops.Dropped(x.h, d, x.parses, c, ids));
    }
  }

  lemma ImportOneTouches(x: Setting, d: Data, l: Ops.Local, keys: bool)
    requires Eligible(x, d, l.server)
    ensures OnlyEntry(d, ImportOne(x, d, l, keys).0, EntryId(x.h, CleanServer(l.server.value)))
  {
    hide Valid, CleanServer, EntryId, OnlyEntry, Ops.ImportServer, Ops.ObserveServer;
    var id := EntryId(x.h, CleanServer(l.server.value));
    var n := Ops.ImportServer(x.h, d, x.device, keys, l);
    ImportTouches(x, d, l, keys);
    ObserveTouches(x, n, l.server, id);
    OnlyEntryChains(d, n, Ops.ObserveServer(x.h, n, l.server, x.now), id);
  }

  lemma ImportTouches(x: Setting, d: Data, l: Ops.Local, keys: bool)
    requires l.server.Some?
    ensures OnlyEntry(d, Ops.ImportServer(x.h, d, x.device, keys, l), EntryId(x.h, CleanServer(l.server.value)))
  {
    hide CleanServer, EntryId, Union;
  }

  lemma ObserveTouches(x: Setting, d: Data, s: Option<Server>, id: string)
    ensures OnlyEntry(d, Ops.ObserveServer(x.h, d, s, x.now), id)
  {
    hide CleanServer, EntryId, Ops.Report;
  }

  lemma {:induction false} OnlyEntryChains(a: Data, b: Data, c: Data, id: string)
    requires OnlyEntry(a, b, id) && OnlyEntry(b, c, id)
    ensures OnlyEntry(a, c, id)
  {}

  /** An import touches no tombstone and no conflict, and for each record only the entry with the
      record's own id, which is neither deleted nor in conflict; a record of another vault, and one whose
      local credential is withdrawn or unreadable, change nothing, and the last stops the import. */
  lemma TakesTouches(x: Setting, d: Data, r: Record, out: Data, goes: bool)
    requires Takes(x, d, r, out, goes)
    ensures out == d || (exists s | r.local.server == Some(s) ::
                           var id := EntryId(x.h, CleanServer(s));
                           && s.cloudEntry == "" && s.cloudVault in {"", x.owner} && s.auth != AuthCloud
                           && id !in d.deleted && id !in d.conflicts && OnlyEntry(d, out, id))
    ensures x.includeKeys && r.stored.Error? && !r.stored.error.NotFound? ==>
              out == d && (r.stored.error.Inactive? ==> goes)
  {
    hide Valid, Exports, CleanServer, EntryId, ImportOne, OnlyEntry, ProtectAll;
    if Eligible(x, d, r.local.server) {
      var id := EntryId(x.h, CleanServer(r.local.server.value));
      var n := ImportOne(x, d, r.local, false).0;
      ImportOneTouches(x, d, r.local, x.includeKeys);
      ImportOneTouches(x, d, r.local, false);
      if out != d && out != n && out != ImportOne(x, d, r.local, x.includeKeys).0 {
        var cs :| Exports(x.w, r.local.server.value.auth, r.stored.value, cs) && cs.Some?
          && out == ProtectAll(x, n, id, cs.value);
        ProtectAllTouches(x, n, id, cs.value);
        OnlyEntryChains(d, n, out, id);
      }
    }
  }

  // --- the whole import ---

  /** The records were taken one after the other, until one stopped the import. */
  ghost predicate TakesAll(x: Setting, d: Data, rs: seq<Record>, out: Data, goes: bool)
    decreases |rs|
  {
    if rs == [] then out == d && goes
    else
      var before, last := rs[..|rs| - 1], rs[|rs| - 1];
      exists m :: TakesAll(x, d, before, m, true) && Takes(x, m, last, out, goes)
  }

  /** Importing any list of records keeps the vault well formed, its tombstones and its conflicts. */
  lemma {:induction false} ImportProtectedKeeps(x: Setting, d: Data, rs: seq<Record>, out: Data, goes: bool)
    requires Ops.WellFormed(x.h, d) && TakesAll(x, d, rs, out, goes)
    ensures Ops.WellFormed(x.h, out) && out.deleted == d.deleted && out.conflicts == d.conflicts
    decreases |rs|
  {
    hide Takes, Ops.WellFormed;
    if rs != [] {
      var before, last := rs[..|rs| - 1], rs[|rs| - 1];
      var m :| TakesAll(x, d, before, m, true) && Takes(x, m, last, out, goes);
      ImportProtectedKeeps(x, d, before, m, true);
      TakesKeeps(x, m, last, out, goes);
      TakesTouches(x, m, last, out, goes);
    }
  }

  // --- what an import attaches, and what it never loses ---

  /** The same secret: the same credential, or a key with the same bytes in place of one without passphrase. */
  predicate SameSecret(a: Credential, b: Credential) {
    a == b || (a.kind == "key" && a.passphrase == [] && b.kind == "key" && b.key == a.key)
  }

  /** Every secret of the vault is still in it. */
  ghost predicate KeepsSecrets(d: Data, out: Data) {
    forall cid | cid in d.credentials :: exists x ::
      x in out.credentials && SameSecret(d.credentials[cid], out.credentials[x])
  }

  /** The entry is listed under the alias. */
  predicate Listed(d: Data, id: string, alias: string) {
    id in d.entries && alias in d.entries[id].aliases
  }

  /** The listed entry refers to the secret. */
  ghost predicate Offers(d: Data, id: string, c: Credential) {
    id in d.entries &&
    exists x :: x in d.entries[id].credentialIds && x in d.credentials && SameSecret(c, d.credentials[x])
  }

  lemma KeepsSecretsChains(a: Data, b: Data, c: Data)
    requires KeepsSecrets(a, b) && KeepsSecrets(b, c)
    ensures KeepsSecrets(a, c)
  {
    forall cid | cid in a.credentials
      ensures exists x :: x in c.credentials && SameSecret(a.credentials[cid], c.credentials[x])
    {
      var x :| x in b.credentials && SameSecret(a.credentials[cid], b.credentials[x]);
      var y :| y in c.credentials && SameSecret(b.credentials[x], c.credentials[y]);
      assert SameSecret(a.credentials[cid], c.credentials[y]);
    }
  }

  lemma ProtectOffers(x: Setting, d: Data, id: string, c: Credential)
    requires Injective(x.h) && Ops.WellFormed(x.h, d) && id in d.entries
    ensures var out := Ops.Protect(x.h, d, x.parses, id, c);
            && KeepsSecrets(d, out) && Offers(out, id, c)
            && forall k | Offers(d, id, k) :: Offers(out, id, k)
  {
    var cid := x.h.credential(c);
    var out := Ops.Protect(x.h, d, x.parses, id, c);
    Ops.ProtectIff(x.h, d, x.parses, id, c);
    Ops.ProtectKeeps(x.h, d, x.parses, id, c);
    hide Ops.Protect, Ops.Referred;
    assert Get(out.credentials, cid) == Some(c);
    forall k | k in d.credentials ensures exists y ::
      y in out.credentials && SameSecret(d.credentials[k], out.credentials[y]) {
      assert Get(out.credentials, k) == Get(d.credentials, k) || SameSecret(d.credentials[k], out.credentials[cid]);
      if SameSecret(d.credentials[k], out.credentials[cid]) {
      } else {
        assert k in out.credentials && SameSecret(d.credentials[k], out.credentials[k]);
      }
    }
    assert cid in out.entries[id].credentialIds && SameSecret(c, out.credentials[cid]);
    forall k | Offers(d, id, k) ensures Offers(out, id, k) {
      StillOffered(x, d, out, id, c, k);
    }
  }

  lemma StillOffered(x: Setting, d: Data, out: Data, id: string, c: Credential, k: Credential)
    requires Injective(x.h) && Ops.WellFormed(x.h, d) && Ops.WellFormed(x.h, out) && id in d.entries
    requires Ops.Protects(x.h, d, out, x.parses, id, c) && Offers(d, id, k)
    ensures Offers(out, id, k)
  {
    var cid := x.h.credential(c);
    var y :| y in d.entries[id].credentialIds && y in d.credentials && SameSecret(k, d.credentials[y]);
    if y == cid || Ops.LockedCopy(x.h, d, x.parses, c, y) {
      assert SameSecret(d.credentials[y], c);
      assert cid in out.entries[id].credentialIds && Get(out.credentials, cid) == Some(c);
    } else {
      assert y in out.entries[id].credentialIds && Get(out.credentials, y) == Get(d.credentials, y);
    }
  }

  lemma {:induction false} ProtectAllOffers(x: Setting, d: Data, id: string, cs: seq<Credential>)
    requires Injective(x.h) && Ops.WellFormed(x.h, d) && id in d.entries
    ensures var out := ProtectAll(x, d, id, cs);
            && KeepsSecrets(d, out) && id in out.entries && out.entries[id].aliases == d.entries[id].aliases
            && (forall c | c in cs :: Offers(out, id, c)) && (forall k | Offers(d, id, k) :: Offers(out, id, k))
    decreases |cs|
  {
    if cs == [] {
      assert forall cid | cid in d.credentials :: SameSecret(d.credentials[cid], d.credentials[cid]);
    } else {
      var n := Ops.Protect(x.h, d, x.parses, id, cs[0]);
      ProtectOffers(x, d, id, cs[0]);
      Ops.ProtectKeeps(x.h, d, x.parses, id, cs[0]);
      StillThere(x, d, id, cs[0]);
      hide Ops.Protect, Ops.WellFormed, Offers, KeepsSecrets;
      ProtectAllOffers(x, n, id, cs[1..]);
      KeepsSecretsChains(d, n, ProtectAll(x, n, id, cs[1..]));
      assert cs == [cs[0]] + cs[1..];
      assert forall c | c in cs :: c == cs[0] || c in cs[1..];
    }
  }

  lemma ImportOneKeepsSecrets(x: Setting, d: Data, l: Ops.Local, keys: bool)
    requires Injective(x.h) && Ops.WellFormed(x.h, d)
    ensures KeepsSecrets(d, ImportOne(x, d, l, keys).0)
  {
    Effects.ImportIs(x.h, d, x.device, keys, l);
    Ops.ImportKeeps(x.h, d, x.device, keys, l);
    hide Valid, Ops.ImportServer, Ops.ImportFails, Ops.Report, CleanServer, EntryId;
    var n := Ops.ImportServer(x.h, d, x.device, keys, l);
    forall cid | cid in d.credentials ensures cid in n.credentials && n.credentials[cid] == d.credentials[cid] {
      SameCredentials(x, d, n, l, keys, cid);
    }
    assert ImportOne(x, d, l, keys).0.credentials == n.credentials;
    assert forall cid | cid in d.credentials :: SameSecret(d.credentials[cid], n.credentials[cid]);
  }

  lemma SameCredentials(x: Setting, d: Data, n: Data, l: Ops.Local, keys: bool, cid: string)
    requires Injective(x.h) && Ops.WellFormed(x.h, d) && Ops.WellFormed(x.h, n) && cid in d.credentials
    requires Effects.Imported(x.h, d, n, x.device, keys, l)
    ensures cid in n.credentials && n.credentials[cid] == d.credentials[cid]
  {
    hide CleanServer, EntryId, Ops.SlotOk;
    assert x.h.credential(d.credentials[cid]) == cid;
    assert Get(n.credentials, cid) == Get(d.credentials, cid);
  }

  /** The entry offers every key that the stored secrets prove, and their password. */
  ghost predicate OffersStored(x: Setting, out: Data, id: string, auth: string, cs: seq<Secret>) {
    && (forall c | c in cs && c.key != [] && auth in {AuthKey, AuthAgent} ::
          x.w.prove(c).Some? && Offers(out, id, Credential("key", c.key, c.passphrase, "", x.w.prove(c).value)))
    && (forall c | c in cs && c.password != "" && auth == AuthPassword ::
          Offers(out, id, Credential("password", [], [], c.password, "")))
  }

  /** The records an import is for: local connections of this vault's owner, neither deleted nor in conflict, whose
      credential is not withdrawn. Each is listed under its alias, and its entry offers all that is stored for it. */
  lemma TakesOffers(x: Setting, d: Data, r: Record, out: Data, goes: bool)
    requires Injective(x.h) && Ops.WellFormed(x.h, d) && Takes(x, d, r, out, goes)
    ensures KeepsSecrets(d, out)
    ensures forall s | goes && r.local.server == Some(s) && s.cloudEntry == "" && s.cloudVault in {"", x.owner} ::
              var id := EntryId(x.h, CleanServer(s));
              s.auth != AuthCloud && id !in d.deleted && id !in d.conflicts
              && !(x.includeKeys && r.stored.Error? && r.stored.error.Inactive?) ==>
                && Listed(out, id, r.local.alias)
                && (x.includeKeys && r.stored.Done? ==> OffersStored(x, out, id, s.auth, r.stored.value))
  {
    if Eligible(x, d, r.local.server) { EligibleOffers(x, d, r, out, goes); }
    else { SecretsStay(d); }
  }

  lemma EligibleOffers(x: Setting, d: Data, r: Record, out: Data, goes: bool)
    requires Injective(x.h) && Ops.WellFormed(x.h, d) && Takes(x, d, r, out, goes)
    requires r.local.server.Some? && Eligible(x, d, r.local.server)
    ensures KeepsSecrets(d, out)
    ensures var s := r.local.server.value;
            var id := EntryId(x.h, CleanServer(s));
            goes && !(x.includeKeys && r.stored.Error? && r.stored.error.Inactive?) ==>
              && Listed(out, id, r.local.alias)
              && (x.includeKeys && r.stored.Done? ==> OffersStored(x, out, id, s.auth, r.stored.value))
  {
    hide ImportOne, KeepsSecrets, Ops.WellFormed, OffersStored, Exports, TakesExport, CleanServer, EntryId, Injective;
    hide Listed, Eligible;
    ImportOneKeepsSecrets(x, d, r.local, x.includeKeys);
    SecretsStay(d);
    if ImportOne(x, d, r.local, x.includeKeys).1 { ImportedIsListed(x, d, r.local, x.includeKeys); }
    if x.includeKeys && r.stored.Done? {
      if r.stored.value == [] {
        NothingStored(x, out, EntryId(x.h, CleanServer(r.local.server.value)), r.local.server.value.auth);
      } else {
        var cs :| Exports(x.w, r.local.server.value.auth, r.stored.value, cs) && TakesExport(x, d, r, cs, out, goes);
        ExportOffers(x, d, r, cs, out, goes);
      }
    } else if out != d {
      assert out == ImportOne(x, d, r.local, x.includeKeys).0;
    }
  }

  lemma NothingStored(x: Setting, out: Data, id: string, auth: string)
    ensures OffersStored(x, out, id, auth, [])
  {}

  lemma SecretsStay(d: Data)
    ensures KeepsSecrets(d, d)
  {
    assert forall cid | cid in d.credentials :: SameSecret(d.credentials[cid], d.credentials[cid]);
  }

  lemma ExportOffers(x: Setting, d: Data, r: Record, cs: Option<seq<Credential>>, out: Data, goes: bool)
    requires Injective(x.h) && Ops.WellFormed(x.h, d) && Eligible(x, d, r.local.server) && r.stored.Done?
    requires Exports(x.w, r.local.server.value.auth, r.stored.value, cs) && TakesExport(x, d, r, cs, out, goes)
    ensures KeepsSecrets(d, out)
    ensures goes ==>
              && Listed(out, EntryId(x.h, CleanServer(r.local.server.value)), r.local.alias)
              && OffersStored(x, out, EntryId(x.h, CleanServer(r.local.server.value)), r.local.server.value.auth,
                              r.stored.value)
  {
    SecretsStay(d);
    ImportOneKeepsSecrets(x, d, r.local, false);
    ImportOneKeeps(x, d, r.local, false);
    hide ImportOne, KeepsSecrets, Ops.WellFormed, Offers, Exports, CleanServer, EntryId, ProtectAll, Eligible;
    var id := EntryId(x.h, CleanServer(r.local.server.value));
    var (n, ok) := ImportOne(x, d, r.local, false);
    if cs.Some? && ok {
      ImportedIsListed(x, d, r.local, false);
      ProtectAllOffers(x, n, id, cs.value);
      KeepsSecretsChains(d, n, out);
      ExportsAll(x.w, r.local.server.value.auth, r.stored.value, cs);
    }
  }

  lemma {:induction false} KeyListHas(w: World, auth: string, cs: seq<Secret>, c: Secret)
    requires c in cs && TakesKey(auth, c) && w.prove(c).Some?
    ensures Credential("key", c.key, c.passphrase, "", w.prove(c).value) in KeyList(w, auth, cs)
    decreases |cs|
  {
    assert cs == [cs[0]] + cs[1..];
    if c != cs[0] { KeyListHas(w, auth, cs[1..], c); }
  }

  /** All keys are exported, each with the fingerprint it proves, and the one password. */
  lemma ExportsAll(w: World, auth: string, cs: seq<Secret>, r: Option<seq<Credential>>)
    requires Exports(w, auth, cs, r) && r.Some?
    ensures forall c | c in cs && c.key != [] && auth in {AuthKey, AuthAgent} ::
              w.prove(c).Some? && Credential("key", c.key, c.passphrase, "", w.prove(c).value) in r.value
    ensures forall c | c in cs && c.password != "" && auth == AuthPassword ::
              Credential("password", [], [], c.password, "") in r.value
  {
    forall c | c in cs && c.key != [] && auth in {AuthKey, AuthAgent}
      ensures w.prove(c).Some? && Credential("key", c.key, c.passphrase, "", w.prove(c).value) in r.value
    {
      assert TakesKey(auth, c);
      KeyListHas(w, auth, cs, c);
    }
    forall c | c in cs && c.password != "" && auth == AuthPassword
      ensures Credential("password", [], [], c.password, "") in r.value
    {
      var passwords := PasswordsOf(auth, cs);
      assert c.password in passwords;
      var last := r.value[|r.value| - 1];
      if |passwords| == 1 { Singleton(passwords, c.password); }
      assert last == Credential("password", [], [], last.password, "") && last in r.value;
    }
  }

  /** No import loses a secret: what goes is at most a key that was locked when it was stored, for the same key. */
  lemma {:induction false} NoSecretIsLost(x: Setting, d: Data, rs: seq<Record>, out: Data, goes: bool)
    requires Injective(x.h) && Ops.WellFormed(x.h, d) && TakesAll(x, d, rs, out, goes)
    ensures KeepsSecrets(d, out)
    decreases |rs|
  {
    if rs == [] {
      assert forall cid | cid in d.credentials :: SameSecret(d.credentials[cid], d.credentials[cid]);
    } else {
      hide Takes, Ops.WellFormed, KeepsSecrets;
      var before, last := rs[..|rs| - 1], rs[|rs| - 1];
      var m :| TakesAll(x, d, before, m, true) && Takes(x, m, last, out, goes);
      NoSecretIsLost(x, d, before, m, true);
      ImportProtectedKeeps(x, d, before, m, true);
      TakesOffers(x, m, last, out, goes);
      KeepsSecretsChains(d, m, out);
    }
  }

  lemma TakesAllAppend(x: Setting, d: Data, rs: seq<Record>, m: Data, r: Record, out: Data, goes: bool)
    requires TakesAll(x, d, rs, m, true) && Takes(x, m, r, out, goes)
    ensures TakesAll(x, d, rs + [r], out, goes)
  {
    hide Takes;
    assert (rs + [r])[..|rs|] == rs;
  }

  // --- the code ---

  method ImportSingle(x: Setting, v: VaultData, l: Ops.Local, keys: bool) returns (ok: bool)
    modifies v
    ensures (v.Value(), ok) == ImportOne(x, old(v.Value()), l, keys)
  {
    hide Valid;
    ok := v.ImportRecord(x.h, x.device, keys, l);
    if !ok {
      return;
    }
    var _ := v.Observe(x.h, l.server, x.now);
    ok := Valid(v.Value(), x.now);
  }

  method ProtectEach(x: Setting, v: VaultData, id: string, cs: seq<Credential>)
    requires id in v.entries
    modifies v
    ensures v.Value() == ProtectAll(x, old(v.Value()), id, cs)
  {
    for i := 0 to |cs|
      invariant id in v.entries
      invariant ProtectAll(x, old(v.Value()), id, cs) == ProtectAll(x, v.Value(), id, cs[i..])
    {
      assert cs[i..][1..] == cs[i + 1..];
      StillThere(x, v.Value(), id, cs[i]);
      v.ProtectCredential(x.h, x.parses, id, cs[i]);
    }
  }

  lemma StillThere(x: Setting, d: Data, id: string, c: Credential)
    requires id in d.entries
    ensures Get(Ops.Protect(x.h, d, x.parses, id, c).entries, id).Some?
    ensures Ops.Protect(x.h, d, x.parses, id, c).entries[id].aliases == d.entries[id].aliases
  {
    var ids := d.entries[id].credentialIds;
    var e := d.entries[id].(credentialIds := Union(Ops.Kept(x.h, d, x.parses, c, ids), [x.h.credential(c)]));
    var attached := d.(credentials := d.credentials[x.h.credential(c) := c], entries := d.entries[id := e]);
    Ops.PruneAllSlots(attached, Ops.Dropped(x.h, d, x.parses, c, ids));
  }

  lemma ImportedIsListed(x: Setting, d: Data, l: Ops.Local, keys: bool)
    requires Eligible(x, d, l.server) && ImportOne(x, d, l, keys).1
    ensures Listed(ImportOne(x, d, l, keys).0, EntryId(x.h, CleanServer(l.server.value)), l.alias)
  {
    var n := Ops.ImportServer(x.h, d, x.device, keys, l);
    var id := EntryId(x.h, CleanServer(l.server.value));
    Effects.ImportIs(x.h, d, x.device, keys, l);
    hide Valid, CleanServer, EntryId, Ops.ImportServer, Ops.Report;
    assert l.alias in SetOf(n.entries[id].aliases);
  }

  /** The body of the loop over aliases. */
  method TakeRecord(x: Setting, v: VaultData, r: Record) returns (goes: bool)
    modifies v
    ensures Takes(x, old(v.Value()), r, v.Value(), goes)
  {
    hide Exports, ImportOne, ProtectAll, CleanServer, EntryId;
    var s := r.local.server;
    if s.None? || s.value.cloudEntry != "" || (s.value.cloudVault != "" && s.value.cloudVault != x.owner)
      || s.value.auth == AuthCloud {
      return true;
    }
    var id := EntryId(x.h, CleanServer(s.value));
    if id in v.deleted || id in v.conflicts {
      return true;
    }
    var cs: seq<Secret> := [];
    if x.includeKeys {
      if r.stored.Error? && r.stored.error.Inactive? {
        return true;
      }
      if r.stored.Error? && !r.stored.error.NotFound? {
        return false;
      }
      if r.stored.Done? {
        cs := r.stored.value;
      }
    }
    if !x.includeKeys || |cs| == 0 {
      goes := ImportSingle(x, v, r.local, x.includeKeys);
      return;
    }
    var imported := ProtectedCredentials(x.w, s.value.auth, cs);
    if imported.None? {
      return false;
    }
    var ok := ImportSingle(x, v, r.local, false);
    if !ok {
      return false;
    }
    ImportedIsListed(x, old(v.Value()), r.local, false);
    ProtectEach(x, v, id, imported.value);
    goes := true;
  }

  /** The records in the order of their aliases. */
  ghost function InOrder(records: map<string, Record>): seq<Record> {
    var aliases := Ascending(records.Keys);
    seq(|aliases|, i requires 0 <= i < |aliases| => assert aliases[i] in SetOf(aliases); records[aliases[i]])
  }

  /** `ImportProtected`, up to its closing activity import: the records in the order of their aliases,
      until one stops it; the vault stays well formed, and no tombstone or conflict is touched. */
  method ImportRecords(x: Setting, v: VaultData, records: map<string, Record>) returns (ok: bool, ghost taken: nat)
    modifies v
    ensures taken <= |InOrder(records)| && TakesAll(x, old(v.Value()), InOrder(records)[..taken], v.Value(), ok)
    ensures ok ==> taken == |InOrder(records)|
    ensures old(Ops.WellFormed(x.h, v.Value())) ==>
              Ops.WellFormed(x.h, v.Value()) && v.deleted == old(v.deleted) && v.conflicts == old(v.conflicts)
    ensures old(Ops.WellFormed(x.h, v.Value())) && Injective(x.h) ==> KeepsSecrets(old(v.Value()), v.Value())
  {
    ghost var was := v.Value();
    hide Takes, Ops.WellFormed, KeepsSecrets;
    var aliases := SortedKeys(records.Keys);
    assert forall i | 0 <= i < |aliases| :: aliases[i] in SetOf(aliases);
    var rs := seq(|aliases|, i requires 0 <= i < |aliases| => records[aliases[i]]);
    assert rs == InOrder(records);
    hide InOrder;
    ok, taken := ImportList(x, v, rs);
    if Ops.WellFormed(x.h, was) {
      ImportProtectedKeeps(x, was, rs[..taken], v.Value(), ok);
      if Injective(x.h) { NoSecretIsLost(x, was, rs[..taken], v.Value(), ok); }
    }
  }

  method ImportList(x: Setting, v: VaultData, rs: seq<Record>) returns (ok: bool, ghost taken: nat)
    modifies v
    ensures taken <= |rs| && TakesAll(x, old(v.Value()), rs[..taken], v.Value(), ok) && (ok ==> taken == |rs|)
  {
    hide Takes;
    taken := 0;
    ok := true;
    assert rs[..0] == [];
    for i := 0 to |rs|
      invariant taken == i && ok && TakesAll(x, old(v.Value()), rs[..i], v.Value(), true)
    {
      ghost var m := v.Value();
      ok := TakeRecord(x, v, rs[i]);
      assert rs[..i + 1] == rs[..i] + [rs[i]];
      TakesAllAppend(x, old(v.Value()), rs[..i], m, rs[i], v.Value(), ok);
      taken := i + 1;
      if !ok {
        return;
      }
    }
  }
}
