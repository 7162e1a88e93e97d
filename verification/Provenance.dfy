/** Source keys over the life of a vault: every operation makes them so that merges lose no
    provenance and do not depend on the map order (internal/cloudsync/data.go). */
module Provenance {
  import opened Text
  import opened Vault
  import opened Merge
  import opened Sources
  import opened MergeLaws
  import opened VaultOps

  /** Operations other than an import and a merge leave the sources of every entry alone, or drop
      them with the entry. */
  ghost predicate SameSources(d: Data, out: Data) {
    forall id, e | e in Mentions(SlotAt(out, id)) ::
      e.sources == map[] || exists f :: f in Mentions(SlotAt(d, id)) && f.sources == e.sources
  }

  lemma SameSourcesKeep(h: Digests, d: Data, out: Data)
    requires WellKeyedVault(h, d) && SameSources(d, out)
    ensures WellKeyedVault(h, out)
  {
    forall id, e | e in Mentions(SlotAt(out, id)) ensures WellKeyed(h, e.sources) {
      assert WellKeyedSlot(h, SlotAt(d, id));
      if e.sources != map[] {
        var f :| f in Mentions(SlotAt(d, id)) && f.sources == e.sources;
      }
    }
  }

  lemma PutEntrySources(d: Data, out: Data, id: string, e: Entry)
    requires out == d.(entries := d.entries[id := e], credentials := out.credentials, deleted := out.deleted,
                       activity := out.activity)
    requires e.sources == if id in d.entries then d.entries[id].sources else map[]
    ensures SameSources(d, out)
  {
    forall i, f | f in Mentions(SlotAt(out, i))
      ensures f.sources == map[] || exists g :: g in Mentions(SlotAt(d, i)) && g.sources == f.sources
    {
      if f in Mentions(SlotAt(d, i)) {
      } else if id in d.entries {
        assert d.entries[id] in Mentions(SlotAt(d, id));
      }
    }
  }

  lemma FewerMentions(d: Data, out: Data)
    requires forall id, e | e in Mentions(SlotAt(out, id)) :: e in Mentions(SlotAt(d, id))
    ensures SameSources(d, out)
  {}

  lemma ProtectSources(h: Digests, d: Data, parses: Bytes -> bool, id: string, c: Credential)
    ensures SameSources(d, Protect(h, d, parses, id, c))
  {
    if id in d.entries {
      var cid := h.credential(c);
      var ids := d.entries[id].credentialIds;
      var e := d.entries[id].(credentialIds := Union(VaultOps.Kept(h, d, parses, c, ids), [cid]));
      var attached := d.(credentials := d.credentials[cid := c], entries := d.entries[id := e]);
      PruneAllSlots(attached, Dropped(h, d, parses, c, ids));
      PutEntrySources(d, Protect(h, d, parses, id, c), id, e);
    } else {
      FewerMentions(d, d);
    }
  }

  lemma AddDeviceSources(h: Digests, d: Data, device: Device, name: string, description: string)
    requires AddDevice(h, d, device, name, description).Some?
    ensures SameSources(d, AddDevice(h, d, device, name, description).value)
  {
    hide SameSources;
    var n := DeviceName(device, name);
    var s := DeviceServer(device, n, description);
    var id := EntryId(h, s);
    hide VaultOps.DeviceName, VaultOps.DeviceServer, VaultOps.DeviceRefused, VaultOps.DeviceActivity;
    PutEntrySources(d, AddDevice(h, d, device, name, description).value, id,
                    DeviceEntry(Get(d.entries, id), id, n, description, s));
  }

  lemma ResolveSources(d: Data, id: string, side: Side)
    requires Resolve(d, id, side).Some?
    ensures SameSources(d, Resolve(d, id, side).value)
  {
    hide SameSources;
    FewerMentions(d, Resolve(d, id, side).value);
  }

  lemma EditSources(h: Digests, op: Op, d: Data, out: Data)
    requires Step(h, op, d, out) && !op.OpImport? && !op.OpRepair? && !op.OpMerge?
    ensures SameSources(d, out)
  {
    hide SameSources, VaultOps.AddDevice, VaultOps.Resolve, VaultOps.Protect;
    if out == d {
      FewerMentions(d, out);
    } else {
      match op
      case OpSetPassword(id, password) => PutEntrySources(d, out, id, out.entries[id]);
      case OpAddDevice(device, name, description) => AddDeviceSources(h, d, device, name, description);
      case OpResolve(id, side) => ResolveSources(d, id, side);
      case OpProtect(parses, id, c) => ProtectSources(h, d, parses, id, c);
      case _ => FewerMentions(d, out);
    }
  }

  // --- imports ---

  /** The record enters the vault, at least with its provenance. */
  predicate Imports(h: Digests, d: Data, includeKeys: bool, l: Local) {
    && Importable(h, d, l.server)
    && (l.server.value.auth == AuthKey && includeKeys && l.key.Unreadable? ==>
          EntryId(h, CleanServer(l.server.value)) in d.entries)
  }

  /** The alias of an imported record is not the digest of another source. */
  ghost predicate OwnAlias(h: Digests, device: string, l: Local) {
    l.server.Some? ==>
      forall v {:trigger h.source(v)} :: h.source(v) == l.alias ==>
        v == Source(device, l.alias, CleanServer(l.server.value))
  }

  lemma ImportedSources(h: Digests, d: Data, device: string, includeKeys: bool, l: Local)
    requires Imports(h, d, includeKeys, l)
    ensures var s := CleanServer(l.server.value);
            var id := EntryId(h, s);
            var out := ImportServer(h, d, device, includeKeys, l);
            && out == d.(entries := out.entries, credentials := out.credentials)
            && id in out.entries && out.entries == d.entries[id := out.entries[id]]
            && out.entries[id].sources ==
               (if id in d.entries then d.entries[id].sources
                else map[])[h.pair(device, l.alias) := Source(device, l.alias, s)]
  {}

  /** Exactly when an import leaves the vault's source keys in order. */
  lemma ImportKeepsSourceKeysIff(h: Digests, d: Data, device: string, includeKeys: bool, l: Local)
    requires Injective(h) && WellKeyedVault(h, d)
    ensures WellKeyedVault(h, ImportServer(h, d, device, includeKeys, l)) <==>
              !Imports(h, d, includeKeys, l) || OwnAlias(h, device, l)
  {
    if Imports(h, d, includeKeys, l) {
      var s := CleanServer(l.server.value);
      var id := EntryId(h, s);
      var out := ImportServer(h, d, device, includeKeys, l);
      ImportedSources(h, d, device, includeKeys, l);
      hide VaultOps.ImportServer, VaultOps.Importable;
      var was := if id in d.entries then d.entries[id].sources else map[];
      var e := out.entries[id];
      assert WellKeyedSlot(h, SlotAt(d, id));
      assert WellKeyed(h, was) by { if id in d.entries { assert d.entries[id] in Mentions(SlotAt(d, id)); } }
      NotedKeys(h, was, device, l.alias, Source(device, l.alias, s));
      assert WellKeyedVault(h, out) ==> WellKeyed(h, e.sources) by {
        assert e in Mentions(SlotAt(out, id));
        if WellKeyedVault(h, out) { assert WellKeyedSlot(h, SlotAt(out, id)); }
      }
      if WellKeyed(h, e.sources) {
        forall i, f | f in Mentions(SlotAt(out, i)) ensures WellKeyed(h, f.sources) {
          assert WellKeyedSlot(h, SlotAt(d, i));
          assert f == e || f in Mentions(SlotAt(d, i));
        }
      }
    } else {
      assert ImportServer(h, d, device, includeKeys, l) == d;
    }
  }

  lemma NotedKeys(h: Digests, was: Map, device: string, alias: string, source: Source)
    requires Injective(h) && WellKeyed(h, was)
    ensures WellKeyed(h, was[h.pair(device, alias) := source]) <==>
              forall v {:trigger h.source(v)} :: h.source(v) == alias ==> v == source
  {
    var key := h.pair(device, alias);
    var now := was[key := source];
    if WellKeyed(h, now) {
      forall v | h.source(v) == alias ensures v == source {
        assert h.pair(device, h.source(v)) == key;
      }
    }
    if forall v {:trigger h.source(v)} :: h.source(v) == alias ==> v == source {
      forall k, v | h.pair(k, h.source(v)) in now ensures now[h.pair(k, h.source(v))] == v {
        if h.pair(k, h.source(v)) == key { assert h.source(v) == alias; }
      }
    }
  }

  // --- histories ---

  /** What an operation brings in from outside has its source keys in order. */
  ghost predicate Proper(h: Digests, op: Op) {
    && (op.OpMerge? ==> WellKeyedVault(h, op.remote))
    && (op.OpImport? ==> OwnAlias(h, op.deviceId, op.record))
  }

  lemma MergedKeepsSourceKeys(h: Digests, b: Data, l: Data, r: Data, out: Data)
    requires Injective(h) && WellKeyedVault(h, l) && WellKeyedVault(h, r) && Merged(h, b, l, r, out)
    ensures WellKeyedVault(h, out)
  {
    hide MergeLaws.WellKeyedSlot;
    forall id ensures WellKeyedSlot(h, SlotAt(out, id)) {
      assert SettlesSlot(h, SlotAt(b, id), SlotAt(l, id), SlotAt(r, id), SlotAt(out, id));
      assert WellKeyedSlot(h, SlotAt(l, id)) && WellKeyedSlot(h, SlotAt(r, id));
      MergeKeepsSourceKeys(h, SlotAt(b, id), SlotAt(l, id), SlotAt(r, id), SlotAt(out, id));
    }
  }

  lemma RepairsKeepSourceKeys(h: Digests, d: Data, out: Data)
    requires Injective(h) && WellKeyedVault(h, d) && Repairs(h, d, out)
    ensures WellKeyedVault(h, out)
  {
    hide MergeLaws.WellKeyedSlot, Merge.RepairsSlot;
    forall id ensures WellKeyedSlot(h, SlotAt(out, id)) {
      assert WellKeyedSlot(h, SlotAt(d, id)) && RepairsSlot(h, SlotAt(d, id), SlotAt(out, id));
      RepairKeepsSourceKeys(h, SlotAt(d, id), SlotAt(out, id));
    }
  }

  lemma StepKeepsSourceKeys(h: Digests, op: Op, d: Data, out: Data)
    requires Injective(h) && WellKeyedVault(h, d) && Step(h, op, d, out) && Proper(h, op)
    ensures WellKeyedVault(h, out)
  {
    hide MergeLaws.WellKeyedVault, VaultOps.ImportServer, VaultOps.Repairs, Merge.Merged, Injective, Vault.Valid,
      VaultOps.AddDevice;
    if op.OpImport? {
      ImportKeepsSourceKeysIff(h, d, op.deviceId, op.includeKeys, op.record);
    } else if op.OpRepair? {
      RepairsKeepSourceKeys(h, d, out);
    } else if op.OpMerge? {
      var res :| Merges(h, op.at, op.base, d, op.remote, res) && out == if res.Ok? then res.data else d;
      if res.Ok? { MergedKeepsSourceKeys(h, op.base, d, op.remote, out); }
    } else {
      EditSources(h, op, d, out);
      SameSourcesKeep(h, d, out);
    }
  }

  lemma {:induction false} HistoryKeepsSourceKeys(h: Digests, ops: seq<Op>, states: seq<Data>)
    requires Injective(h) && History(h, ops, states) && WellKeyedVault(h, states[0]) && forall op | op in ops ::
               Proper(h, op)
    ensures forall i | 0 <= i < |states| :: WellKeyedVault(h, states[i])
    decreases |ops|
  {
    hide VaultOps.Step, Proper, MergeLaws.WellKeyedVault, VaultOps.WellFormed;
    if ops != [] {
      var n := |ops| - 1;
      var before := states[..n + 1];
      assert forall i | 0 <= i < n :: Step(h, ops[..n][i], before[i], before[i + 1]);
      HistoryKeepsSourceKeys(h, ops[..n], before);
      assert WellKeyedVault(h, before[n]) && Proper(h, ops[n]);
      StepKeepsSourceKeys(h, ops[n], states[n], states[n + 1]);
      forall i | 0 <= i < |states| ensures WellKeyedVault(h, states[i]) {
        if i <= n { assert states[i] == before[i]; }
      }
    }
  }

  /** In every history of a vault from a new one, a merge has one result whatever the map order, and an
      entry that it adds up holds the sources of both sides. */
  lemma HistoryMergesAgree(h: Digests, ops: seq<Op>, states: seq<Data>, i: nat, res: MergeResult, other: MergeResult)
    requires Injective(h) && History(h, ops, states) && states[0] == EmptyData && forall op | op in ops :: Proper(h, op)
    requires i < |ops| && ops[i].OpMerge?
    requires Merges(h, ops[i].at, ops[i].base, states[i], ops[i].remote, res)
    requires Merges(h, ops[i].at, ops[i].base, states[i], ops[i].remote, other)
    ensures res == other
    ensures res.Ok? ==>
              var b, l, r := ops[i].base, states[i], ops[i].remote;
              forall id | id in res.data.entries && Adds(SlotAt(b, id), SlotAt(l, id), SlotAt(r, id)) ::
                l.entries[id].sources.Values + r.entries[id].sources.Values <= res.data.entries[id].sources.Values
  {
    assert WellKeyedVault(h, EmptyData);
    HistoryKeepsSourceKeys(h, ops, states);
    var b, l, r := ops[i].base, states[i], ops[i].remote;
    assert Proper(h, ops[i]);
    if !CredentialClash(l, r) {
      var out :| Merged(h, b, l, r, out) && res == if Valid(out, ops[i].at) then MergeResult.Ok(out) else Invalid;
      var out' :| Merged(h, b, l, r, out') && other == if Valid(out', ops[i].at) then MergeResult.Ok(out') else Invalid;
      WellKeyedMergesAgree(h, b, l, r, out, out');
      forall id | id in out.entries && Adds(SlotAt(b, id), SlotAt(l, id), SlotAt(r, id))
        ensures l.entries[id].sources.Values + r.entries[id].sources.Values <= out.entries[id].sources.Values
      {
        assert WellKeyedSlot(h, SlotAt(l, id)) && WellKeyedSlot(h, SlotAt(r, id));
        MergeKeepsSourceKeys(h, SlotAt(b, id), SlotAt(l, id), SlotAt(r, id), SlotAt(out, id));
      }
    }
  }
}
