/** The vault's code in its own, imperative form: Go ranges over maps in arbitrary order, so every
    such loop picks any remaining key. Each method is tied to the relations of `Merge` and `VaultOps`. */
module VaultCode {
  import opened Text
  import opened Observations
  import opened Vault
  import opened Merge
  import Ops = VaultOps
  import Outcomes
  import Effects

  // --- mergeAdditions ---

  lemma {:induction false} AddSourcesAppend(h: Digests, a: map<string, Source>, out: map<string, Source>,
                                            order: seq<string>, k: string)
    requires (forall j | j in order :: j in a) && k in a
    ensures AddSources(h, a, out, order + [k]) == AddSource(h, k, a[k], AddSources(h, a, out, order))
    decreases |order|
  {
    if order == [] {
      assert (order + [k])[1..] == [];
    } else {
      assert (order + [k])[1..] == order[1..] + [k];
      AddSourcesAppend(h, a, AddSource(h, order[0], a[order[0]], out), order[1..], k);
    }
  }

  method CopyMap<V>(m: map<string, V>) returns (out: map<string, V>)
    ensures out == m
  {
    out := map[];
    var left := m.Keys;
    while left != {}
      invariant left <= m.Keys && out.Keys == m.Keys - left
      invariant forall k | k in out :: out[k] == m[k]
      decreases left
    {
      var k :| k in left;
      out := out[k := m[k]];
      left := left - {k};
    }
  }

  method MergeAdditions(h: Digests, a: Entry, b: Entry) returns (m: Entry)
    ensures MergesAdditions(h, a, b, m)
  {
    var aliases := UnionStrings(a.aliases, b.aliases);
    var ids := UnionStrings(a.credentialIds, b.credentialIds);
    var sources := CopyMap(b.sources);
    var left := a.sources.Keys;
    ghost var order: seq<string> := [];
    while left != {}
      invariant left <= a.sources.Keys && Enumerates(order, a.sources.Keys - left)
      invariant forall k | k in order :: k in a.sources
      invariant sources == AddSources(h, a.sources, b.sources, order)
      decreases left
    {
      var k :| k in left;
      AddSourcesAppend(h, a.sources, b.sources, order, k);
      if k in sources && sources[k] != a.sources[k] {
        sources := sources[h.pair(k, h.source(a.sources[k])) := a.sources[k]];
      } else {
        sources := sources[k := a.sources[k]];
      }
      assert k !in SetOf(order);
      assert SetOf(order + [k]) == SetOf(order) + {k};
      order := order + [k];
      left := left - {k};
    }
    m := b.(aliases := aliases, credentialIds := ids, sources := sources);
    assert a.sources.Keys - left == a.sources.Keys;
    assert m == Additions(h, a, b, order);
  }

  // --- the parts of Merge ---

  method AddHardware(start: map<string, Option<Sample>>, src: map<string, Option<Sample>>)
    returns (out: map<string, Option<Sample>>)
    ensures out.Keys == start.Keys + src.Keys
    ensures forall id | id in out ::
              out[id] == if id in src then Newer(if id in start then start[id] else None, src[id]) else start[id]
  {
    out := start;
    var left := src.Keys;
    while left != {}
      invariant left <= src.Keys && out.Keys == start.Keys + (src.Keys - left)
      invariant forall id | id in out ::
                  out[id] == if id in src && id !in left then Newer(if id in start then start[id] else None, src[id])
                             else start[id]
      decreases left
    {
      var id :| id in left;
      out := out[id := Newer(if id in out then out[id] else None, src[id])];
      left := left - {id};
    }
  }

  method AddActivity(start: map<string, Activity>, src: map<string, Activity>) returns (out: map<string, Activity>)
    ensures out.Keys == start.Keys + src.Keys
    ensures forall id | id in out ::
              out[id] == if id in src then MergeActivity(if id in start then start[id] else NoActivity, src[id])
                         else start[id]
  {
    out := start;
    var left := src.Keys;
    while left != {}
      invariant left <= src.Keys && out.Keys == start.Keys + (src.Keys - left)
      invariant forall id | id in out ::
                  out[id] == if id in src && id !in left then
                               MergeActivity(if id in start then start[id] else NoActivity, src[id])
                             else start[id]
      decreases left
    {
      var id :| id in left;
      out := out[id := MergeActivity(if id in out then out[id] else NoActivity, src[id])];
      left := left - {id};
    }
  }

  method AddCredentials(start: map<string, Credential>, src: map<string, Credential>)
    returns (ok: bool, out: map<string, Credential>)
    ensures ok <==> forall id | id in start && id in src :: start[id] == src[id]
    ensures ok ==> out == start + src
  {
    out, ok := start, true;
    var left := src.Keys;
    while left != {}
      invariant left <= src.Keys && out.Keys == start.Keys + (src.Keys - left)
      invariant forall id | id in start && id in src && id !in left :: start[id] == src[id]
      invariant forall id | id in out :: out[id] == if id in src && id !in left then src[id] else start[id]
      decreases left
    {
      var id :| id in left;
      if id in out && out[id] != src[id] {
        ok := false;
        return;
      }
      out := out[id := src[id]];
      left := left - {id};
    }
  }

  method MergeDeleted(b: set<string>, l: set<string>, r: set<string>) returns (out: set<string>)
    ensures forall id :: id in out <==> Choose(id in b, id in l, id in r)
  {
    out := {};
    var left := b + l + r;
    while left != {}
      invariant left <= b + l + r
      invariant forall id :: id in out <==> id in b + l + r && id !in left && Choose(id in b, id in l, id in r)
      decreases left
    {
      var id :| id in left;
      var chosen := id in r;
      if (id in l) == (id in r) || (id in r) == (id in b) {
        chosen := id in l;
      }
      if chosen {
        out := out + {id};
      }
      left := left - {id};
    }
  }

  method MergeConflicts(b: map<string, Conflict>, l: map<string, Conflict>, r: map<string, Conflict>)
    returns (out: map<string, Conflict>)
    ensures forall id :: Get(out, id) == Choose(Get(b, id), Get(l, id), Get(r, id))
  {
    out := map[];
    var all := b.Keys + l.Keys + r.Keys;
    var left := all;
    while left != {}
      invariant left <= all
      invariant forall id | id !in left :: Get(out, id) == Choose(Get(b, id), Get(l, id), Get(r, id))
      invariant forall id | id in left :: id !in out
      decreases left
    {
      var id :| id in left;
      var chosen := Get(r, id);
      if Get(l, id) == Get(r, id) || Get(b, id) == Get(r, id) {
        chosen := Get(l, id);
      }
      if chosen.Some? {
        out := out[id := chosen.value];
      }
      left := left - {id};
    }
  }

  lemma SelectedAs(h: Digests, b: Option<Entry>, l: Option<Entry>, r: Option<Entry>)
    ensures forall s, clash | Selects(h, b, l, r, s, clash) ::
              && (clash <==> Outcomes.Disagree(h, b, l, r)) && (s.Some? <==> Outcomes.Latest(b, l, r).Some?)
              && (s.Some? ==>
                    && s.value.id == Outcomes.Latest(b, l, r).value.id
                    && s.value.server == Outcomes.Latest(b, l, r).value.server)
  {
    forall s, clash | Selects(h, b, l, r, s, clash)
      ensures (clash <==> Outcomes.Disagree(h, b, l, r)) && (s.Some? <==> Outcomes.Latest(b, l, r).Some?)
      ensures s.Some? ==> s.value.id == Outcomes.Latest(b, l, r).value.id
                          && s.value.server == Outcomes.Latest(b, l, r).value.server
    {
      Outcomes.Selected(h, b, l, r, s, clash);
    }
  }

  /** The entry loop's `switch`: it reports a clash exactly if the sides disagree. */
  method Select(h: Digests, b: Option<Entry>, l: Option<Entry>, r: Option<Entry>)
    returns (selected: Option<Entry>, clash: bool)
    ensures Selects(h, b, l, r, selected, clash)
    ensures clash <==> Outcomes.Disagree(h, b, l, r)
    ensures var latest := Outcomes.Latest(b, l, r);
            && (selected.Some? <==> latest.Some?)
            && (selected.Some? ==> selected.value.id == latest.value.id && selected.value.server == latest.value.server)
  {
    SelectedAs(h, b, l, r);
    hide Outcomes.Disagree;
    clash := false;
    if l == r {
      selected := l;
    } else if b == l {
      selected := r;
    } else if b == r {
      selected := l;
    } else if CompatibleEntries(l, r) {
      var merged := MergeAdditions(h, l.value, r.value);
      selected := Some(merged);
    } else if b.None? && l.Some? && r.Some? && EntryId(h, l.value.server) == EntryId(h, r.value.server) {
      var aliases := UnionStrings(l.value.aliases, r.value.aliases);
      var ids := UnionStrings(l.value.credentialIds, r.value.credentialIds);
      var sources := CopyMap(r.value.sources);
      sources := Overlay(sources, l.value.sources);
      selected := Some(r.value.(aliases := aliases, credentialIds := ids, sources := sources));
    } else {
      selected, clash := r, true;
    }
  }

  method Overlay<V>(start: map<string, V>, src: map<string, V>) returns (out: map<string, V>)
    ensures out == start + src
  {
    out := start;
    var left := src.Keys;
    while left != {}
      invariant left <= src.Keys && out.Keys == start.Keys + (src.Keys - left)
      invariant forall k | k in out :: out[k] == if k in src && k !in left then src[k] else start[k]
      decreases left
    {
      var k :| k in left;
      out := out[k := src[k]];
      left := left - {k};
    }
  }

  function SlotOf(entries: map<string, Entry>, deleted: set<string>, conflicts: map<string, Conflict>,
                  id: string): Slot {
    Slot(Get(entries, id), id in deleted, Get(conflicts, id))
  }

  lemma SettlesWith(h: Digests, b: Slot, l: Slot, r: Slot, selected: Option<Entry>, clash: bool)
    requires Selects(h, b.entry, l.entry, r.entry, selected, clash)
    ensures MergesSlot(h, b, l, r, Settle(b, l, r, selected, clash))
  {}

  /** The body of the entry loop, on what the three vaults say about one id. */
  method MergeEntry(h: Digests, b: Slot, l: Slot, r: Slot, deleted: bool, kept: Option<Conflict>)
    returns (entry: Option<Entry>, conflict: Option<Conflict>)
    requires deleted == Choose(b.deleted, l.deleted, r.deleted) && kept == Choose(b.conflict, l.conflict, r.conflict)
    ensures MergesSlot(h, b, l, r, Slot(entry, deleted, conflict))
  {
    var selected, clash := Select(h, b.entry, l.entry, r.entry);
    SettlesWith(h, b, l, r, selected, clash);
    entry, conflict := selected, kept;
    if clash {
      conflict := Some(Conflict(l.entry, r.entry));
    }
    if deleted && entry.Some? {
      conflict := Some(Conflict(l.entry, r.entry));
      entry := None;
    }
  }

  method Store(entries: map<string, Entry>, deleted: set<string>, conflicts: map<string, Conflict>,
               id: string, entry: Option<Entry>, conflict: Option<Conflict>)
    returns (outEntries: map<string, Entry>, outConflicts: map<string, Conflict>)
    requires id !in entries
    ensures forall i :: SlotOf(outEntries, deleted, outConflicts, i) ==
                        if i == id then Slot(entry, id in deleted, conflict) else SlotOf(entries, deleted, conflicts, i)
  {
    outEntries := if entry.Some? then entries[id := entry.value] else entries;
    outConflicts := if conflict.Some? then conflicts[id := conflict.value] else conflicts - {id};
  }

  lemma UnlistedMerges(h: Digests, b: Slot, l: Slot, r: Slot)
    requires b.entry == l.entry == r.entry == None
    ensures MergesSlot(h, b, l, r, Slot(None, Choose(b.deleted, l.deleted, r.deleted),
                                        Choose(b.conflict, l.conflict, r.conflict)))
  {
    SettlesWith(h, b, l, r, None, false);
  }

  ghost predicate MergedAt(h: Digests, base: Data, local: Data, remote: Data, id: string, o: Slot) {
    MergesSlot(h, SlotAt(base, id), SlotAt(local, id), SlotAt(remote, id), o)
  }

  /** The tombstones and conflicts already chosen for an id, before its entry is looked at. */
  function Chosen(base: Data, local: Data, remote: Data, id: string): Slot {
    Slot(None, Choose(id in base.deleted, id in local.deleted, id in remote.deleted),
         Choose(Get(base.conflicts, id), Get(local.conflicts, id), Get(remote.conflicts, id)))
  }

  method MergeListed(h: Digests, base: Data, local: Data, remote: Data, deleted: set<string>,
                     entries: map<string, Entry>, conflicts: map<string, Conflict>, id: string)
    returns (outEntries: map<string, Entry>, outConflicts: map<string, Conflict>)
    requires SlotOf(entries, deleted, conflicts, id) == Chosen(base, local, remote, id)
    ensures MergedAt(h, base, local, remote, id, SlotOf(outEntries, deleted, outConflicts, id))
    ensures forall i | i != id :: SlotOf(outEntries, deleted, outConflicts, i) == SlotOf(entries, deleted, conflicts, i)
  {
    var entry, conflict := MergeEntry(h, SlotAt(base, id), SlotAt(local, id), SlotAt(remote, id), id in deleted,
                                      Get(conflicts, id));
    outEntries, outConflicts := Store(entries, deleted, conflicts, id, entry, conflict);
  }

  ghost predicate Progress(h: Digests, base: Data, local: Data, remote: Data, done: set<string>, id: string, o: Slot) {
    if id in done then MergedAt(h, base, local, remote, id, o) else o == Chosen(base, local, remote, id)
  }

  method MergeEntries(h: Digests, base: Data, local: Data, remote: Data, deleted: set<string>,
                      start: map<string, Conflict>)
    returns (entries: map<string, Entry>, conflicts: map<string, Conflict>)
    requires forall id :: SlotOf(map[], deleted, start, id) == Chosen(base, local, remote, id)
    ensures forall id :: MergedAt(h, base, local, remote, id, SlotOf(entries, deleted, conflicts, id))
  {
    entries, conflicts := map[], start;
    var left := base.entries.Keys + local.entries.Keys + remote.entries.Keys;
    ghost var done: set<string> := {};
    while left != {}
      invariant forall id | id !in left && id !in done ::
                  Get(base.entries, id) == Get(local.entries, id) == Get(remote.entries, id) == None
      invariant left !! done
      invariant forall id :: Progress(h, base, local, remote, done, id, SlotOf(entries, deleted, conflicts, id))
      decreases left
    {
      var id :| id in left;
      assert Progress(h, base, local, remote, done, id, SlotOf(entries, deleted, conflicts, id));
      entries, conflicts := MergeListed(h, base, local, remote, deleted, entries, conflicts, id);
      left := left - {id};
      done := done + {id};
    }
    forall id ensures MergedAt(h, base, local, remote, id, SlotOf(entries, deleted, conflicts, id)) {
      FinishedAt(h, base, local, remote, done, id, SlotOf(entries, deleted, conflicts, id));
    }
  }

  lemma FinishedAt(h: Digests, base: Data, local: Data, remote: Data, done: set<string>, id: string, o: Slot)
    requires Progress(h, base, local, remote, done, id, o)
    requires id !in done ==> Get(base.entries, id) == Get(local.entries, id) == Get(remote.entries, id) == None
    ensures MergedAt(h, base, local, remote, id, o)
  {
    if id !in done { UnlistedMerges(h, SlotAt(base, id), SlotAt(local, id), SlotAt(remote, id)); }
  }

  method DropOrphans(activity: map<string, Activity>, kept: set<string>) returns (out: map<string, Activity>)
    ensures out == map id | id in activity.Keys * kept :: activity[id]
  {
    out := activity;
    var left := activity.Keys;
    while left != {}
      invariant left <= activity.Keys && out.Keys == left + activity.Keys * kept
      invariant forall id | id in out :: out[id] == activity[id]
      decreases left
    {
      var id :| id in left;
      if id !in kept {
        out := out - {id};
      }
      left := left - {id};
    }
  }

  method MergeAllHardware(r: map<string, Option<Sample>>, l: map<string, Option<Sample>>)
    returns (out: map<string, Option<Sample>>)
    ensures out == MergeHardware(r, l)
  {
    out := AddHardware(map[], r);
    out := AddHardware(out, l);
  }

  method MergeAllActivity(r: map<string, Activity>, l: map<string, Activity>) returns (out: map<string, Activity>)
    ensures out.Keys == r.Keys + l.Keys
    ensures forall id | id in out :: out[id] == ActivityAt(r, l, id)
  {
    out := AddActivity(map[], r);
    out := AddActivity(out, l);
  }

  method MergeAllCredentials(local: Data, remote: Data) returns (ok: bool, out: map<string, Credential>)
    ensures ok == !CredentialClash(local, remote)
    ensures ok ==> out == remote.credentials + local.credentials
  {
    ok, out := AddCredentials(map[], remote.credentials);
    ok, out := AddCredentials(out, local.credentials);
  }

  method MergeSlots(h: Digests, base: Data, local: Data, remote: Data)
    returns (entries: map<string, Entry>, deleted: set<string>, conflicts: map<string, Conflict>)
    ensures forall id :: MergedAt(h, base, local, remote, id, SlotOf(entries, deleted, conflicts, id))
  {
    deleted := MergeDeleted(base.deleted, local.deleted, remote.deleted);
    var kept := MergeConflicts(base.conflicts, local.conflicts, remote.conflicts);
    entries, conflicts := MergeEntries(h, base, local, remote, deleted, kept);
  }

  /** What becomes of an id, in terms of what the three vaults say about it. */
  ghost predicate SlotSettled(h: Digests, b: Data, l: Data, r: Data, out: Data, id: string) {
    && Outcomes.EntryOutcome(h, SlotAt(b, id), SlotAt(l, id), SlotAt(r, id), SlotAt(out, id))
    && Outcomes.ConflictOutcome(h, SlotAt(b, id), SlotAt(l, id), SlotAt(r, id), SlotAt(out, id))
  }

  lemma AllSettled(h: Digests, b: Data, l: Data, r: Data, out: Data)
    requires Merged(h, b, l, r, out)
    ensures forall id :: SlotSettled(h, b, l, r, out, id)
  {
    forall id ensures SlotSettled(h, b, l, r, out, id) {
      Outcomes.MergedEntries(h, b, l, r, out, id);
      Outcomes.MergedConflicts(h, b, l, r, out, id);
    }
  }

  /** `Merge`. The result is one of those the relation `Merges` allows, for any iteration order. */
  method MergeVaults(h: Digests, now: int, base: Data, local: Data, remote: Data) returns (res: MergeResult)
    ensures Merges(h, now, base, local, remote, res)
    ensures res.ImmutableCredentialConflict? <==>
              exists id :: id in local.credentials && id in remote.credentials
                           && local.credentials[id] != remote.credentials[id]
    ensures res.Ok? ==> forall id :: SlotSettled(h, base, local, remote, res.data, id)
  {
    var hardware := MergeAllHardware(remote.hardware, local.hardware);
    var activity := MergeAllActivity(remote.activity, local.activity);
    var ok, credentials := MergeAllCredentials(local, remote);
    if !ok {
      return ImmutableCredentialConflict;
    }
    var entries, deleted, conflicts := MergeSlots(h, base, local, remote);
    activity := DropOrphans(activity, entries.Keys);
    var out := new VaultData(Data(1, hardware, activity, entries, credentials, deleted, conflicts));
    ghost var mid := out.Value();
    var _ := out.RepairCompatibleConflicts(h);
    Assembled(h, base, local, remote, mid, out.Value());
    AllSettled(h, base, local, remote, out.Value());
    res := if Valid(out.Value(), now) then Ok(out.Value()) else Invalid;
  }

  lemma SettlesVia(h: Digests, b: Slot, l: Slot, r: Slot, mid: Slot, o: Slot)
    requires MergesSlot(h, b, l, r, mid) && RepairsSlot(h, mid, o)
    ensures SettlesSlot(h, b, l, r, o) && (o.entry.Some? <==> mid.entry.Some?)
  {}

  lemma Assembled(h: Digests, base: Data, local: Data, remote: Data, mid: Data, out: Data)
    requires mid.version == 1 && mid.credentials == remote.credentials + local.credentials
    requires mid.hardware == MergeHardware(remote.hardware, local.hardware)
    requires mid.activity.Keys == (remote.activity.Keys + local.activity.Keys) * mid.entries.Keys
    requires forall id | id in mid.activity :: mid.activity[id] == ActivityAt(remote.activity, local.activity, id)
    requires forall id :: MergedAt(h, base, local, remote, id, SlotOf(mid.entries, mid.deleted, mid.conflicts, id))
    requires Ops.Repairs(h, mid, out)
    ensures Merged(h, base, local, remote, out)
  {
    hide Merge.MergesSlot, Merge.RepairsSlot, Merge.SettlesSlot, MergedAt, Merge.ActivityAt, Merge.MergeHardware;
    forall id
      ensures SettlesSlot(h, SlotAt(base, id), SlotAt(local, id), SlotAt(remote, id), SlotAt(out, id))
      ensures id in out.entries <==> id in mid.entries
    {
      AssembledAt(h, base, local, remote, mid, out, id);
    }
    assert out.entries.Keys == mid.entries.Keys;
    assert out.activity == MergeActivities(remote.activity, local.activity, out.entries.Keys);
  }

  lemma AssembledAt(h: Digests, base: Data, local: Data, remote: Data, mid: Data, out: Data, id: string)
    requires MergedAt(h, base, local, remote, id, SlotOf(mid.entries, mid.deleted, mid.conflicts, id))
    requires RepairsSlot(h, SlotAt(mid, id), SlotAt(out, id))
    ensures SettlesSlot(h, SlotAt(base, id), SlotAt(local, id), SlotAt(remote, id), SlotAt(out, id))
    ensures id in out.entries <==> id in mid.entries
  {
    hide Merge.MergesSlot, Merge.RepairsSlot, Merge.SettlesSlot;
    SettlesVia(h, SlotAt(base, id), SlotAt(local, id), SlotAt(remote, id), SlotAt(mid, id), SlotAt(out, id));
  }

  /** Both sides of a repairable conflict added to the current entry. */
  method RepairedEntry(h: Digests, s: Slot) returns (m: Entry)
    requires Repairable(s)
    ensures RepairsSlot(h, s, Slot(Some(m), false, None))
  {
    m := MergeAdditions(h, s.conflict.value.local.value, s.conflict.value.remote.value);
    m := MergeAdditions(h, m, s.entry.value);
  }

  lemma AllRepaired(h: Digests, d: Data, out: Data)
    requires Ops.Repairs(h, d, out)
    ensures forall id :: Outcomes.RepairOutcome(SlotAt(d, id), SlotAt(out, id))
  {
    forall id ensures Outcomes.RepairOutcome(SlotAt(d, id), SlotAt(out, id)) {
      Outcomes.RepairsIff(h, d, out, id);
    }
  }

  // --- the vault as its methods change it ---

  /** What a vault says of all other entries, and what it holds of the devices, is the same. */
  ghost predicate OnlySlot(d: Data, out: Data, id: string) {
    && d.version == out.version && d.hardware == out.hardware && d.activity - {id} == out.activity - {id}
    && forall i | i != id :: SlotAt(out, i) == SlotAt(d, i)
  }

  function DeviceId(h: Digests, device: Ops.Device, name: string, description: string): string {
    EntryId(h, Ops.DeviceServer(device, Ops.DeviceName(device, name), description))
  }

  /** The device is listed as `n`, installed and seen, and nothing else changes. */
  ghost predicate Listed(d: Data, out: Data, device: Ops.Device, n: string, description: string, id: string) {
    && OnlySlot(d, out, id) && out.credentials == d.credentials && out.conflicts == d.conflicts
    && id in out.entries && id !in out.deleted && out.entries[id].aliases == [n]
    && out.entries[id].server.meta.display == n
    && (if id in d.entries then
          && KeepsRest(d.entries[id], out.entries[id])
          && out.entries[id].server.meta.description ==
               (if description == "" then d.entries[id].server.meta.description else description)
        else NewListing(out.entries[id], device, description, id))
    && id in out.activity && Installed(if id in d.activity then d.activity[id]
                                       else NoActivity, out.activity[id], device)
  }

  /** A connection to the device itself, with its group and tags, and without credentials or sources. */
  predicate NewListing(e: Entry, device: Ops.Device, description: string, id: string) {
    && e.id == id && e.credentialIds == [] && e.sources == map[] && e.server.meta.description == description
    && e.server.host == "sshm-device-" + Ops.Hex(device.id) + ".invalid" && e.server.port == 22
    && e.server.user == "sshm-client" && e.server.auth == AuthAgent
    && e.server.meta.group == device.group && e.server.meta.tags == device.tags
  }

  /** Platform and version are those of the device, and no sighting goes back. */
  predicate Installed(was: Activity, next: Activity, device: Ops.Device) {
    && next.sshmStatus == "installed" && next.sshmVersion == device.version
    && next.platform == Ops.NormalizedPlatform(device.platform)
    && next.lastSeen >= was.lastSeen && next.lastSeen >= device.lastSeen
    && next.lastSeen in {was.lastSeen, device.lastSeen}
    && next.sshmCheckedAt >= was.sshmCheckedAt && next.sshmCheckedAt >= device.lastSeen
    && next.(platform := was.platform, lastSeen := was.lastSeen, sshmStatus := was.sshmStatus,
             sshmVersion := was.sshmVersion, sshmCheckedAt := was.sshmCheckedAt) == was
  }

  lemma PlacedIsListed(d: Data, device: Ops.Device, n: string, description: string, s: Server, id: string)
    ensures var e := Ops.DeviceEntry(Get(d.entries, id), id, n, description, s);
            var a := Ops.DeviceActivity(if id in d.activity then d.activity[id] else NoActivity, device);
            s == Ops.DeviceServer(device, n, description) ==>
              Listed(d, Ops.Place(d, id, e, a), device, n, description, id)
  {
    var e := Ops.DeviceEntry(Get(d.entries, id), id, n, description, s);
    assert id in d.entries ==> KeepsRest(d.entries[id], e);
    assert e.aliases == [n] && e.server.meta.display == n;
    if s == Ops.DeviceServer(device, n, description) && id !in d.entries {
      assert NewListing(e, device, description, id);
    }
    hide Ops.DeviceEntry, KeepsRest, NewListing, Ops.NormalizedPlatform, Ops.DeviceServer;
  }

  lemma AddDeviceLists(h: Digests, d: Data, device: Ops.Device, name: string, description: string)
    ensures var n := Ops.DeviceName(device, name);
            var r := Ops.AddDevice(h, d, device, name, description);
            && (r.Some? <==> !Ops.DeviceRefused(h, d, device, n, Ops.DeviceServer(device, n, description)))
            && (r.Some? ==> Listed(d, r.value, device, n, description, DeviceId(h, device, name, description)))
  {
    var n := Ops.DeviceName(device, name);
    var s := Ops.DeviceServer(device, n, description);
    hide Ops.DeviceName, Ops.DeviceServer, Ops.DeviceRefused, Ops.DeviceEntry, Ops.Place, Ops.DeviceActivity, Listed;
    PlacedIsListed(d, device, n, description, s, EntryId(h, s));
  }

  /** The entry differs at most in its aliases, display name and description. */
  predicate KeepsRest(e: Entry, f: Entry) {
    && f.id == e.id && f.credentialIds == e.credentialIds && f.sources == e.sources
    && f.server.(meta := e.server.meta) == e.server
    && f.server.meta.(display := e.server.meta.display, description := e.server.meta.description) == e.server.meta
  }

  class VaultData {
    var version: int
    var hardware: map<string, Option<Sample>>
    var activity: map<string, Activity>
    var entries: map<string, Entry>
    var credentials: map<string, Credential>
    var deleted: set<string>
    var conflicts: map<string, Conflict>

    function Value(): Data
      reads this
    {
      Data(version, hardware, activity, entries, credentials, deleted, conflicts)
    }

    constructor (d: Data)
      ensures Value() == d
    {
      version, hardware, activity, entries := d.version, d.hardware, d.activity, d.entries;
      credentials, deleted, conflicts := d.credentials, d.deleted, d.conflicts;
    }

    /** The loop body of `RepairCompatibleConflicts`. */
    method RepairConflict(h: Digests, id: string) returns (repaired: bool)
      requires id in conflicts
      modifies this`entries, this`conflicts
      ensures RepairsSlot(h, old(SlotAt(Value(), id)), SlotAt(Value(), id))
      ensures forall i | i != id :: SlotAt(Value(), i) == old(SlotAt(Value(), i))
      ensures |conflicts| == |old(conflicts)| - if repaired then 1 else 0
    {
      repaired := Repairable(SlotAt(Value(), id));
      if repaired {
        var m := RepairedEntry(h, SlotAt(Value(), id));
        DropSize(conflicts, id);
        entries := entries[id := m];
        conflicts := conflicts - {id};
      }
    }

    method RepairCompatibleConflicts(h: Digests) returns (repaired: nat)
      modifies this`entries, this`conflicts
      ensures Ops.Repairs(h, old(Value()), Value())
      ensures forall id :: Outcomes.RepairOutcome(old(SlotAt(Value(), id)), SlotAt(Value(), id))
      ensures repaired == |old(conflicts)| - |conflicts|
    {
      repaired := 0;
      var left := conflicts.Keys;
      ghost var was := Value();
      while left != {}
        invariant left <= was.conflicts.Keys && repaired == |was.conflicts| - |conflicts|
        invariant forall id :: RepairProgress(h, was, left, id, SlotAt(Value(), id))
        decreases left
      {
        var id :| id in left;
        assert RepairProgress(h, was, left, id, SlotAt(Value(), id));
        assert SlotAt(was, id).conflict == Some(was.conflicts[id]);
        var one := RepairConflict(h, id);
        if one {
          repaired := repaired + 1;
        }
        left := left - {id};
      }
      forall id ensures RepairsSlot(h, SlotAt(was, id), SlotAt(Value(), id)) {
        assert RepairProgress(h, was, left, id, SlotAt(Value(), id));
      }
      assert Ops.Repairs(h, was, Value());
      AllRepaired(h, was, Value());
    }

    /** Only a password entry takes a password, and it then has this one credential; no other entry and no other
        credential changes. */
    method SetPassword(h: Digests, id: string, password: string) returns (ok: bool)
      modifies this
      ensures ok <==> id in old(entries) && old(entries)[id].server.auth == AuthPassword
      ensures Ops.Step(h, Ops.OpSetPassword(id, password), old(Value()), Value())
      ensures OnlySlot(old(Value()), Value(), id) && (!ok ==> Value() == old(Value()))
      ensures ok ==> id in entries && exists cid ::
                && entries[id] == old(entries)[id].(credentialIds := [cid])
                && cid in credentials && credentials[cid].kind == "password" && credentials[cid].password == password
      ensures Injective(h) && old(Ops.WellFormed(h, Value())) ==>
                Ops.WellFormed(h, Value()) && forall cid | cid in old(credentials) ::
                  cid in credentials && credentials[cid] == old(credentials)[cid]
    {
      ghost var before := Value();
      if id !in entries || entries[id].server.auth != AuthPassword {
        return false;
      }
      var c := Credential("password", [], [], password, "");
      credentials := credentials[h.credential(c) := c];
      entries := entries[id := entries[id].(credentialIds := [h.credential(c)])];
      ok := true;
      if Ops.WellFormed(h, before) { Ops.StepKeeps(h, Ops.OpSetPassword(id, password), before, Value()); }
    }

    /** The entry leaves a tombstone and nothing else. */
    method Remove(id: string)
      modifies this
      ensures Value() == Ops.Remove(old(Value()), id)
      ensures Ops.Buried(Value(), id) && id !in conflicts && id !in activity
      ensures OnlySlot(old(Value()), Value(), id) && credentials == old(credentials)
      ensures forall h | old(Ops.WellFormed(h, Value())) :: Ops.WellFormed(h, Value())
    {
      ghost var before := Value();
      entries := entries - {id};
      activity := activity - {id};
      conflicts := conflicts - {id};
      deleted := deleted + {id};
      forall h | Ops.WellFormed(h, before) ensures Ops.WellFormed(h, Value()) {
        Ops.RemoveKeeps(h, before, id);
      }
    }

    /** The chosen side is the entry, verbatim, or its tombstone; the conflict is over. */
    method Resolve(id: string, side: Ops.Side) returns (ok: bool)
      modifies this
      ensures ok <==> id in old(conflicts)
      ensures Value() == Ops.OrSame(Ops.Resolve(old(Value()), id, side), old(Value()))
      ensures OnlySlot(old(Value()), Value(), id) && credentials == old(credentials)
              && (!ok ==> Value() == old(Value()))
      ensures ok ==> id !in conflicts &&
                     var chosen := if side.Local? then old(conflicts)[id].local else old(conflicts)[id].remote;
                     if chosen.Some? then Get(entries, id) == chosen && id !in deleted else Ops.Buried(Value(), id)
      ensures forall h | old(Ops.WellFormed(h, Value())) :: Ops.WellFormed(h, Value())
    {
      ghost var before := Value();
      if id !in conflicts {
        return false;
      }
      var e := if side.Local? then conflicts[id].local else conflicts[id].remote;
      if e.None? {
        Remove(id);
      } else {
        entries := entries[id := e.value];
        deleted := deleted - {id};
        conflicts := conflicts - {id};
      }
      ok := true;
      forall h | Ops.WellFormed(h, before) ensures Ops.WellFormed(h, Value()) {
        Ops.ResolveKeeps(h, before, id, side);
      }
    }

    method PlaceEntry(id: string, e: Entry, a: Activity)
      modifies this
      ensures Value() == Ops.Place(old(Value()), id, e, a)
    {
      entries := entries[id := e];
      deleted := deleted - {id};
      activity := activity[id := a];
    }

    /** The device is listed under its own route, even if it was deleted before; a former entry keeps its
        credentials, sources and route, and its last sighting does not go back. */
    method AddDevice(h: Digests, device: Ops.Device, name: string, description: string) returns (ok: bool)
      modifies this
      ensures Value() == Ops.OrSame(Ops.AddDevice(h, old(Value()), device, name, description), old(Value()))
      ensures ok <==> !Ops.DeviceRefused(h, old(Value()), device, Ops.DeviceName(device, name),
                                         Ops.DeviceServer(device, Ops.DeviceName(device, name), description))
      ensures if ok then
                Listed(old(Value()), Value(), device, Ops.DeviceName(device, name), description,
                       DeviceId(h, device, name, description))
              else Value() == old(Value())
      ensures old(Ops.WellFormed(h, Value())) ==> Ops.WellFormed(h, Value())
    {
      hide Ops.AddDevice, Ops.DeviceName, Ops.DeviceServer, Ops.WellFormed, Ops.DeviceRefused, Listed, DeviceId;
      ghost var before := Value();
      ok := PlaceDevice(h, device, name, description);
      AddDeviceLists(h, before, device, name, description);
      if ok && Ops.WellFormed(h, before) { Ops.AddDeviceKeeps(h, before, device, name, description); }
    }

    method PlaceDevice(h: Digests, device: Ops.Device, name: string, description: string) returns (ok: bool)
      modifies this
      ensures ok == Ops.AddDevice(h, old(Value()), device, name, description).Some?
      ensures Value() == Ops.OrSame(Ops.AddDevice(h, old(Value()), device, name, description), old(Value()))
    {
      var n := Ops.DeviceName(device, name);
      var s := Ops.DeviceServer(device, n, description);
      if Ops.DeviceRefused(h, Value(), device, n, s) {
        return false;
      }
      var id := EntryId(h, s);
      var e := Ops.DeviceEntry(Get(entries, id), id, n, description, s);
      var a := Ops.DeviceActivity(if id in activity then activity[id] else NoActivity, device);
      PlaceEntry(id, e, a);
      ok := true;
    }

    /** The loop body of `Import`. */
    method ImportRecord(h: Digests, device: string, includeKeys: bool, l: Ops.Local) returns (ok: bool)
      modifies this
      ensures Value() == Ops.ImportServer(h, old(Value()), device, includeKeys, l)
      ensures ok == !Ops.ImportFails(h, old(Value()), includeKeys, l)
      ensures Effects.Imported(h, old(Value()), Value(), device, includeKeys, l)
    {
      hide Effects.Imported, Ops.ImportServer, Ops.ImportFails;
      Effects.ImportIs(h, Value(), device, includeKeys, l);
      ok := WriteRecord(h, device, includeKeys, l);
    }

    method WriteRecord(h: Digests, device: string, includeKeys: bool, l: Ops.Local) returns (ok: bool)
      modifies this
      ensures Value() == Ops.ImportServer(h, old(Value()), device, includeKeys, l)
      ensures ok == !Ops.ImportFails(h, old(Value()), includeKeys, l)
    {
      ok := true;
      if l.server.None? || l.server.value.cloudEntry != "" {
        return;
      }
      var s := CleanServer(l.server.value);
      var id := EntryId(h, s);
      if id in deleted {
        return;
      }
      var e := if id in entries then entries[id] else Entry(id, [], s, [], map[]);
      var aliases := UnionStrings(e.aliases, [l.alias]);
      e := e.(sources := e.sources[h.pair(device, l.alias) := Source(device, l.alias, s)]);
      if id in entries {
        entries := entries[id := e];
      }
      e := e.(aliases := aliases);
      if s.auth == AuthKey && includeKeys {
        if l.key.Unreadable? {
          ok := false;
          return;
        }
        var cid := h.credential(l.key.credential);
        credentials := credentials[cid := l.key.credential];
        var ids := UnionStrings(e.credentialIds, [cid]);
        e := e.(credentialIds := ids);
      }
      entries := entries[id := e];
    }

    /** `Import`, up to its closing `ImportActivity`: the records in any order, until one fails. */
    method ImportRecords(h: Digests, device: string, includeKeys: bool, records: set<Ops.Local>) returns (ok: bool)
      modifies this
      ensures exists order :: Imported(h, old(Value()), device, includeKeys, order, Value(), ok)
                              && SetOf(order) <= records && (ok ==> SetOf(order) == records)
    {
      ghost var order: seq<Ops.Local> := [];
      ghost var was := Value();
      NoneImported(h, was, device, includeKeys);
      hide Imported, Ops.ImportServer, Ops.ImportFails;
      var left := records;
      ok := true;
      while left != {} && ok
        invariant left <= records && SetOf(order) <= records && (ok ==> SetOf(order) == records - left)
        invariant Imported(h, was, device, includeKeys, order, Value(), ok)
        decreases left
      {
        var l :| l in left;
        ghost var before := Value();
        ok := ImportRecord(h, device, includeKeys, l);
        left := left - {l};
        ImportedAppend(h, was, device, includeKeys, order, before, l);
        assert SetOf(order + [l]) == SetOf(order) + {l};
        order := order + [l];
      }
    }

    /** The loop body of `ImportActivity`. */
    method Observe(h: Digests, s: Option<Server>, now: int) returns (changed: bool)
      modifies this`activity
      ensures Value() == Ops.ObserveServer(h, old(Value()), s, now)
      ensures changed == (Value() != old(Value()))
      ensures s.Some? && Effects.Observes(h, s.value) in entries ==>
                var id := Effects.Observes(h, s.value);
                Effects.Learns(if id in old(activity) then old(activity)[id] else NoActivity, s.value.seen, now,
                               if id in activity then activity[id] else NoActivity)
    {
      Effects.ObserveIs(h, Value(), s, now);
      hide Effects.Learns, MergeActivity;
      changed := false;
      if s.Some? && Ops.ObservedId(h, s.value) in entries {
        var id := Ops.ObservedId(h, s.value);
        var before := if id in activity then activity[id] else NoActivity;
        var next := MergeActivity(before, Ops.Report(s.value, now));
        if before != next {
          assert id in activity ==> activity[id] != next;
          activity := activity[id := next];
          changed := true;
        }
      }
    }

    /** `ImportActivity`. */
    method ImportActivity(h: Digests, servers: set<Option<Server>>, now: int) returns (changed: bool)
      modifies this`activity
      ensures exists order :: SetOf(order) == servers && Value() == ObserveAll(h, old(Value()), order, now)
      ensures !changed ==> Value() == old(Value())
    {
      changed := false;
      ghost var was := Value();
      ghost var order: seq<Option<Server>> := [];
      var left := servers;
      while left != {}
        invariant left <= servers && SetOf(order) == servers - left
        invariant Value() == ObserveAll(h, was, order, now) && (!changed ==> Value() == was)
        decreases left
      {
        var s :| s in left;
        ObserveAppend(h, was, order, s, now);
        var news := Observe(h, s, now);
        changed := changed || news;
        left := left - {s};
        assert SetOf(order + [s]) == SetOf(order) + {s};
        order := order + [s];
      }
    }

    /** `pruneUnreferencedCredential`. */
    method PruneUnreferencedCredential(cid: string)
      modifies this`credentials
      ensures Value() == Ops.Prune(old(Value()), cid)
      ensures Get(credentials, cid) == if old(Ops.Referred(Value(), cid)) then Get(old(credentials), cid) else None
      ensures forall x | x != cid :: Get(credentials, x) == Get(old(credentials), x)
    {
      Ops.PruneIff(Value(), cid);
      hide Ops.Referred;
      var left := entries.Keys;
      while left != {}
        invariant left <= entries.Keys
        invariant forall id | id in entries && id !in left :: cid !in entries[id].credentialIds
        invariant credentials == old(credentials)
        decreases left
      {
        var id :| id in left;
        if cid in entries[id].credentialIds {
          return;
        }
        left := left - {id};
      }
      left := conflicts.Keys;
      while left != {}
        invariant left <= conflicts.Keys
        invariant forall id | id in conflicts && id !in left ::
                    && (conflicts[id].local.Some? ==> cid !in conflicts[id].local.value.credentialIds)
                    && (conflicts[id].remote.Some? ==> cid !in conflicts[id].remote.value.credentialIds)
        invariant credentials == old(credentials)
        decreases left
      {
        var id :| id in left;
        var c := conflicts[id];
        if (c.local.Some? && cid in c.local.value.credentialIds)
          || (c.remote.Some? && cid in c.remote.value.credentialIds) {
          return;
        }
        left := left - {id};
      }
      credentials := credentials - {cid};
    }

    /** One credential of `ImportProtected`. */
    method ProtectCredential(h: Digests, parses: Bytes -> bool, id: string, c: Credential)
      requires id in entries
      modifies this
      ensures Value() == Ops.Protect(h, old(Value()), parses, id, c)
      ensures Ops.Protects(h, old(Value()), Value(), parses, id, c)
    {
      Ops.ProtectIff(h, Value(), parses, id, c);
      hide Ops.Protects;
      var cid := h.credential(c);
      var ids := entries[id].credentialIds;
      var obsolete: seq<string> := [];
      var kept: seq<string> := [];
      ghost var was := Value();
      for i := 0 to |ids|
        invariant Value() == was
        invariant obsolete == Ops.Dropped(h, was, parses, c, ids[..i]) && kept == Ops.Kept(h, was, parses, c, ids[..i])
      {
        assert ids[..i + 1] == ids[..i] + [ids[i]];
        SplitAppend(h, was, parses, c, ids[..i], ids[i]);
        if Ops.Obsolete(h, Value(), parses, c, ids[i]) {
          obsolete := obsolete + [ids[i]];
        } else {
          kept := kept + [ids[i]];
        }
      }
      assert ids[..|ids|] == ids;
      credentials := credentials[cid := c];
      var all := UnionStrings(kept, [cid]);
      entries := entries[id := entries[id].(credentialIds := all)];
      ghost var attached := Value();
      for i := 0 to |obsolete|
        invariant Ops.PruneAll(attached, obsolete) == Ops.PruneAll(Value(), obsolete[i..])
      {
        PruneUnreferencedCredential(obsolete[i]);
        assert obsolete[i..][1..] == obsolete[i + 1..];
      }
    }
  }

  ghost predicate RepairProgress(h: Digests, was: Data, left: set<string>, id: string, o: Slot) {
    if id in left then o == SlotAt(was, id) else RepairsSlot(h, SlotAt(was, id), o)
  }

  /** The records of `order` were imported one after the other; all but perhaps the last succeeded. */
  ghost predicate Imported(h: Digests, d: Data, device: string, includeKeys: bool, order: seq<Ops.Local>, out: Data,
                           ok: bool)
    decreases |order|
  {
    if order == [] then out == d && ok
    else
      var n := |order| - 1;
      exists before :: Imported(h, d, device, includeKeys, order[..n], before, true)
                       && out == Ops.ImportServer(h, before, device, includeKeys, order[n])
                       && ok == !Ops.ImportFails(h, before, includeKeys, order[n])
  }

  lemma NoneImported(h: Digests, d: Data, device: string, includeKeys: bool)
    ensures Imported(h, d, device, includeKeys, [], d, true)
  {}

  lemma ImportedAppend(h: Digests, d: Data, device: string, includeKeys: bool, order: seq<Ops.Local>, before: Data,
                       l: Ops.Local)
    requires Imported(h, d, device, includeKeys, order, before, true)
    ensures Imported(h, d, device, includeKeys, order + [l], Ops.ImportServer(h, before, device, includeKeys, l),
                     !Ops.ImportFails(h, before, includeKeys, l))
  {
    assert (order + [l])[..|order|] == order;
  }

  function ObserveAll(h: Digests, d: Data, order: seq<Option<Server>>, now: int): Data {
    if order == [] then d
    else Ops.ObserveServer(h, ObserveAll(h, d, order[..|order| - 1], now), order[|order| - 1], now)
  }

  lemma ObserveAppend(h: Digests, d: Data, order: seq<Option<Server>>, s: Option<Server>, now: int)
    ensures ObserveAll(h, d, order + [s], now) == Ops.ObserveServer(h, ObserveAll(h, d, order, now), s, now)
  {
    assert (order + [s])[..|order|] == order;
  }

  lemma {:induction false} SplitAppend(h: Digests, d: Data, parses: Bytes -> bool, c: Credential, ids: seq<string>,
                                       x: string)
    ensures Ops.Kept(h, d, parses, c, ids + [x]) ==
            Ops.Kept(h, d, parses, c, ids) + if Ops.Obsolete(h, d, parses, c, x) then [] else [x]
    ensures Ops.Dropped(h, d, parses, c, ids + [x]) ==
            Ops.Dropped(h, d, parses, c, ids) + if Ops.Obsolete(h, d, parses, c, x) then [x] else []
  {
    if ids == [] {
      assert (ids + [x])[1..] == [];
    } else {
      assert (ids + [x])[1..] == ids[1..] + [x];
      SplitAppend(h, d, parses, c, ids[1..], x);
    }
  }
}
