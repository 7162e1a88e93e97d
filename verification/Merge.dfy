/** The three-way merge, as a relation: the only freedom in it is the order in which Go walks the
    `Sources` map of an entry (internal/cloudsync/data.go, internal/cloudsync/merge_additions.go). */
module Merge {
  import opened Text
  import opened Observations
  import opened Vault

  function CompatibleEntries(a: Option<Entry>, b: Option<Entry>): bool {
    a.Some? && b.Some? && a.value.id == b.value.id && CleanServer(a.value.server) == CleanServer(b.value.server)
  }

  /** The sources of `b` with those of `a` added key by key; a different source under a taken key
      moves to a key derived from both. */
  function AddSources(h: Digests, a: map<string, Source>, out: map<string, Source>,
                      order: seq<string>): map<string, Source>
    requires forall k | k in order :: k in a
    decreases |order|
  {
    if order == [] then out
    else AddSources(h, a, AddSource(h, order[0], a[order[0]], out), order[1..])
  }

  function AddSource(h: Digests, k: string, v: Source, out: map<string, Source>): map<string, Source> {
    if k in out && out[k] != v then out[h.pair(k, h.source(v)) := v] else out[k := v]
  }

  /** `order` visits every key once, as some run of Go's `range` does. */
  ghost predicate Enumerates(order: seq<string>, keys: set<string>) {
    SetOf(order) == keys && forall i, j | 0 <= i < j < |order| :: order[i] != order[j]
  }

  ghost function Additions(h: Digests, a: Entry, b: Entry, order: seq<string>): Entry
    requires Enumerates(order, a.sources.Keys)
  {
    assert forall k | k in order :: k in SetOf(order);
    b.(aliases := Union(a.aliases, b.aliases),
       credentialIds := Union(a.credentialIds, b.credentialIds),
       sources := AddSources(h, a.sources, b.sources, order))
  }

  /** `m` is a possible result of `mergeAdditions(a, b)`. */
  ghost predicate MergesAdditions(h: Digests, a: Entry, b: Entry, m: Entry) {
    exists order :: Enumerates(order, a.sources.Keys) && m == Additions(h, a, b, order)
  }

  /** The branch for one identity added on both sides of an empty base. */
  ghost function SameIdentity(l: Entry, r: Entry): Entry {
    r.(aliases := Union(l.aliases, r.aliases),
       credentialIds := Union(l.credentialIds, r.credentialIds),
       sources := r.sources + l.sources)
  }

  /** Three-way choice: the remote value, unless the remote side did not move. */
  function Choose<T(==)>(b: T, l: T, r: T): T {
    if l == r || r == b then l else r
  }

  /** How an entry is selected, and whether the selection opens a conflict. */
  ghost predicate Selects(h: Digests, b: Option<Entry>, l: Option<Entry>, r: Option<Entry>, selected: Option<Entry>,
                          clash: bool) {
    if l == r then selected == l && !clash
    else if b == l then selected == r && !clash
    else if b == r then selected == l && !clash
    else if CompatibleEntries(l, r) then
      selected.Some? && MergesAdditions(h, l.value, r.value, selected.value) && !clash
    else if b.None? && l.Some? && r.Some? && EntryId(h, l.value.server) == EntryId(h, r.value.server) then
      selected == Some(SameIdentity(l.value, r.value)) && !clash
    else selected == r && clash
  }

  /** A tombstone withholds the selected entry and keeps both sides as a conflict. */
  function Settle(b: Slot, l: Slot, r: Slot, selected: Option<Entry>, clash: bool): Slot {
    var deleted := Choose(b.deleted, l.deleted, r.deleted);
    var both := Some(Conflict(l.entry, r.entry));
    if deleted && selected.Some? then Slot(None, true, both)
    else Slot(selected, deleted, if clash then both else Choose(b.conflict, l.conflict, r.conflict))
  }

  ghost predicate MergesSlot(h: Digests, b: Slot, l: Slot, r: Slot, o: Slot) {
    exists selected, clash ::
      Selects(h, b.entry, l.entry, r.entry, selected, clash) && o == Settle(b, l, r, selected, clash)
  }

  predicate Repairable(s: Slot) {
    && s.conflict.Some? && s.entry.Some? && !s.deleted
    && CompatibleEntries(s.conflict.value.local, s.conflict.value.remote)
    && CompatibleEntries(s.conflict.value.local, s.entry)
  }

  /** One iteration of `RepairCompatibleConflicts`. */
  ghost predicate RepairsSlot(h: Digests, s: Slot, o: Slot) {
    if Repairable(s) then
      o.entry.Some? && !o.deleted && o.conflict.None? &&
      exists m :: MergesAdditions(h, s.conflict.value.local.value, s.conflict.value.remote.value, m)
                  && MergesAdditions(h, m, s.entry.value, o.entry.value)
    else o == s
  }

  ghost predicate SettlesSlot(h: Digests, b: Slot, l: Slot, r: Slot, o: Slot) {
    exists mid :: MergesSlot(h, b, l, r, mid) && RepairsSlot(h, mid, o)
  }

  function NewerAt(r: map<string, Option<Sample>>, l: map<string, Option<Sample>>, id: string): Option<Sample> {
    Newer(if id in r then r[id] else None, if id in l then l[id] else None)
  }

  function MergeHardware(r: map<string, Option<Sample>>, l: map<string, Option<Sample>>): map<string, Option<Sample>> {
    map id | id in r.Keys + l.Keys :: NewerAt(r, l, id)
  }

  function ActivityAt(r: map<string, Activity>, l: map<string, Activity>, id: string): Activity {
    var first := if id in r then MergeActivity(NoActivity, r[id]) else NoActivity;
    if id in l then MergeActivity(first, l[id]) else first
  }

  function MergeActivities(r: map<string, Activity>, l: map<string, Activity>,
                           kept: set<string>): map<string, Activity> {
    map id | id in (r.Keys + l.Keys) * kept :: ActivityAt(r, l, id)
  }

  predicate CredentialClash(l: Data, r: Data) {
    exists id | id in l.credentials && id in r.credentials :: l.credentials[id] != r.credentials[id]
  }

  /** `out` is what the loops of `Merge` can leave, before validation. */
  ghost predicate Merged(h: Digests, b: Data, l: Data, r: Data, out: Data) {
    && out.version == 1
    && out.hardware == MergeHardware(r.hardware, l.hardware)
    && out.credentials == r.credentials + l.credentials
    && (forall id :: SettlesSlot(h, SlotAt(b, id), SlotAt(l, id), SlotAt(r, id), SlotAt(out, id)))
    && out.activity == MergeActivities(r.activity, l.activity, out.entries.Keys)
  }

  datatype MergeResult = Ok(data: Data) | ImmutableCredentialConflict | Invalid

  /** `res` is a possible outcome of `Merge(b, l, r)` at time `now`. */
  ghost predicate Merges(h: Digests, now: int, b: Data, l: Data, r: Data, res: MergeResult) {
    if CredentialClash(l, r) then res == ImmutableCredentialConflict
    else exists out :: Merged(h, b, l, r, out) && res == if Valid(out, now) then Ok(out) else Invalid
  }
}
