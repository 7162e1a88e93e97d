/** What every outcome of a merge satisfies, whatever the map iteration order. */
module MergeLaws {
  import opened Text
  import opened Observations
  import opened Vault
  import opened Merge
  import opened Sources

  // --- slot by slot ---

  predicate Contains(m: Entry, e: Entry) {
    SetOf(e.aliases) <= SetOf(m.aliases) && SetOf(e.credentialIds) <= SetOf(m.credentialIds)
  }

  lemma AdditionsContainBoth(h: Digests, a: Entry, b: Entry, m: Entry)
    requires MergesAdditions(h, a, b, m)
    ensures Contains(m, a) && Contains(m, b) && m.id == b.id && m.server == b.server
    ensures SetOf(m.aliases) == SetOf(a.aliases) + SetOf(b.aliases)
    ensures SetOf(m.credentialIds) == SetOf(a.credentialIds) + SetOf(b.credentialIds)
  {}

  /** A slot that a merge can leave: a tombstone never coexists with an entry, and no conflict is
      left that additive repair would close. */
  predicate Final(s: Slot) {
    !(s.deleted && s.entry.Some?) && !Repairable(s)
  }

  lemma OutcomeIsFinal(h: Digests, b: Slot, l: Slot, r: Slot, o: Slot)
    requires SettlesSlot(h, b, l, r, o)
    ensures Final(o)
  {}

  lemma UnchangedLocalSlot(h: Digests, b: Slot, r: Slot, o: Slot)
    requires Final(r) && SettlesSlot(h, b, b, r, o)
    ensures o.entry == r.entry && o.deleted == r.deleted && o.conflict == r.conflict
  {}

  lemma UnchangedRemoteSlot(h: Digests, b: Slot, l: Slot, o: Slot)
    requires Final(l) && SettlesSlot(h, b, l, b, o)
    ensures o == l
  {}

  lemma EqualSidesSlot(h: Digests, b: Slot, s: Slot, o: Slot)
    requires Final(s) && SettlesSlot(h, b, s, s, o)
    ensures o == s
  {}

  /** The entries a slot mentions, on either side of a conflict or live. */
  function Mentions(s: Slot): set<Entry> {
    (if s.entry.Some? then {s.entry.value} else {}) +
    (if s.conflict.Some? && s.conflict.value.local.Some? then {s.conflict.value.local.value} else {}) +
    (if s.conflict.Some? && s.conflict.value.remote.Some? then {s.conflict.value.remote.value} else {})
  }

  /** Nothing is invented: every alias and credential reference of an outcome was mentioned, for
      this id, by the local or the remote side; entries keep an id and a server of theirs. */
  ghost predicate DrawnFrom(e: Entry, pool: set<Entry>) {
    && SetOf(e.aliases) <= Aliases(pool) && SetOf(e.credentialIds) <= References(pool)
    && (e.id, e.server) in Targets(pool)
  }

  function Aliases(pool: set<Entry>): set<string> {
    set p, a | p in pool && a in p.aliases :: a
  }

  function References(pool: set<Entry>): set<string> {
    set p, c | p in pool && c in p.credentialIds :: c
  }

  function Targets(pool: set<Entry>): set<(string, Server)> {
    set p | p in pool :: (p.id, p.server)
  }

  lemma MemberDrawn(p: Entry, pool: set<Entry>)
    requires p in pool
    ensures DrawnFrom(p, pool)
  {}

  lemma AdditionsDrawn(h: Digests, a: Entry, b: Entry, m: Entry, pool: set<Entry>)
    requires MergesAdditions(h, a, b, m) && DrawnFrom(a, pool) && DrawnFrom(b, pool)
    ensures DrawnFrom(m, pool)
  {
    AdditionsContainBoth(h, a, b, m);
  }

  lemma SelectedDrawn(h: Digests, b: Slot, l: Slot, r: Slot, selected: Option<Entry>, clash: bool)
    requires Selects(h, b.entry, l.entry, r.entry, selected, clash) && selected.Some?
    ensures DrawnFrom(selected.value, Mentions(l) + Mentions(r))
  {
    var pool := Mentions(l) + Mentions(r);
    if l.entry.Some? { MemberDrawn(l.entry.value, pool); }
    if r.entry.Some? { MemberDrawn(r.entry.value, pool); }
    if selected != l.entry && selected != r.entry && CompatibleEntries(l.entry, r.entry) {
      AdditionsDrawn(h, l.entry.value, r.entry.value, selected.value, pool);
    }
  }

  lemma RepairDrawn(h: Digests, s: Slot, o: Slot, pool: set<Entry>)
    requires Repairable(s) && RepairsSlot(h, s, o) && DrawnFrom(s.entry.value, pool)
    requires DrawnFrom(s.conflict.value.local.value, pool) && DrawnFrom(s.conflict.value.remote.value, pool)
    ensures DrawnFrom(o.entry.value, pool)
  {
    var c := s.conflict.value;
    var m :| MergesAdditions(h, c.local.value, c.remote.value, m)
      && MergesAdditions(h, m, s.entry.value, o.entry.value);
    AdditionsDrawn(h, c.local.value, c.remote.value, m, pool);
    AdditionsDrawn(h, m, s.entry.value, o.entry.value, pool);
  }

  lemma SettledDrawn(h: Digests, b: Slot, l: Slot, r: Slot, mid: Slot, e: Entry)
    requires MergesSlot(h, b, l, r, mid) && e in Mentions(mid)
    ensures DrawnFrom(e, Mentions(l) + Mentions(r))
  {
    var selected, clash :| Selects(h, b.entry, l.entry, r.entry, selected, clash)
      && mid == Settle(b, l, r, selected, clash);
    SettledMentions(b, l, r, selected, clash, e);
    if e in Mentions(l) + Mentions(r) {
      MemberDrawn(e, Mentions(l) + Mentions(r));
    } else {
      SelectedDrawn(h, b, l, r, selected, clash);
    }
  }

  lemma NothingInventedSlot(h: Digests, b: Slot, l: Slot, r: Slot, o: Slot, e: Entry)
    requires SettlesSlot(h, b, l, r, o) && e in Mentions(o)
    ensures DrawnFrom(e, Mentions(l) + Mentions(r))
  {
    var mid :| MergesSlot(h, b, l, r, mid) && RepairsSlot(h, mid, o);
    if Repairable(mid) {
      SettledDrawn(h, b, l, r, mid, mid.entry.value);
      SettledDrawn(h, b, l, r, mid, mid.conflict.value.local.value);
      SettledDrawn(h, b, l, r, mid, mid.conflict.value.remote.value);
      RepairDrawn(h, mid, o, Mentions(l) + Mentions(r));
    } else {
      SettledDrawn(h, b, l, r, mid, e);
    }
  }

  // --- whole vaults ---

  ghost predicate Reconciled(d: Data) {
    forall id :: Final(SlotAt(d, id))
  }

  lemma MergedIsReconciled(h: Digests, b: Data, l: Data, r: Data, out: Data)
    requires Merged(h, b, l, r, out)
    ensures Reconciled(out)
  {
    forall id ensures Final(SlotAt(out, id)) {
      OutcomeIsFinal(h, SlotAt(b, id), SlotAt(l, id), SlotAt(r, id), SlotAt(out, id));
    }
  }

  /** If only the remote side moved, its entries, tombstones and conflicts are adopted unchanged. */
  lemma MergeWithoutLocalEdits(h: Digests, b: Data, r: Data, out: Data)
    requires Reconciled(r) && Merged(h, b, b, r, out)
    ensures out.entries == r.entries && out.deleted == r.deleted && out.conflicts == r.conflicts
  {
    forall id ensures SlotAt(out, id) == SlotAt(r, id) {
      UnchangedLocalSlot(h, SlotAt(b, id), SlotAt(r, id), SlotAt(out, id));
    }
    SlotsDetermine(out, r);
  }

  /** If only the local side moved, its entries, tombstones and conflicts go up unchanged. */
  lemma MergeWithoutRemoteEdits(h: Digests, b: Data, l: Data, out: Data)
    requires Reconciled(l) && Merged(h, b, l, b, out)
    ensures out.entries == l.entries && out.deleted == l.deleted && out.conflicts == l.conflicts
  {
    forall id ensures SlotAt(out, id) == SlotAt(l, id) {
      UnchangedRemoteSlot(h, SlotAt(b, id), SlotAt(l, id), SlotAt(out, id));
    }
    SlotsDetermine(out, l);
  }

  lemma ActivitySettles(r: map<string, Activity>, l: map<string, Activity>, id: string)
    ensures Settled(ActivityAt(r, l, id))
  {
    if id in r {
      MergedFromNothingSettles(NoActivity, r[id]);
      assert MergeActivity(NoActivity, NoActivity) == NoActivity by { LessIrreflexive(""); }
      if id in l { MergedFromNothingSettles(r[id], l[id]); }
    } else if id in l {
      MergedFromNothingSettles(NoActivity, l[id]);
      assert MergeActivity(NoActivity, NoActivity) == NoActivity by { LessIrreflexive(""); }
    }
  }

  lemma RemergedSlots(h: Digests, b: Data, m: Data, out: Data)
    requires Reconciled(m) && Merged(h, b, m, m, out)
    ensures out.entries == m.entries && out.deleted == m.deleted && out.conflicts == m.conflicts
  {
    forall id ensures SlotAt(out, id) == SlotAt(m, id) {
      EqualSidesSlot(h, SlotAt(b, id), SlotAt(m, id), SlotAt(out, id));
    }
    SlotsDetermine(out, m);
  }

  lemma RemergedActivity(r: map<string, Activity>, l: map<string, Activity>, kept: set<string>)
    ensures var a := MergeActivities(r, l, kept); MergeActivities(a, a, kept) == a
  {
    var a := MergeActivities(r, l, kept);
    forall id | id in a ensures ActivityAt(a, a, id) == a[id] {
      ActivitySettles(r, l, id);
      SettledIsFixedPoint(a[id]);
    }
  }

  lemma RemergedData(h: Digests, b: Data, l: Data, r: Data, m: Data, base: Data, out: Data)
    requires Merged(h, b, l, r, m) && Merged(h, base, m, m, out)
    ensures out == m
  {
    MergedIsReconciled(h, b, l, r, m);
    RemergedSlots(h, base, m, out);
    RemergedActivity(r.activity, l.activity, m.entries.Keys);
    assert MergeHardware(m.hardware, m.hardware) == m.hardware;
  }

  /** Merging a merge result with itself, against any base and at any later time, can only give
      back exactly that result: a client that re-merges its own commit changes nothing. */
  lemma RemergeIsIdentity(h: Digests, t: int, b: Data, l: Data, r: Data, m: Data, u: int, base: Data, res: MergeResult)
    requires Merges(h, t, b, l, r, Ok(m)) && t <= u
    requires Merges(h, u, base, m, m, res)
    ensures res == Ok(m)
  {
    assert Merged(h, b, l, r, m) && Valid(m, t);
    var out :| Merged(h, base, m, m, out) && res == if Valid(out, u) then Ok(out) else Invalid;
    RemergedData(h, b, l, r, m, base, out);
    ValidLater(m, t, u);
  }

  /** Nothing is made up: what the outcome says about an id was said by one of the sides. */
  lemma NothingInvented(h: Digests, b: Data, l: Data, r: Data, out: Data, id: string)
    requires Merged(h, b, l, r, out)
    ensures forall e | e in Mentions(SlotAt(out, id)) :: DrawnFrom(e, Mentions(SlotAt(l, id)) + Mentions(SlotAt(r, id)))
  {
    forall e | e in Mentions(SlotAt(out, id)) ensures DrawnFrom(e, Mentions(SlotAt(l, id)) + Mentions(SlotAt(r, id))) {
      NothingInventedSlot(h, SlotAt(b, id), SlotAt(l, id), SlotAt(r, id), SlotAt(out, id), e);
    }
  }

  // --- the iteration order ---

  lemma AdditionsJoin(h: Digests, a: Entry, b: Entry, m: Entry)
    requires Injective(h) && Orderly(h, a.sources, b.sources) && MergesAdditions(h, a, b, m)
    ensures Joined(h, a.sources, b.sources, m.sources)
  {
    var order :| Enumerates(order, a.sources.Keys) && m == Additions(h, a, b, order);
    OrderlyJoins(h, a.sources, b.sources, order);
  }

  /** No provenance is lost or made up where clashing sources have room: the merged entry holds
      exactly the sources of both. */
  lemma SourcesSurvive(h: Digests, a: Entry, b: Entry, m: Entry)
    requires Injective(h) && Roomy(h, a.sources, b.sources) && MergesAdditions(h, a, b, m)
    ensures a.sources.Values + b.sources.Values == m.sources.Values
  {
    RoomyIsOrderly(h, a.sources, b.sources);
    AdditionsJoin(h, a, b, m);
    RoomyKeeps(h, a.sources, b.sources, m.sources);
    KeptValues(h, a.sources, b.sources, m.sources);
    var order :| Enumerates(order, a.sources.Keys) && m == Additions(h, a, b, order);
    assert forall k | k in order :: k in SetOf(order);
    NoNewValues(h, a.sources, b.sources, b.sources, order);
  }

  lemma AdditionsRest(h: Digests, a: Entry, b: Entry, m: Entry)
    requires MergesAdditions(h, a, b, m)
    ensures m == b.(aliases := Union(a.aliases, b.aliases), credentialIds := Union(a.credentialIds, b.credentialIds),
                    sources := m.sources)
  {}

  /** An additive merge of two entries has one outcome exactly if their sources are orderly. */
  lemma AdditionsUniqueIff(h: Digests, a: Entry, b: Entry)
    requires Injective(h) && NoLoops(h)
    ensures (forall m, n | MergesAdditions(h, a, b, m) && MergesAdditions(h, a, b, n) :: m == n) <==>
              Orderly(h, a.sources, b.sources)
  {
    if Orderly(h, a.sources, b.sources) {
      forall m, n | MergesAdditions(h, a, b, m) && MergesAdditions(h, a, b, n) ensures m == n {
        AdditionsUnique(h, a, b, m, n);
      }
    } else {
      var m, n := AdditionsDiffer(h, a, b);
    }
  }

  lemma AdditionsUnique(h: Digests, a: Entry, b: Entry, m: Entry, n: Entry)
    requires Injective(h) && Orderly(h, a.sources, b.sources) && MergesAdditions(h, a, b, m)
             && MergesAdditions(h, a, b, n)
    ensures m == n
  {
    AdditionsJoin(h, a, b, m);
    AdditionsJoin(h, a, b, n);
    AdditionsRest(h, a, b, m);
    AdditionsRest(h, a, b, n);
    JoinedUnique(h, a.sources, b.sources, m.sources, n.sources);
  }

  lemma AdditionsDiffer(h: Digests, a: Entry, b: Entry) returns (m: Entry, n: Entry)
    requires Injective(h) && NoLoops(h) && !Orderly(h, a.sources, b.sources)
    ensures MergesAdditions(h, a, b, m) && MergesAdditions(h, a, b, n) && m != n
  {
    var p :| p in a.sources && Tangled(h, a.sources, b.sources, p);
    var one, two := TangledDiffers(h, a.sources, b.sources, p);
    m, n := Additions(h, a, b, one), Additions(h, a, b, two);
  }

  /** The branch of the merge that adds one entry to the other. */
  predicate Adds(b: Slot, l: Slot, r: Slot) {
    l.entry != r.entry && b.entry != l.entry && b.entry != r.entry && CompatibleEntries(l.entry, r.entry)
  }

  predicate SidesOrderly(h: Digests, b: Slot, l: Slot, r: Slot) {
    Adds(b, l, r) ==> Orderly(h, l.entry.value.sources, r.entry.value.sources)
  }

  /** The last additive merge of a slot is orderly: that of the two sides, or, if it closes a
      conflict, that of the conflict's merged sides into the entry. */
  ghost predicate LastOrderly(h: Digests, b: Slot, l: Slot, r: Slot) {
    forall mid | MergesSlot(h, b, l, r, mid) ::
      if Repairable(mid) then
        forall m | MergesAdditions(h, mid.conflict.value.local.value, mid.conflict.value.remote.value, m) ::
          Orderly(h, m.sources, mid.entry.value.sources)
      else mid.entry.Some? ==> SidesOrderly(h, b, l, r)
  }

  /** What a repair builds on is orderly. */
  ghost predicate InnerOrderly(h: Digests, b: Slot, l: Slot, r: Slot) {
    forall mid | MergesSlot(h, b, l, r, mid) && Repairable(mid) ::
      && SidesOrderly(h, b, l, r)
      && Orderly(h, mid.conflict.value.local.value.sources, mid.conflict.value.remote.value.sources)
  }

  lemma SelectsUnique(h: Digests, b: Slot, l: Slot, r: Slot, so: Option<Entry>, co: bool, sp: Option<Entry>, cp: bool)
    requires Injective(h) && SidesOrderly(h, b, l, r)
    requires Selects(h, b.entry, l.entry, r.entry, so, co) && Selects(h, b.entry, l.entry, r.entry, sp, cp)
    ensures so == sp && co == cp
  {
    hide Merge.MergesAdditions;
    if Adds(b, l, r) {
      AdditionsUnique(h, l.entry.value, r.entry.value, so.value, sp.value);
    }
  }

  /** Whether an entry is selected, and whether it is repaired, never depends on the order. */
  lemma SelectsAlike(h: Digests, b: Slot, l: Slot, r: Slot, mo: Slot, mp: Slot)
    requires MergesSlot(h, b, l, r, mo) && MergesSlot(h, b, l, r, mp)
    ensures mo.entry.Some? == mp.entry.Some? && mo == mp.(entry := mo.entry) && Repairable(mo) == Repairable(mp)
    ensures mo.entry.None? ==> mo == mp
  {
    hide Merge.MergesAdditions;
    var so, co :| Selects(h, b.entry, l.entry, r.entry, so, co) && mo == Settle(b, l, r, so, co);
    var sp, cp :| Selects(h, b.entry, l.entry, r.entry, sp, cp) && mp == Settle(b, l, r, sp, cp);
    if Adds(b, l, r) {
      AdditionsRest(h, l.entry.value, r.entry.value, so.value);
      AdditionsRest(h, l.entry.value, r.entry.value, sp.value);
    }
  }

  lemma MergesSlotUnique(h: Digests, b: Slot, l: Slot, r: Slot, mo: Slot, mp: Slot)
    requires Injective(h) && SidesOrderly(h, b, l, r) && MergesSlot(h, b, l, r, mo) && MergesSlot(h, b, l, r, mp)
    ensures mo == mp
  {
    var so, co :| Selects(h, b.entry, l.entry, r.entry, so, co) && mo == Settle(b, l, r, so, co);
    var sp, cp :| Selects(h, b.entry, l.entry, r.entry, sp, cp) && mp == Settle(b, l, r, sp, cp);
    SelectsUnique(h, b, l, r, so, co, sp, cp);
  }

  lemma SlotUnique(h: Digests, b: Slot, l: Slot, r: Slot, o: Slot, p: Slot)
    requires Injective(h) && InnerOrderly(h, b, l, r) && LastOrderly(h, b, l, r)
    requires SettlesSlot(h, b, l, r, o) && SettlesSlot(h, b, l, r, p)
    ensures o == p
  {
    hide Merge.MergesAdditions, Merge.MergesSlot, SidesOrderly;
    var mo :| MergesSlot(h, b, l, r, mo) && RepairsSlot(h, mo, o);
    var mp :| MergesSlot(h, b, l, r, mp) && RepairsSlot(h, mp, p);
    SelectsAlike(h, b, l, r, mo, mp);
    if SidesOrderly(h, b, l, r) { MergesSlotUnique(h, b, l, r, mo, mp); }
    if Repairable(mo) {
      var c := mo.conflict.value;
      var m :| MergesAdditions(h, c.local.value, c.remote.value, m)
        && MergesAdditions(h, m, mo.entry.value, o.entry.value);
      var n :| MergesAdditions(h, c.local.value, c.remote.value, n)
        && MergesAdditions(h, n, mo.entry.value, p.entry.value);
      AdditionsUnique(h, c.local.value, c.remote.value, m, n);
      AdditionsUnique(h, m, mo.entry.value, o.entry.value, p.entry.value);
    }
  }

  lemma SlotsDiffer(h: Digests, b: Slot, l: Slot, r: Slot) returns (o: Slot, p: Slot)
    requires Injective(h) && NoLoops(h) && !LastOrderly(h, b, l, r)
    ensures SettlesSlot(h, b, l, r, o) && SettlesSlot(h, b, l, r, p) && o != p
  {
    hide Merge.MergesAdditions;
    var mid :| MergesSlot(h, b, l, r, mid)
      && !(if Repairable(mid) then
             forall m | MergesAdditions(h, mid.conflict.value.local.value, mid.conflict.value.remote.value, m) ::
               Orderly(h, m.sources, mid.entry.value.sources)
           else mid.entry.Some? ==> SidesOrderly(h, b, l, r));
    if Repairable(mid) {
      var m :| MergesAdditions(h, mid.conflict.value.local.value, mid.conflict.value.remote.value, m)
               && !Orderly(h, m.sources, mid.entry.value.sources);
      var x, y := AdditionsDiffer(h, m, mid.entry.value);
      o, p := Slot(Some(x), false, None), Slot(Some(y), false, None);
    } else {
      var x, y := AdditionsDiffer(h, l.entry.value, r.entry.value);
      assert Selects(h, b.entry, l.entry, r.entry, Some(x), false)
             && Selects(h, b.entry, l.entry, r.entry, Some(y), false);
      o, p := Settle(b, l, r, Some(x), false), Settle(b, l, r, Some(y), false);
      assert MergesSlot(h, b, l, r, o) && MergesSlot(h, b, l, r, p);
      SelectsAlike(h, b, l, r, mid, o);
      SelectsAlike(h, b, l, r, mid, p);
      assert RepairsSlot(h, o, o) && RepairsSlot(h, p, p);
    }
  }

  /** The vault with another slot. */
  function WithSlot(d: Data, id: string, s: Slot): Data {
    d.(entries := if s.entry.Some? then d.entries[id := s.entry.value] else d.entries - {id},
       deleted := if s.deleted then d.deleted + {id} else d.deleted - {id},
       conflicts := if s.conflict.Some? then d.conflicts[id := s.conflict.value] else d.conflicts - {id})
  }

  lemma OtherOutcome(h: Digests, b: Data, l: Data, r: Data, out: Data, id: string, s: Slot) returns (other: Data)
    requires Merged(h, b, l, r, out) && SettlesSlot(h, SlotAt(b, id), SlotAt(l, id), SlotAt(r, id), s)
    ensures Merged(h, b, l, r, other) && SlotAt(other, id) == s
  {
    var next := WithSlot(out, id, s);
    other := next.(activity := MergeActivities(r.activity, l.activity, next.entries.Keys));
    forall i ensures SettlesSlot(h, SlotAt(b, i), SlotAt(l, i), SlotAt(r, i), SlotAt(other, i)) {
      assert SettlesSlot(h, SlotAt(b, i), SlotAt(l, i), SlotAt(r, i), SlotAt(out, i));
      assert SlotAt(other, i) == if i == id then s else SlotAt(out, i);
    }
  }

  ghost predicate AllLastOrderly(h: Digests, b: Data, l: Data, r: Data) {
    forall id :: LastOrderly(h, SlotAt(b, id), SlotAt(l, id), SlotAt(r, id))
  }

  ghost predicate AllInnerOrderly(h: Digests, b: Data, l: Data, r: Data) {
    forall id :: InnerOrderly(h, SlotAt(b, id), SlotAt(l, id), SlotAt(r, id))
  }

  lemma IterationOrderIrrelevant(h: Digests, b: Data, l: Data, r: Data, out: Data, other: Data)
    requires Injective(h) && AllInnerOrderly(h, b, l, r) && AllLastOrderly(h, b, l, r)
    requires Merged(h, b, l, r, out) && Merged(h, b, l, r, other)
    ensures out == other
  {
    forall id ensures SlotAt(out, id) == SlotAt(other, id) {
      SlotUnique(h, SlotAt(b, id), SlotAt(l, id), SlotAt(r, id), SlotAt(out, id), SlotAt(other, id));
    }
    SlotsDetermine(out, other);
  }

  /** A merge with one outcome, whatever the map iteration order, has an orderly last additive merge for
      every id. */
  lemma OneOutcomeIsOrderly(h: Digests, b: Data, l: Data, r: Data, out: Data)
    requires Injective(h) && NoLoops(h) && Merged(h, b, l, r, out)
    requires forall other | Merged(h, b, l, r, other) :: other == out
    ensures AllLastOrderly(h, b, l, r)
  {
    if !AllLastOrderly(h, b, l, r) {
      var id :| !LastOrderly(h, SlotAt(b, id), SlotAt(l, id), SlotAt(r, id));
      var o, p := SlotsDiffer(h, SlotAt(b, id), SlotAt(l, id), SlotAt(r, id));
      var other := OtherOutcome(h, b, l, r, out, id, if SlotAt(out, id) == o then p else o);
    }
  }

  /** Exactly when it has one outcome. The premiss on what repairs build on is void for a merge that closes
      no conflict. */
  lemma IterationOrderIrrelevantIff(h: Digests, b: Data, l: Data, r: Data, out: Data)
    requires Injective(h) && NoLoops(h) && AllInnerOrderly(h, b, l, r) && Merged(h, b, l, r, out)
    ensures (forall other | Merged(h, b, l, r, other) :: other == out) <==> AllLastOrderly(h, b, l, r)
  {
    if AllLastOrderly(h, b, l, r) {
      forall other | Merged(h, b, l, r, other) ensures other == out {
        IterationOrderIrrelevant(h, b, l, r, out, other);
      }
    } else if forall other | Merged(h, b, l, r, other) :: other == out {
      OneOutcomeIsOrderly(h, b, l, r, out);
    }
  }

  // --- source keys as the program makes them ---

  ghost predicate WellKeyedSlot(h: Digests, s: Slot) {
    forall e | e in Mentions(s) :: WellKeyed(h, e.sources)
  }

  ghost predicate WellKeyedVault(h: Digests, d: Data) {
    forall id :: WellKeyedSlot(h, SlotAt(d, id))
  }

  lemma AdditionsWellKeyed(h: Digests, a: Entry, b: Entry, m: Entry)
    requires Injective(h) && WellKeyed(h, a.sources) && WellKeyed(h, b.sources) && MergesAdditions(h, a, b, m)
    ensures WellKeyed(h, m.sources) && a.sources.Values + b.sources.Values == m.sources.Values
  {
    WellKeyedIsRoomy(h, a.sources, b.sources);
    AdditionsJoin(h, a, b, m);
    JoinedWellKeyed(h, a.sources, b.sources, m.sources);
    SourcesSurvive(h, a, b, m);
  }

  lemma SelectedWellKeyed(h: Digests, b: Slot, l: Slot, r: Slot, selected: Option<Entry>, clash: bool)
    requires Injective(h) && WellKeyedSlot(h, l) && WellKeyedSlot(h, r)
    requires Selects(h, b.entry, l.entry, r.entry, selected, clash) && selected.Some?
    ensures WellKeyed(h, selected.value.sources)
    ensures Adds(b, l, r) ==>
              l.entry.value.sources.Values + r.entry.value.sources.Values == selected.value.sources.Values
  {
    hide Merge.MergesAdditions;
    if l.entry != r.entry && b.entry != l.entry && b.entry != r.entry && l.entry.Some? && r.entry.Some? {
      assert WellKeyed(h, l.entry.value.sources) && WellKeyed(h, r.entry.value.sources);
      if CompatibleEntries(l.entry, r.entry) {
        AdditionsWellKeyed(h, l.entry.value, r.entry.value, selected.value);
      }
    }
  }

  lemma MergesSlotWellKeyed(h: Digests, b: Slot, l: Slot, r: Slot, mid: Slot)
    requires Injective(h) && WellKeyedSlot(h, l) && WellKeyedSlot(h, r) && MergesSlot(h, b, l, r, mid)
    ensures WellKeyedSlot(h, mid)
    ensures Adds(b, l, r) && mid.entry.Some? ==>
              l.entry.value.sources.Values + r.entry.value.sources.Values == mid.entry.value.sources.Values
  {
    var selected, clash :| Selects(h, b.entry, l.entry, r.entry, selected, clash)
      && mid == Settle(b, l, r, selected, clash);
    if selected.Some? { SelectedWellKeyed(h, b, l, r, selected, clash); }
    forall e | e in Mentions(mid) ensures WellKeyed(h, e.sources) {
      SettledMentions(b, l, r, selected, clash, e);
    }
  }

  /** Merging well-keyed vaults gives a well-keyed vault, in which a merged entry has lost no source. */
  lemma MergeKeepsSourceKeys(h: Digests, b: Slot, l: Slot, r: Slot, o: Slot)
    requires Injective(h) && WellKeyedSlot(h, l) && WellKeyedSlot(h, r) && SettlesSlot(h, b, l, r, o)
    ensures WellKeyedSlot(h, o)
    ensures Adds(b, l, r) && o.entry.Some? ==>
              l.entry.value.sources.Values + r.entry.value.sources.Values <= o.entry.value.sources.Values
  {
    hide Merge.MergesAdditions, Merge.MergesSlot;
    var mid :| MergesSlot(h, b, l, r, mid) && RepairsSlot(h, mid, o);
    MergesSlotWellKeyed(h, b, l, r, mid);
    RepairKeepsSourceKeys(h, mid, o);
  }

  lemma SettledMentions(b: Slot, l: Slot, r: Slot, selected: Option<Entry>, clash: bool, e: Entry)
    requires e in Mentions(Settle(b, l, r, selected, clash))
    ensures selected == Some(e) || e in Mentions(l) || e in Mentions(r)
  {}

  lemma RepairKeepsSourceKeys(h: Digests, s: Slot, o: Slot)
    requires Injective(h) && WellKeyedSlot(h, s) && RepairsSlot(h, s, o)
    ensures WellKeyedSlot(h, o)
    ensures s.entry.Some? ==> o.entry.Some? && s.entry.value.sources.Values <= o.entry.value.sources.Values
  {
    hide Merge.MergesAdditions;
    if Repairable(s) {
      var c := s.conflict.value;
      var m :| MergesAdditions(h, c.local.value, c.remote.value, m)
        && MergesAdditions(h, m, s.entry.value, o.entry.value);
      AdditionsWellKeyed(h, c.local.value, c.remote.value, m);
      AdditionsWellKeyed(h, m, s.entry.value, o.entry.value);
    }
  }

  /** Between well-keyed vaults the order never matters. */
  lemma WellKeyedIsOrderly(h: Digests, b: Slot, l: Slot, r: Slot)
    requires Injective(h) && WellKeyedSlot(h, l) && WellKeyedSlot(h, r)
    ensures InnerOrderly(h, b, l, r) && LastOrderly(h, b, l, r)
  {
    hide Merge.MergesAdditions, Merge.MergesSlot, Sources.Orderly;
    if Adds(b, l, r) { WellKeyedIsRoomy(h, l.entry.value.sources, r.entry.value.sources); }
    forall mid | MergesSlot(h, b, l, r, mid) && Repairable(mid)
      ensures Orderly(h, mid.conflict.value.local.value.sources, mid.conflict.value.remote.value.sources)
    {
      MergesSlotWellKeyed(h, b, l, r, mid);
      WellKeyedIsRoomy(h, mid.conflict.value.local.value.sources, mid.conflict.value.remote.value.sources);
    }
    forall mid, m | MergesSlot(h, b, l, r, mid) && Repairable(mid)
                    && MergesAdditions(h, mid.conflict.value.local.value, mid.conflict.value.remote.value, m)
      ensures Orderly(h, m.sources, mid.entry.value.sources)
    {
      MergesSlotWellKeyed(h, b, l, r, mid);
      AdditionsWellKeyed(h, mid.conflict.value.local.value, mid.conflict.value.remote.value, m);
      WellKeyedIsRoomy(h, m.sources, mid.entry.value.sources);
    }
  }

  lemma WellKeyedMergesAgree(h: Digests, b: Data, l: Data, r: Data, out: Data, other: Data)
    requires Injective(h) && WellKeyedVault(h, l) && WellKeyedVault(h, r)
    requires Merged(h, b, l, r, out) && Merged(h, b, l, r, other)
    ensures out == other
  {
    forall id
      ensures InnerOrderly(h, SlotAt(b, id), SlotAt(l, id), SlotAt(r, id))
      ensures LastOrderly(h, SlotAt(b, id), SlotAt(l, id), SlotAt(r, id))
    {
      assert WellKeyedSlot(h, SlotAt(l, id)) && WellKeyedSlot(h, SlotAt(r, id));
      WellKeyedIsOrderly(h, SlotAt(b, id), SlotAt(l, id), SlotAt(r, id));
    }
    IterationOrderIrrelevant(h, b, l, r, out, other);
  }
}
