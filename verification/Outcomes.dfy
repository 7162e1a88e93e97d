/** What a merge makes of the three vaults, id by id, said in terms of the entries themselves
    (internal/cloudsync/data.go, internal/cloudsync/merge_additions.go). */
module Outcomes {
  import opened Text
  import opened Observations
  import opened Vault
  import opened Merge
  import MergeLaws
  import Ops = VaultOps

  // --- when two entries are one connection ---

  function Port(s: Server): int {
    if s.port == 0 then 22 else s.port
  }

  /** The same connection settings and the same metadata; what a device observed, its bindings and its key path
      do not matter, nor do the case of the host and the space around it. */
  predicate SameSettings(s: Server, t: Server) {
    && ToLower(TrimSpace(s.host)) == ToLower(TrimSpace(t.host)) && Port(s) == Port(t)
    && s.user == t.user && s.auth == t.auth
    && s.proxyJump == t.proxyJump && s.proxyCommand == t.proxyCommand && s.proxy == t.proxy && s.forwards == t.forwards
    && s.meta == t.meta
  }

  lemma CleanServerIff(s: Server, t: Server)
    ensures CleanServer(s) == CleanServer(t) <==> SameSettings(s, t)
  {}

  /** Routes have digests of their own. */
  ghost predicate RoutesDiffer(h: Digests) {
    forall a, b :: h.route(a) == h.route(b) ==> a == b
  }

  /** An id stands for a route: everything that leads to the host, and nothing that describes it. */
  lemma EntryIdIff(h: Digests, s: Server, t: Server)
    requires RoutesDiffer(h)
    ensures EntryId(h, s) == EntryId(h, t) <==>
              && s.host == t.host && s.port == t.port && s.user == t.user && s.auth == t.auth
              && s.proxyJump == t.proxyJump && s.proxyCommand == t.proxyCommand && s.proxy == t.proxy
              && s.forwards == t.forwards
  {}

  /** One id and the same settings. */
  predicate OneConnection(x: Option<Entry>, y: Option<Entry>) {
    x.Some? && y.Some? && x.value.id == y.value.id && SameSettings(x.value.server, y.value.server)
  }

  // --- slot by slot ---

  /** The value of the side that moved; if both did, the remote one. */
  function Latest<T(==)>(b: T, l: T, r: T): T {
    if r != b then r else l
  }

  predicate BothMoved<T(==)>(b: T, l: T, r: T) {
    l != r && l != b && r != b
  }

  /** One identity added on both sides. */
  predicate AddedTwice(h: Digests, b: Option<Entry>, l: Option<Entry>, r: Option<Entry>) {
    b.None? && l.Some? && r.Some? && EntryId(h, l.value.server) == EntryId(h, r.value.server)
  }

  /** Both sides changed the entry, and not in ways that can be added up. */
  predicate Disagree(h: Digests, b: Option<Entry>, l: Option<Entry>, r: Option<Entry>) {
    BothMoved(b, l, r) && !OneConnection(l, r) && !AddedTwice(h, b, l, r)
  }

  /** A tombstone stays unless a side lifted it. */
  predicate Buries(b: Slot, l: Slot, r: Slot) {
    if b.deleted then l.deleted && r.deleted else l.deleted || r.deleted
  }

  /** The sides disagree, or a tombstone withholds an entry. */
  predicate Opens(h: Digests, b: Slot, l: Slot, r: Slot) {
    Disagree(h, b.entry, l.entry, r.entry) || (Buries(b, l, r) && Latest(b.entry, l.entry, r.entry).Some?)
  }

  /** The entry and both sides of an older conflict have become one connection. */
  predicate Closes(h: Digests, b: Slot, l: Slot, r: Slot) {
    var c := Latest(b.conflict, l.conflict, r.conflict);
    && !Opens(h, b, l, r) && !Buries(b, l, r) && c.Some?
    && OneConnection(c.value.local, c.value.remote) && OneConnection(c.value.local, Latest(b.entry, l.entry, r.entry))
  }

  ghost predicate ConflictOutcome(h: Digests, b: Slot, l: Slot, r: Slot, o: Slot) {
    o.conflict == if Opens(h, b, l, r) then Some(Conflict(l.entry, r.entry))
                  else if Closes(h, b, l, r) then None
                  else Latest(b.conflict, l.conflict, r.conflict)
  }

  /** Both sides changed the entry, and what they added is added up. */
  predicate Adds(h: Digests, b: Slot, l: Slot, r: Slot) {
    BothMoved(b.entry, l.entry, r.entry) && !Disagree(h, b.entry, l.entry, r.entry)
  }

  /** Whose aliases and credentials an entry collects. */
  function Sources(h: Digests, b: Slot, l: Slot, r: Slot): set<Entry> {
    var latest := Latest(b.entry, l.entry, r.entry);
    var c := Latest(b.conflict, l.conflict, r.conflict);
    (if latest.Some? then {latest.value} else {})
    + (if Adds(h, b, l, r) && l.entry.Some? then {l.entry.value} else {})
    + (if Closes(h, b, l, r) then {c.value.local.value, c.value.remote.value} else {})
  }

  ghost predicate EntryOutcome(h: Digests, b: Slot, l: Slot, r: Slot, o: Slot) {
    var latest := Latest(b.entry, l.entry, r.entry);
    && (o.deleted <==> Buries(b, l, r))
    && (o.entry.Some? <==> latest.Some? && !Buries(b, l, r))
    && (o.entry.Some? ==>
          && o.entry.value.id == latest.value.id && o.entry.value.server == latest.value.server
          && SetOf(o.entry.value.aliases) == MergeLaws.Aliases(Sources(h, b, l, r))
          && SetOf(o.entry.value.credentialIds) == MergeLaws.References(Sources(h, b, l, r))
          && (!Adds(h, b, l, r) && !Closes(h, b, l, r) ==> o.entry == latest))
  }

  /** What the switch selects. */
  lemma Selected(h: Digests, b: Option<Entry>, l: Option<Entry>, r: Option<Entry>, s: Option<Entry>, clash: bool)
    requires Selects(h, b, l, r, s, clash)
    ensures clash <==> Disagree(h, b, l, r)
    ensures s.Some? <==> Latest(b, l, r).Some?
    ensures s.Some? ==> s.value.id == Latest(b, l, r).value.id && s.value.server == Latest(b, l, r).value.server
    ensures s.Some? && !(BothMoved(b, l, r) && !clash) ==> s == Latest(b, l, r)
    ensures BothMoved(b, l, r) && !clash ==>
              && l.Some? && r.Some? && s.Some?
              && SetOf(s.value.aliases) == SetOf(l.value.aliases) + SetOf(r.value.aliases)
              && SetOf(s.value.credentialIds) == SetOf(l.value.credentialIds) + SetOf(r.value.credentialIds)
  {
    if l.Some? && r.Some? { CleanServerIff(l.value.server, r.value.server); }
    hide SameSettings, CleanServer;
    if BothMoved(b, l, r) && OneConnection(l, r) {
      MergeLaws.AdditionsContainBoth(h, l.value, r.value, s.value);
    }
  }

  lemma Repaired(h: Digests, s: Slot, o: Slot)
    requires RepairsSlot(h, s, o)
    ensures var closes := s.entry.Some? && !s.deleted && s.conflict.Some?
                          && OneConnection(s.conflict.value.local, s.conflict.value.remote)
                          && OneConnection(s.conflict.value.local, s.entry);
            if closes then
              var c := s.conflict.value;
              && o.entry.Some? && !o.deleted && o.conflict.None?
              && o.entry.value.id == s.entry.value.id && o.entry.value.server == s.entry.value.server
              && SetOf(o.entry.value.aliases) ==
                   SetOf(c.local.value.aliases) + SetOf(c.remote.value.aliases) + SetOf(s.entry.value.aliases)
              && SetOf(o.entry.value.credentialIds) ==
                   SetOf(c.local.value.credentialIds) + SetOf(c.remote.value.credentialIds)
                     + SetOf(s.entry.value.credentialIds)
            else o == s
  {
    if s.conflict.Some? && s.conflict.value.local.Some? {
      var c := s.conflict.value;
      if c.remote.Some? { CleanServerIff(c.local.value.server, c.remote.value.server); }
      if s.entry.Some? { CleanServerIff(c.local.value.server, s.entry.value.server); }
    }
    hide SameSettings, CleanServer, Merge.MergesAdditions;
    if Repairable(s) {
      var c := s.conflict.value;
      var m :| MergesAdditions(h, c.local.value, c.remote.value, m)
        && MergesAdditions(h, m, s.entry.value, o.entry.value);
      MergeLaws.AdditionsContainBoth(h, c.local.value, c.remote.value, m);
      MergeLaws.AdditionsContainBoth(h, m, s.entry.value, o.entry.value);
    }
  }

  lemma SameServer(x: Option<Entry>, y: Option<Entry>, z: Option<Entry>)
    requires y.Some? <==> z.Some?
    requires y.Some? ==> y.value.id == z.value.id && y.value.server == z.value.server
    ensures OneConnection(x, y) <==> OneConnection(x, z)
  {}

  /** What the entry loop leaves, before repairs. */
  lemma Settled(h: Digests, b: Slot, l: Slot, r: Slot, s: Option<Entry>, clash: bool)
    requires Selects(h, b.entry, l.entry, r.entry, s, clash)
    ensures var mid := Settle(b, l, r, s, clash);
            && mid.deleted == Buries(b, l, r)
            && mid.entry == (if Buries(b, l, r) then None else s)
            && mid.conflict == (if Opens(h, b, l, r) then Some(Conflict(l.entry, r.entry))
                                else Latest(b.conflict, l.conflict, r.conflict))
  {
    Selected(h, b.entry, l.entry, r.entry, s, clash);
    hide Merge.Selects, Disagree;
    assert Choose(b.deleted, l.deleted, r.deleted) == Buries(b, l, r);
    assert Choose(b.conflict, l.conflict, r.conflict) == Latest(b.conflict, l.conflict, r.conflict);
  }

  lemma ClosesIff(h: Digests, b: Slot, l: Slot, r: Slot, s: Option<Entry>, clash: bool)
    requires Selects(h, b.entry, l.entry, r.entry, s, clash)
    ensures var mid := Settle(b, l, r, s, clash);
            Closes(h, b, l, r) <==>
              && mid.entry.Some? && !mid.deleted && mid.conflict.Some?
              && OneConnection(mid.conflict.value.local, mid.conflict.value.remote)
              && OneConnection(mid.conflict.value.local, mid.entry)
  {
    Settled(h, b, l, r, s, clash);
    Selected(h, b.entry, l.entry, r.entry, s, clash);
    hide Merge.Selects, Settle, SameSettings, Latest;
    var mid := Settle(b, l, r, s, clash);
    if mid.conflict.Some? { SameServer(mid.conflict.value.local, s, Latest(b.entry, l.entry, r.entry)); }
  }

  lemma SlotOutcome(h: Digests, b: Slot, l: Slot, r: Slot, o: Slot)
    requires SettlesSlot(h, b, l, r, o)
    ensures EntryOutcome(h, b, l, r, o) && ConflictOutcome(h, b, l, r, o)
  {
    hide Merge.Selects, Merge.Settle, Merge.RepairsSlot, OneConnection, Disagree, Opens, Closes, Buries, Latest,
      BothMoved;
    var mid :| MergesSlot(h, b, l, r, mid) && RepairsSlot(h, mid, o);
    var s, clash :| Selects(h, b.entry, l.entry, r.entry, s, clash) && mid == Settle(b, l, r, s, clash);
    Settled(h, b, l, r, s, clash);
    Repaired(h, mid, o);
    ClosesIff(h, b, l, r, s, clash);
    Selected(h, b.entry, l.entry, r.entry, s, clash);
    ClosesMeans(h, b, l, r);
    if o.entry.Some? { Collected(h, b, l, r, s.value, o.entry.value); }
  }

  lemma ClosesMeans(h: Digests, b: Slot, l: Slot, r: Slot)
    ensures Closes(h, b, l, r) ==> !Opens(h, b, l, r) && Latest(b.conflict, l.conflict, r.conflict).Some?
  {}

  /** The entry collects what its sources have. */
  lemma Collected(h: Digests, b: Slot, l: Slot, r: Slot, s: Entry, e: Entry)
    requires Latest(b.entry, l.entry, r.entry).Some?
    requires var latest := Latest(b.entry, l.entry, r.entry).value;
             && (!Adds(h, b, l, r) ==> s == latest)
             && (Adds(h, b, l, r) ==>
                   && l.entry.Some? && r.entry.Some?
                   && SetOf(s.aliases) == SetOf(l.entry.value.aliases) + SetOf(r.entry.value.aliases)
                   && SetOf(s.credentialIds) ==
                        SetOf(l.entry.value.credentialIds) + SetOf(r.entry.value.credentialIds))
    requires if Closes(h, b, l, r) then
               var c := Latest(b.conflict, l.conflict, r.conflict).value;
               && SetOf(e.aliases) ==
                    SetOf(c.local.value.aliases) + SetOf(c.remote.value.aliases) + SetOf(s.aliases)
               && SetOf(e.credentialIds) ==
                    SetOf(c.local.value.credentialIds) + SetOf(c.remote.value.credentialIds) + SetOf(s.credentialIds)
             else e == s
    ensures SetOf(e.aliases) == MergeLaws.Aliases(Sources(h, b, l, r))
    ensures SetOf(e.credentialIds) == MergeLaws.References(Sources(h, b, l, r))
  {
    hide Disagree;
    var all := Sources(h, b, l, r);
    var latest := Latest(b.entry, l.entry, r.entry).value;
    var own := if Adds(h, b, l, r) then {latest, l.entry.value} else {latest};
    PoolOfTwo(latest, if Adds(h, b, l, r) then l.entry.value else latest);
    if Closes(h, b, l, r) {
      var c := Latest(b.conflict, l.conflict, r.conflict).value;
      PoolOfTwo(c.local.value, c.remote.value);
      PoolOfBoth(own, {c.local.value, c.remote.value});
      assert all == own + {c.local.value, c.remote.value};
    } else {
      assert all == own;
    }
  }

  lemma PoolOfTwo(x: Entry, y: Entry)
    ensures MergeLaws.Aliases({x, y}) == SetOf(x.aliases) + SetOf(y.aliases)
    ensures MergeLaws.References({x, y}) == SetOf(x.credentialIds) + SetOf(y.credentialIds)
    ensures {x, x} == {x}
  {
    assert x in {x, y} && y in {x, y};
  }

  lemma PoolOfBoth(p: set<Entry>, q: set<Entry>)
    ensures MergeLaws.Aliases(p + q) == MergeLaws.Aliases(p) + MergeLaws.Aliases(q)
    ensures MergeLaws.References(p + q) == MergeLaws.References(p) + MergeLaws.References(q)
  {}

  lemma PoolOfThree(x: Entry, y: Entry, z: Entry)
    ensures MergeLaws.Aliases({x, y, z}) == SetOf(y.aliases) + SetOf(z.aliases) + SetOf(x.aliases)
    ensures MergeLaws.References({x, y, z}) == SetOf(y.credentialIds) + SetOf(z.credentialIds) + SetOf(x.credentialIds)
  {
    PoolOfTwo(x, x);
    PoolOfTwo(y, z);
    PoolOfBoth({x}, {y, z});
    assert {x} + {y, z} == {x, y, z};
  }

  // --- whole vaults ---

  /** What a merge lists, and what it buries. */
  lemma MergedEntries(h: Digests, b: Data, l: Data, r: Data, out: Data, id: string)
    requires Merged(h, b, l, r, out)
    ensures EntryOutcome(h, SlotAt(b, id), SlotAt(l, id), SlotAt(r, id), SlotAt(out, id))
  {
    SlotOutcome(h, SlotAt(b, id), SlotAt(l, id), SlotAt(r, id), SlotAt(out, id));
  }

  /** Exactly when a merge opens a conflict, closes one, or carries one on. */
  lemma MergedConflicts(h: Digests, b: Data, l: Data, r: Data, out: Data, id: string)
    requires Merged(h, b, l, r, out)
    ensures ConflictOutcome(h, SlotAt(b, id), SlotAt(l, id), SlotAt(r, id), SlotAt(out, id))
  {
    SlotOutcome(h, SlotAt(b, id), SlotAt(l, id), SlotAt(r, id), SlotAt(out, id));
  }

  /** No edit of an entry is silently dropped: for every id, each side's changed entry is listed with its
      settings, its aliases and its credentials, or kept verbatim on its side of the conflict. The one exception
      are the settings of an entry that both sides added, which are the remote ones. */
  lemma EditsSurvive(h: Digests, b: Data, l: Data, r: Data, out: Data, id: string)
    requires Merged(h, b, l, r, out)
    ensures id in l.entries && Get(l.entries, id) != Get(b.entries, id) ==>
              || (id in out.entries && MergeLaws.Contains(out.entries[id], l.entries[id])
                  && (SameSettings(out.entries[id].server, l.entries[id].server)
                      || AddedTwice(h, Get(b.entries, id), Get(l.entries, id), Get(r.entries, id))))
              || (id in out.conflicts && out.conflicts[id].local == Some(l.entries[id]))
    ensures id in r.entries && Get(r.entries, id) != Get(b.entries, id) ==>
              || (id in out.entries && MergeLaws.Contains(out.entries[id], r.entries[id])
                  && SameSettings(out.entries[id].server, r.entries[id].server))
              || (id in out.conflicts && out.conflicts[id].remote == Some(r.entries[id]))
  {
    EditsSurviveAt(h, SlotAt(b, id), SlotAt(l, id), SlotAt(r, id), SlotAt(out, id));
  }

  lemma EditsSurviveAt(h: Digests, b: Slot, l: Slot, r: Slot, o: Slot)
    requires SettlesSlot(h, b, l, r, o)
    ensures l.entry.Some? && l.entry != b.entry ==>
              || (o.entry.Some? && MergeLaws.Contains(o.entry.value, l.entry.value)
                  && (SameSettings(o.entry.value.server, l.entry.value.server)
                      || AddedTwice(h, b.entry, l.entry, r.entry)))
              || (o.conflict.Some? && o.conflict.value.local == l.entry)
    ensures r.entry.Some? && r.entry != b.entry ==>
              || (o.entry.Some? && MergeLaws.Contains(o.entry.value, r.entry.value)
                  && SameSettings(o.entry.value.server, r.entry.value.server))
              || (o.conflict.Some? && o.conflict.value.remote == r.entry)
  {
    SlotOutcome(h, b, l, r, o);
    hide Merge.SettlesSlot, EntryId, SameSettings, Closes, MergeLaws.Contains;
    if o.entry.Some? {
      forall e | e in Sources(h, b, l, r) ensures MergeLaws.Contains(o.entry.value, e) {
        ContainsSource(o.entry.value, Sources(h, b, l, r), e);
      }
      Alike(o.entry.value.server);
    }
  }

  lemma Alike(s: Server)
    ensures SameSettings(s, s)
  {}

  lemma ContainsSource(m: Entry, all: set<Entry>, e: Entry)
    requires e in all && SetOf(m.aliases) == MergeLaws.Aliases(all)
             && SetOf(m.credentialIds) == MergeLaws.References(all)
    ensures MergeLaws.Contains(m, e)
  {
    assert SetOf(e.aliases) <= MergeLaws.Aliases(all) && SetOf(e.credentialIds) <= MergeLaws.References(all);
  }

  /** No edit is overruled in silence: an entry that both sides changed, to different things, is listed without
      a conflict only if both have the settings that are listed. The one exception is an entry that both added. */
  lemma NoSilentOverrule(h: Digests, b: Data, l: Data, r: Data, out: Data, id: string)
    requires Merged(h, b, l, r, out) && id in l.entries && id in r.entries && l.entries[id] != r.entries[id]
    requires Get(b.entries, id) != Some(l.entries[id]) && Get(b.entries, id) != Some(r.entries[id])
    requires id in out.entries && id !in out.conflicts
    ensures || (SameSettings(out.entries[id].server, l.entries[id].server)
                && SameSettings(out.entries[id].server, r.entries[id].server))
            || (id !in b.entries && EntryId(h, l.entries[id].server) == EntryId(h, r.entries[id].server)
                && out.entries[id].server == r.entries[id].server)
  {
    SlotOutcome(h, SlotAt(b, id), SlotAt(l, id), SlotAt(r, id), SlotAt(out, id));
    hide Merged, EntryId;
  }

  /** ... and if they did not agree, the conflict holds both. */
  lemma DisagreementIsKept(h: Digests, b: Data, l: Data, r: Data, out: Data, id: string)
    requires Merged(h, b, l, r, out) && id in l.entries && id in r.entries
    requires Get(b.entries, id) != Some(l.entries[id]) && Get(b.entries, id) != Some(r.entries[id])
    requires !SameSettings(l.entries[id].server, r.entries[id].server)
    requires id in b.entries || EntryId(h, l.entries[id].server) != EntryId(h, r.entries[id].server)
    ensures Get(out.conflicts, id) == Some(Conflict(Some(l.entries[id]), Some(r.entries[id])))
  {
    SlotOutcome(h, SlotAt(b, id), SlotAt(l, id), SlotAt(r, id), SlotAt(out, id));
    hide Merged, EntryId;
  }

  /** Observations only get newer, and stay with listed entries. */
  lemma MergedActivity(h: Digests, b: Data, l: Data, r: Data, out: Data, id: string)
    requires Merged(h, b, l, r, out)
    ensures id in out.activity <==> id in out.entries && (id in l.activity || id in r.activity)
    ensures id in out.activity && id in l.activity ==>
              && l.activity[id].lastConnected <= out.activity[id].lastConnected
              && l.activity[id].lastSeen <= out.activity[id].lastSeen
    ensures id in out.activity && id in r.activity ==>
              && r.activity[id].lastConnected <= out.activity[id].lastConnected
              && r.activity[id].lastSeen <= out.activity[id].lastSeen
  {}

  /** The hardware of a device is the newest sample of both sides: no older than either, really taken, and available
      if the newer one is. */
  lemma MergedHardware(h: Digests, b: Data, l: Data, r: Data, out: Data, id: string)
    requires Merged(h, b, l, r, out)
    ensures id in out.hardware <==> id in l.hardware || id in r.hardware
    ensures id in out.hardware ==>
              var x := if id in l.hardware then l.hardware[id] else None;
              var y := if id in r.hardware then r.hardware[id] else None;
              var z := out.hardware[id];
              && (z.Some? <==> x.Some? || y.Some?)
              && (x.Some? ==> Effective(x.value) <= Effective(z.value))
              && (y.Some? ==> Effective(y.value) <= Effective(z.value))
              && (z.Some? ==>
                    || (x.Some? && SameReadings(x.value, z.value))
                    || (y.Some? && SameReadings(y.value, z.value)))
  {}

  /** An entry that both sides added keeps all sources of the local one, and those of the remote one under keys that
      are not taken; unless it closes a conflict. */
  lemma AddedTwiceSources(h: Digests, b: Slot, l: Slot, r: Slot, o: Slot, k: string)
    requires SettlesSlot(h, b, l, r, o) && AddedTwice(h, b.entry, l.entry, r.entry) && l.entry != r.entry
    requires !OneConnection(l.entry, r.entry) && !Closes(h, b, l, r) && o.entry.Some?
    ensures Get(o.entry.value.sources, k) ==
            if k in l.entry.value.sources then Some(l.entry.value.sources[k]) else Get(r.entry.value.sources, k)
  {
    var mid :| MergesSlot(h, b, l, r, mid) && RepairsSlot(h, mid, o);
    var s, clash :| Selects(h, b.entry, l.entry, r.entry, s, clash) && mid == Settle(b, l, r, s, clash);
    CleanServerIff(l.entry.value.server, r.entry.value.server);
    ClosesIff(h, b, l, r, s, clash);
    Repaired(h, mid, o);
    hide EntryId, SameSettings, CleanServer, Closes, Merge.RepairsSlot, Merge.MergesAdditions;
    assert s == Some(SameIdentity(l.entry.value, r.entry.value));
  }

  /** No credential is lost or changed. */
  lemma MergedCredentials(h: Digests, b: Data, l: Data, r: Data, out: Data, cid: string)
    requires Merged(h, b, l, r, out) && !CredentialClash(l, r)
    ensures cid in l.credentials ==> Get(out.credentials, cid) == Some(l.credentials[cid])
    ensures cid in r.credentials ==> Get(out.credentials, cid) == Some(r.credentials[cid])
    ensures cid in out.credentials ==> cid in l.credentials || cid in r.credentials
  {}

  /** A repair closes a conflict exactly if its entry is listed, not deleted, and of one connection with both
      sides, and adds them up; everything else stays as it was. */
  ghost predicate RepairOutcome(s: Slot, o: Slot) {
    if s.entry.Some? && !s.deleted && s.conflict.Some?
       && OneConnection(s.conflict.value.local, s.conflict.value.remote)
       && OneConnection(s.conflict.value.local, s.entry) then
      var all := {s.entry.value, s.conflict.value.local.value, s.conflict.value.remote.value};
      && o.entry.Some? && o.conflict.None? && !o.deleted
      && o.entry.value.id == s.entry.value.id && o.entry.value.server == s.entry.value.server
      && SetOf(o.entry.value.aliases) == MergeLaws.Aliases(all)
      && SetOf(o.entry.value.credentialIds) == MergeLaws.References(all)
    else o == s
  }

  lemma RepairsIff(h: Digests, d: Data, out: Data, id: string)
    requires Ops.Repairs(h, d, out)
    ensures RepairOutcome(SlotAt(d, id), SlotAt(out, id))
  {
    var s, o := SlotAt(d, id), SlotAt(out, id);
    assert RepairsSlot(h, s, o);
    Repaired(h, s, o);
    hide Ops.Repairs, Merge.RepairsSlot, OneConnection, MergeLaws.Aliases, MergeLaws.References, SetOf;
    if s.conflict.Some? && s.entry.Some? && s.conflict.value.local.Some? && s.conflict.value.remote.Some? {
      PoolOfThree(s.entry.value, s.conflict.value.local.value, s.conflict.value.remote.value);
    }
  }
}
