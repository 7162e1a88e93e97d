/** Publication in its own form: the configuration's records changed in loops over maps, whose order
    is arbitrary (internal/cloudsync/local_inventory.go). */
module InventoryCode {
  import opened Text
  import opened Wire
  import opened Observations
  import opened Vault
  import opened Inventory

  predicate Numbered(d: Data) {
    forall k | k in d.entries :: d.entries[k].id == k && |k| >= 8 && d.entries[k].aliases != []
  }

  /** What the first pass notes: for an entry the least alias bound to it, the ids of native records,
      the native records to remove, and two counts. */
  datatype Notes = Notes(refs: map<string, string>, native: set<string>, removals: set<string>, removed: nat,
                         protected: nat)

  predicate RefsOk(d: Data, owner: string, m: Servers, left: set<string>, refs: map<string, string>) {
    forall id | id in refs && refs[id] != "" ::
      id in d.entries && id != "" && refs[id] !in left && At(m, refs[id]).Some? && Bound(m[refs[id]].value, id, owner)
  }

  predicate NativeAt(h: Digests, m: Servers, left: set<string>, removals: set<string>, id: string, a: string) {
    a !in left && a !in removals && At(m, a).Some? && NativeFor(h, m[a].value, id)
  }

  ghost predicate NativeOk(h: Digests, m: Servers, left: set<string>, n: Notes) {
    forall id | id in n.native :: exists a :: NativeAt(h, m, left, n.removals, id, a)
  }

  predicate Removable(h: Digests, d: Data, owner: string, c: Anchors, before: Servers, m: Servers, a: string) {
    && a in m && a in before && m[a] == before[a] && m[a].Some? && m[a].value.cloudEntry == ""
    && MayGo(h, d, owner, a, m[a].value) && !Pinned(c, a, m[a].value) && !Jumped(m, a)
  }

  predicate RemovalsOk(h: Digests, d: Data, owner: string, c: Anchors, before: Servers, m: Servers, left: set<string>,
                       removals: set<string>) {
    forall a | a in removals :: a !in left && Removable(h, d, owner, c, before, m, a)
  }

  ghost predicate NotesOk(h: Digests, d: Data, owner: string, c: Anchors, before: Servers, m: Servers,
                          left: set<string>, n: Notes) {
    && RefsOk(d, owner, m, left, n.refs) && NativeOk(h, m, left, n)
    && RemovalsOk(h, d, owner, c, before, m, left, n.removals)
    && Swept(h, d, owner, c, before, m) && left <= m.Keys && forall a | a in left :: m[a] == before[a]
  }

  /** What the first pass has seen: stale records are gone or noted, and no bound record is less than the one noted
      for its entry. */
  ghost predicate Noted(h: Digests, d: Data, owner: string, c: Anchors, before: Servers, m: Servers, left: set<string>,
                        n: Notes) {
    && (forall a | a in before && a !in left && before[a].Some? && MustLeave(h, d, owner, c, before, a) ::
          a !in m || a in n.removals)
    && (forall a | a in before && a !in left && Counts(d, owner, before, a) :: Least(d, owner, before, n.refs, a))
    && (forall a | a in before && a !in left && NativeIn(before, a) :: KnownNative(h, d, before, n.native, a))
    && (forall a | a in m && a !in left && NativeIn(m, a) :: MarkedAt(h, d, owner, m, a))
  }

  predicate NativeIn(m: Servers, a: string) {
    At(m, a).Some? && At(m, a).value.cloudEntry == ""
  }

  predicate KnownNative(h: Digests, d: Data, m: Servers, native: set<string>, a: string)
    requires NativeIn(m, a)
  {
    EntryId(h, CleanServer(m[a].value)) !in d.deleted ==> EntryId(h, CleanServer(m[a].value)) in native
  }

  predicate MarkedAt(h: Digests, d: Data, owner: string, m: Servers, a: string)
    requires NativeIn(m, a)
  {
    EntryId(h, CleanServer(m[a].value)) in d.entries ==> m[a].value.cloudVault != "" || owner == ""
  }

  predicate MustLeave(h: Digests, d: Data, owner: string, c: Anchors, before: Servers, a: string) {
    At(before, a).Some? && !Pinned(c, a, before[a].value) && !Jumped(before, a) && Stale(h, d, owner, before[a].value)
  }

  /** The record is bound to a live entry. */
  predicate Counts(d: Data, owner: string, before: Servers, a: string) {
    Twins(d, owner, before, a, a)
  }

  /** ... which is noted under a name no greater, if none of its names is empty. */
  predicate Least(d: Data, owner: string, before: Servers, refs: map<string, string>, a: string)
    requires At(before, a).Some?
  {
    var id := before[a].value.cloudEntry;
    !Twins(d, owner, before, a, "") ==> id in refs && refs[id] != "" && (refs[id] == a || Less(refs[id], a))
  }

  /** One more record was seen. */
  lemma VisitedNoted(h: Digests, d: Data, owner: string, c: Anchors, before: Servers, m: Servers, o: Servers,
                     left: set<string>, n: Notes, k: Notes, alias: string)
    requires Noted(h, d, owner, c, before, m, left, n) && alias in left
    requires o.Keys <= m.Keys && n.removals <= k.removals && n.native <= k.native
    requires forall a | a in o && a != alias :: o[a] == m[a]
    requires NativeIn(before, alias) ==> KnownNative(h, d, before, k.native, alias)
    requires NativeIn(o, alias) ==> MarkedAt(h, d, owner, o, alias)
    requires MustLeave(h, d, owner, c, before, alias) ==> alias !in o || alias in k.removals
    requires RefsNext(d, owner, before, n.refs, k.refs, alias)
    ensures Noted(h, d, owner, c, before, o, left - {alias}, k)
  {
    hide MustLeave, Stale, EntryId, CleanServer;
    forall a | a in before && a !in left - {alias} && Counts(d, owner, before, a)
      ensures Least(d, owner, before, k.refs, a)
    {
      hide Live;
      LeastNext(d, owner, before, n.refs, k.refs, alias, a);
    }
  }

  /** How the names noted for entries change with one record. */
  predicate RefsNext(d: Data, owner: string, before: Servers, refs: map<string, string>, next: map<string, string>,
                     alias: string) {
    if Counts(d, owner, before, alias) then
      var id := before[alias].value.cloudEntry;
      var previous := if id in refs then refs[id] else "";
      next == if previous == "" || Less(alias, previous) then refs[id := alias] else refs
    else next == refs
  }

  lemma LeastNext(d: Data, owner: string, before: Servers, refs: map<string, string>, next: map<string, string>,
                  alias: string, a: string)
    requires RefsNext(d, owner, before, refs, next, alias) && Counts(d, owner, before, a)
    requires a != alias ==> Least(d, owner, before, refs, a)
    ensures Least(d, owner, before, next, a)
  {
    if !Twins(d, owner, before, a, "") && Counts(d, owner, before, alias) {
      var id := before[alias].value.cloudEntry;
      var previous := if id in refs then refs[id] else "";
      if a == alias {
        LessTotal(alias, previous);
      } else if before[a].value.cloudEntry == id && Less(alias, previous) {
        if previous != a { LessTransitive(alias, previous, a); }
      }
    }
  }

  /** Removals and marks change no jump host. */
  lemma NotJumpedLater(h: Digests, d: Data, owner: string, c: Anchors, before: Servers, m: Servers, a: string)
    requires Swept(h, d, owner, c, before, m) && !Jumped(before, a)
    ensures !Jumped(m, a)
  {
    hide MayGo, Pinned, EntryId, CleanServer;
    forall n | n in m && n != a && m[n].Some? ensures TrimSpace(m[n].value.proxyJump) != a {
      assert StaysOrGoes(h, d, owner, c, before, m, n);
    }
  }

  /** A duplicate that nothing protects. */
  ghost predicate Unneeded(h: Digests, d: Data, owner: string, c: Anchors, before: Servers, a: string) {
    At(before, a).Some? && !Pinned(c, a, before[a].value) && !Jumped(before, a) && Duplicate(h, d, owner, before, a)
  }

  lemma FewerNoted(h: Digests, d: Data, owner: string, c: Anchors, before: Servers, m: Servers, o: Servers, n: Notes,
                   k: Notes)
    requires Noted(h, d, owner, c, before, m, {}, n) && o.Keys <= m.Keys && k == n.(removed := k.removed)
    requires forall a | a in o :: o[a] == m[a]
    ensures Noted(h, d, owner, c, before, o, {}, k)
  {
    hide MustLeave, Counts, Least, KnownNative, EntryId, CleanServer;
  }

  /** What the second pass finds out about an unneeded record. */
  lemma UnneededIsNoted(h: Digests, d: Data, owner: string, c: Anchors, before: Servers, m: Servers, n: Notes,
                        a: string)
    requires Unneeded(h, d, owner, c, before, a) && Noted(h, d, owner, c, before, m, {}, n)
    requires Swept(h, d, owner, c, before, m) && a in m
    ensures m[a] == before[a] && m[a].Some? && m[a].value.cloudVault == owner && m[a].value.cloudEntry != ""
    ensures var id := m[a].value.cloudEntry;
            && id in d.entries && id in n.refs && n.refs[id] !in {"", a}
            && |d.entries[id].id| >= 8 && Generated(a, d.entries[id]) && SameRoute(h, m[a].value, d.entries[id].server)
    ensures !Protected(c, m, a)
  {
    NotJumpedLater(h, d, owner, c, before, m, a);
    assert StaysOrGoes(h, d, owner, c, before, m, a);
    hide MayGo, EntryId, CleanServer, Pinned, MustLeave;
    var b :| b != "" && Less(b, a) && Twins(d, owner, before, a, b);
    assert Counts(d, owner, before, b) && Counts(d, owner, before, a);
    assert Least(d, owner, before, n.refs, b);
    var id := before[a].value.cloudEntry;
    LessIrreflexive(a);
    if n.refs[id] != b { LessTransitive(n.refs[id], b, a); }
  }

  lemma DropKeepsSwept(h: Digests, d: Data, owner: string, c: Anchors, before: Servers, m: Servers, alias: string)
    requires Swept(h, d, owner, c, before, m) && alias in m && m[alias] == before[alias] && m[alias].Some?
    requires MayGo(h, d, owner, alias, m[alias].value) && !Pinned(c, alias, m[alias].value) && !Jumped(m, alias)
    ensures Swept(h, d, owner, c, before, m - {alias})
  {
    hide MayGo, Stays, Pinned;
    var n := m - {alias};
    forall u | u in n && n[u].Some? && At(before, TrimSpace(n[u].value.proxyJump)).Some?
      ensures TrimSpace(n[u].value.proxyJump) in n
    {
      assert u in m && m[u] == n[u];
    }
    forall a | a in before ensures StaysOrGoes(h, d, owner, c, before, n, a) {
      assert StaysOrGoes(h, d, owner, c, before, m, a);
    }
  }

  lemma DropKeepsNotes(h: Digests, d: Data, owner: string, c: Anchors, before: Servers, m: Servers, left: set<string>,
                       n: Notes, alias: string)
    requires NotesOk(h, d, owner, c, before, m, left, n) && alias in m && m[alias] == before[alias] && m[alias].Some?
    requires MayGo(h, d, owner, alias, m[alias].value) && !Pinned(c, alias, m[alias].value) && !Jumped(m, alias)
    requires alias !in n.removals && m[alias].value.cloudEntry != "" && forall id | id in n.refs ::
               n.refs[id] == "" || n.refs[id] != alias
    ensures NotesOk(h, d, owner, c, before, m - {alias}, left - {alias}, n)
  {
    hide MayGo, Pinned, Swept;
    DropKeepsSwept(h, d, owner, c, before, m, alias);
    var k := m - {alias};
    forall id | id in n.native ensures exists a :: NativeAt(h, k, left - {alias}, n.removals, id, a) {
      var a :| NativeAt(h, m, left, n.removals, id, a);
      assert NativeAt(h, k, left - {alias}, n.removals, id, a);
    }
    forall a | a in n.removals ensures Removable(h, d, owner, c, before, k, a) {
      assert Removable(h, d, owner, c, before, m, a);
      assert !Jumped(k, a);
    }
  }

  lemma MarkKeepsSwept(h: Digests, d: Data, owner: string, c: Anchors, before: Servers, m: Servers, alias: string)
    requires Swept(h, d, owner, c, before, m) && alias in m && m[alias] == before[alias] && m[alias].Some?
    requires m[alias].value.cloudEntry == "" && m[alias].value.cloudVault in {"", owner}
             && EntryId(h, CleanServer(m[alias].value)) in d.entries
    ensures Swept(h, d, owner, c, before, m[alias := Some(m[alias].value.(cloudVault := owner))])
  {
    hide MayGo, Pinned;
    var n := m[alias := Some(m[alias].value.(cloudVault := owner))];
    forall u | u in n && n[u].Some? && At(before, TrimSpace(n[u].value.proxyJump)).Some?
      ensures TrimSpace(n[u].value.proxyJump) in n
    {
      assert u in m && m[u].Some? && m[u].value.proxyJump == n[u].value.proxyJump;
    }
    forall a | a in before ensures StaysOrGoes(h, d, owner, c, before, n, a) {
      assert StaysOrGoes(h, d, owner, c, before, m, a);
    }
  }

  /** A record rewritten in its mark only, and noted as native. */
  lemma MarkKeepsNotes(h: Digests, d: Data, owner: string, c: Anchors, before: Servers, m: Servers, left: set<string>,
                       n: Notes, alias: string, s: Server, k: Notes)
    requires NotesOk(h, d, owner, c, before, m, left, n) && alias in left && m[alias].Some?
             && m[alias].value.cloudEntry == ""
    requires s == m[alias].value.(cloudVault := s.cloudVault) && Swept(h, d, owner, c, before, m[alias := Some(s)])
    requires k == n.(native := n.native + {EntryId(h, CleanServer(s))})
    ensures NotesOk(h, d, owner, c, before, m[alias := Some(s)], left - {alias}, k)
  {
    hide MayGo, Pinned, Swept, CleanServer, EntryId;
    var o := m[alias := Some(s)];
    forall id | id in k.native ensures exists a :: NativeAt(h, o, left - {alias}, k.removals, id, a) {
      if id in n.native {
        var a :| NativeAt(h, m, left, n.removals, id, a);
        assert NativeAt(h, o, left - {alias}, k.removals, id, a);
      } else {
        assert NativeAt(h, o, left - {alias}, k.removals, id, alias);
      }
    }
    forall a | a in n.removals ensures Removable(h, d, owner, c, before, o, a) {
      assert Removable(h, d, owner, c, before, m, a);
      assert !Jumped(o, a);
    }
  }

  /** The current record is passed over. */
  lemma SkipKeepsNotes(h: Digests, d: Data, owner: string, c: Anchors, before: Servers, m: Servers, left: set<string>,
                       n: Notes, alias: string)
    requires NotesOk(h, d, owner, c, before, m, left, n)
    ensures NotesOk(h, d, owner, c, before, m, left - {alias}, n)
  {
    hide Removable, Swept;
    forall id | id in n.native ensures exists a :: NativeAt(h, m, left - {alias}, n.removals, id, a) {
      var a :| NativeAt(h, m, left, n.removals, id, a);
      assert NativeAt(h, m, left - {alias}, n.removals, id, a);
    }
  }

  /** The projects that name `alias`, sorted. */
  method ProjectsUsingServer(projects: map<string, Option<string>>, alias: string) returns (names: seq<string>)
    ensures StrictlySorted(names) && SetOf(names) == set p | p in projects && projects[p] == Some(alias)
  {
    var found: set<string> := {};
    var left := projects.Keys;
    while left != {}
      invariant left <= projects.Keys && found == set p | p in projects && p !in left && projects[p] == Some(alias)
      decreases left
    {
      var p :| p in left;
      left := left - {p};
      if projects[p].Some? && projects[p].value == alias {
        found := found + {p};
      }
    }
    names := SortedKeys(found);
  }

  /** The other records that use `alias` as their jump host, sorted. */
  method ServersUsingProxyJump(m: Servers, alias: string) returns (names: seq<string>)
    ensures StrictlySorted(names)
    ensures SetOf(names) == set n | n in m && n != alias && m[n].Some? && TrimSpace(m[n].value.proxyJump) == alias
  {
    var found: set<string> := {};
    var left := m.Keys;
    while left != {}
      invariant left <= m.Keys
      invariant found == set n | n in m && n !in left && n != alias && m[n].Some?
                && TrimSpace(m[n].value.proxyJump) == alias
      decreases left
    {
      var n :| n in left;
      left := left - {n};
      if n != alias && m[n].Some? && TrimSpace(m[n].value.proxyJump) == alias {
        found := found + {n};
      }
    }
    names := SortedKeys(found);
  }

  /** `CleanupProtectionReasons` gives a reason. */
  method CleanupProtected(c: Anchors, m: Servers, alias: string) returns (b: bool)
    ensures b == Protected(c, m, alias)
    ensures b <==>
              && alias in m && m[alias].Some?
              && (m[alias].value.meta.cleanupProtected || c.chosen == alias
                  || (exists p :: p in c.projects && c.projects[p] == Some(alias))
                  || (exists n :: n in m && n != alias && m[n].Some? && TrimSpace(m[n].value.proxyJump) == alias))
  {
    if At(m, alias).None? {
      return false;
    }
    var projects := ProjectsUsingServer(c.projects, alias);
    var users := ServersUsingProxyJump(m, alias);
    if |projects| > 0 { assert projects[0] in SetOf(projects); }
    if |users| > 0 { assert users[0] in SetOf(users); }
    b := At(m, alias).value.meta.cleanupProtected || c.chosen == alias || |projects| > 0 || |users| > 0;
    assert |projects| == 0 ==> forall p | p in c.projects :: p !in SetOf(projects);
    assert |users| == 0 ==> forall n | n in m :: n !in SetOf(users);
  }

  /** The record published for an entry; `was` is the record it replaces, if any. */
  function Listing(e: Entry, a: Activity, owner: string, was: Option<Server>): (s: Server)
    ensures Lists(s, e, owner)
  {
    var s := e.server.(keyPath := "", auth := AuthCloud, cloudEntry := e.id, cloudVault := owner);
    var own := was.Some? && Bound(was.value, e.id, owner) && was.value.host == s.host && was.value.user == s.user
               && (was.value.port == s.port || (was.value.port == 0 && s.port == 22));
    var routed := if !own then s
                  else s.(proxy := was.value.proxy, proxyJump := was.value.proxyJump,
                          proxyCommand := was.value.proxyCommand, forwards := was.value.forwards);
    var used := if a.lastConnected > 0 then a.lastConnected else s.seen.lastUsed;
    routed.(seen := s.seen.(
            lastUsed := if was.Some? && was.value.cloudEntry == e.id && was.value.seen.lastUsed > used
                        then was.value.seen.lastUsed else used,
            lastSeen := if a.lastSeen > 0 then a.lastSeen else s.seen.lastSeen,
            lastChecked := if a.checkedAt > 0 then a.checkedAt else s.seen.lastChecked,
            lastSSHChecked := if a.sshCheckedAt > 0 then a.sshCheckedAt else s.seen.lastSSHChecked,
            sshmCheckedAt := if a.sshmCheckedAt > 0 then a.sshmCheckedAt else s.seen.sshmCheckedAt,
            lastStatus := a.status, lastSSHError := a.sshError, platform := a.platform, hardware := a.hardware,
            sshmStatus := a.sshmStatus, sshmVersion := a.sshmVersion))
  }

  /** The route and the observations of a record as it is published. */
  lemma ListingIs(e: Entry, a: Activity, owner: string, was: Option<Server>)
    ensures RoutedAs(Listing(e, a, owner, was), e, owner, was) && Shows(Listing(e, a, owner, was), e, a, was)
  {}

  /** Publishing again changes nothing in a record, and once published its route is the device's own:
      a later listing keeps it as long as host, port and user stay. */
  lemma RelistingIsStable(e: Entry, a: Activity, owner: string, was: Option<Server>, route: Server)
    ensures var s := Listing(e, a, owner, was);
            && Listing(e, a, owner, Some(s)) == s
            && (var own := s.(proxy := route.proxy, proxyJump := route.proxyJump, proxyCommand := route.proxyCommand,
                              forwards := route.forwards);
                Listing(e, a, owner, Some(own)) == own)
  {}

  ghost predicate CoveredUpTo(h: Digests, d: Data, owner: string, m: Servers, ids: set<string>) {
    forall id | id in ids && Live(d, id) :: Covered(h, d, owner, m, id)
  }

  /** A name that is free, or already lists this entry. */
  predicate OpenTo(m: Servers, alias: string, id: string, owner: string) {
    At(m, alias).None? || (id != "" && Bound(At(m, alias).value, id, owner))
  }

  lemma PlaceKeeps(h: Digests, d: Data, owner: string, start: Servers, m: Servers, ids: set<string>, alias: string,
                   s: Server, id: string)
    requires Extended(owner, start, m) && CoveredUpTo(h, d, owner, m, ids)
    requires OpenTo(m, alias, id, owner) && id in d.entries && d.entries[id].id == id && Lists(s, d.entries[id], owner)
    requires forall k | k in d.entries :: d.entries[k].id == k
    ensures Extended(owner, start, m[alias := Some(s)]) && CoveredUpTo(h, d, owner, m[alias := Some(s)], ids + {id})
  {
    hide EntryId;
    var n := m[alias := Some(s)];
    assert Reaches(h, d, owner, At(n, alias), id);
    forall k | k in ids && Live(d, k) ensures Covered(h, d, owner, n, k) {
      var a :| Reaches(h, d, owner, At(m, a), k);
      if a == alias { assert k == id; } else { assert Reaches(h, d, owner, At(n, a), k); }
    }
  }

  lemma PlaceAdds(h: Digests, d: Data, owner: string, start: Servers, m: Servers, ids: set<string>, alias: string,
                  s: Server, id: string)
    requires Numbered(d) && Live(d, id) && id !in ids && Added(h, d, owner, start, m, ids) && Extended(owner, start, m)
    requires At(m, alias).None? ==> NamedAfter(alias, d.entries[id]) && Unlisted(h, owner, start, id)
    requires OpenTo(m, alias, id, owner) && s == Listing(d.entries[id], ActivityOf(d, id), owner, At(m, alias))
    ensures Added(h, d, owner, start, m[alias := Some(s)], ids + {id})
  {
    ListingIs(d.entries[id], ActivityOf(d, id), owner, At(m, alias));
    hide Shows, RoutedAs, Listing, NamedAfter, Unlisted;
    var n := m[alias := Some(s)];
    assert At(m, alias) == At(start, alias);
    forall a | At(n, a) != At(start, a) ensures exists i :: i in ids + {id} && ListedAs(h, d, owner, start, n, a, i) {
      if a == alias {
        assert ListedAs(h, d, owner, start, n, a, id);
      } else {
        var i :| i in ids && ListedAs(h, d, owner, start, m, a, i);
        assert ListedAs(h, d, owner, start, n, a, i);
      }
    }
  }

  lemma AddedNone(h: Digests, d: Data, owner: string, m: Servers)
    ensures Added(h, d, owner, m, m, {})
  {}

  lemma AddedMore(h: Digests, d: Data, owner: string, start: Servers, m: Servers, ids: set<string>, id: string)
    requires Added(h, d, owner, start, m, ids)
    ensures Added(h, d, owner, start, m, ids + {id})
  {
    hide ListedAs;
  }

  lemma NoteRef(h: Digests, d: Data, owner: string, c: Anchors, before: Servers, m: Servers, left: set<string>,
                n: Notes, alias: string)
    requires NotesOk(h, d, owner, c, before, m, left, n) && At(m, alias).Some? && alias !in left
    requires m[alias].value.cloudEntry != "" && m[alias].value.cloudVault == owner
             && m[alias].value.cloudEntry in d.entries
    ensures NotesOk(h, d, owner, c, before, m, left, n.(refs := n.refs[m[alias].value.cloudEntry := alias]))
  {
    hide Removable, Swept, NativeAt;
  }

  lemma NoteRemoval(h: Digests, d: Data, owner: string, c: Anchors, before: Servers, m: Servers, left: set<string>,
                    n: Notes, alias: string)
    requires NotesOk(h, d, owner, c, before, m, left, n) && alias in left && m[alias].Some?
             && m[alias].value.cloudEntry == ""
    requires m[alias].value.cloudVault == owner && EntryId(h, CleanServer(m[alias].value)) in d.deleted
             && !Protected(c, m, alias)
    ensures NotesOk(h, d, owner, c, before, m, left - {alias}, n.(removals := n.removals + {alias}))
  {
    hide CleanServer, EntryId, Pinned, StaysOrGoes, JumpsStay;
    var k := n.(removals := n.removals + {alias});
    assert MayGo(h, d, owner, alias, m[alias].value);
    assert !Pinned(c, alias, m[alias].value) && !Jumped(m, alias);
    forall id | id in n.native ensures exists a :: NativeAt(h, m, left - {alias}, k.removals, id, a) {
      var a :| NativeAt(h, m, left, n.removals, id, a);
      assert NativeAt(h, m, left - {alias}, k.removals, id, a);
    }
  }

  lemma SameId(h: Digests, s: Server, owner: string)
    ensures EntryId(h, CleanServer(s.(cloudVault := owner))) == EntryId(h, CleanServer(s))
  {}

  lemma GoneMayGo(h: Digests, d: Data, owner: string, alias: string, s: Server)
    requires s.cloudVault == owner && s.cloudEntry != "" && (s.cloudEntry !in d.entries || s.cloudEntry in d.deleted)
    requires s.cloudEntry !in d.conflicts || s.cloudEntry in d.deleted
    ensures MayGo(h, d, owner, alias, s)
  {}

  lemma DuplicateMayGo(h: Digests, d: Data, owner: string, alias: string, s: Server)
    requires Numbered(d) && s.cloudVault == owner && s.cloudEntry != "" && s.cloudEntry in d.entries
    requires Generated(alias, d.entries[s.cloudEntry]) && SameRoute(h, s, d.entries[s.cloudEntry].server)
    ensures MayGo(h, d, owner, alias, s)
  {}

  lemma DuplicateGoes(h: Digests, d: Data, owner: string, c: Anchors, before: Servers, m: Servers, n: Notes,
                      alias: string)
    requires Numbered(d) && NotesOk(h, d, owner, c, before, m, {}, n) && At(m, alias).Some? && !Protected(c, m, alias)
    requires var s := m[alias].value;
             && s.cloudVault == owner && s.cloudEntry != "" && s.cloudEntry in d.entries && s.cloudEntry in n.refs
             && n.refs[s.cloudEntry] !in {"", alias}
             && Generated(alias, d.entries[s.cloudEntry]) && SameRoute(h, s, d.entries[s.cloudEntry].server)
    ensures NotesOk(h, d, owner, c, before, m - {alias}, {}, n.(removed := n.removed + 1))
    ensures |m - {alias}| == |m| - 1
  {
    hide Generated, SameRoute, MayGo, Pinned, Swept, CleanServer, EntryId;
    KeptAsItWas(h, d, owner, c, before, m, alias);
    DuplicateMayGo(h, d, owner, alias, m[alias].value);
    DropKeepsNotes(h, d, owner, c, before, m, {}, n, alias);
    assert {} - {alias} == {};
    DropSize(m, alias);
  }

  lemma KeptAsItWas(h: Digests, d: Data, owner: string, c: Anchors, before: Servers, m: Servers, alias: string)
    requires Swept(h, d, owner, c, before, m) && At(m, alias).Some? && m[alias].value.cloudEntry != ""
    ensures alias in before && before[alias] == m[alias]
  {
    assert StaysOrGoes(h, d, owner, c, before, m, alias);
  }

  lemma DropNative(h: Digests, d: Data, owner: string, c: Anchors, before: Servers, m: Servers, n: Notes, alias: string)
    requires NotesOk(h, d, owner, c, before, m, {}, n) && alias in n.removals
    ensures NotesOk(h, d, owner, c, before, m - {alias}, {}, n.(removals := n.removals - {alias}))
  {
    hide MayGo, Pinned, Swept;
    assert Removable(h, d, owner, c, before, m, alias);
    DropKeepsSwept(h, d, owner, c, before, m, alias);
    var k, rest := m - {alias}, n.removals - {alias};
    forall id | id in n.native ensures exists a :: NativeAt(h, k, {}, rest, id, a) {
      var a :| NativeAt(h, m, {}, n.removals, id, a);
      assert NativeAt(h, k, {}, rest, id, a);
    }
    forall a | a in rest ensures Removable(h, d, owner, c, before, k, a) {
      assert Removable(h, d, owner, c, before, m, a);
      assert !Jumped(k, a);
    }
  }

  lemma RemovalIsThere(h: Digests, d: Data, owner: string, c: Anchors, before: Servers, m: Servers, n: Notes,
                       alias: string)
    requires NotesOk(h, d, owner, c, before, m, {}, n) && alias in n.removals
    ensures alias in m
  {}

  lemma NativeCovers(h: Digests, d: Data, owner: string, start: Servers, m: Servers, n: Notes, id: string)
    requires NativeOk(h, start, {}, n) && id in n.native && Extended(owner, start, m) && id in d.entries
    ensures Covered(h, d, owner, m, id)
  {
    var a :| NativeAt(h, start, {}, n.removals, id, a);
    assert At(start, a).Some?;
    assert Reaches(h, d, owner, At(m, a), id);
  }

  lemma RefsExtend(d: Data, owner: string, start: Servers, m: Servers, refs: map<string, string>, id: string)
    requires RefsOk(d, owner, start, {}, refs) && Extended(owner, start, m)
    ensures id in refs && refs[id] != "" ==> At(m, refs[id]).Some? && OpenTo(m, refs[id], id, owner)
  {
    if id in refs && refs[id] != "" { assert At(start, refs[id]).Some?; }
  }

  lemma CoveredNone(h: Digests, d: Data, owner: string, m: Servers)
    ensures CoveredUpTo(h, d, owner, m, {}) && Extended(owner, m, m)
  {}

  lemma CoveredMore(h: Digests, d: Data, owner: string, m: Servers, ids: set<string>, id: string)
    requires CoveredUpTo(h, d, owner, m, ids) && (Live(d, id) ==> Covered(h, d, owner, m, id))
    ensures CoveredUpTo(h, d, owner, m, ids + {id})
  {}

  /** The notes know every native record and every bound record that is left. */
  ghost predicate AllNoted(h: Digests, d: Data, owner: string, m: Servers, n: Notes) {
    && (forall a, id | At(m, a).Some? && NativeFor(h, m[a].value, id) && Live(d, id) :: id in n.native)
    && (forall a, id | At(m, a).Some? && Bound(m[a].value, id, owner) && id != "" && Live(d, id) ::
          (id in n.refs && n.refs[id] != "") || (At(m, "").Some? && Bound(m[""].value, id, owner)))
  }

  lemma NotListed(h: Digests, d: Data, owner: string, m: Servers, n: Notes, id: string)
    requires AllNoted(h, d, owner, m, n) && Live(d, id) && id !in n.native && Numbered(d)
    ensures id !in n.refs || n.refs[id] == "" ==> Unlisted(h, owner, m, id)
    ensures forall b | At(m, b).Some? :: !NativeFor(h, m[b].value, id)
  {
    hide EntryId, CleanServer;
  }

  lemma NotedAll(h: Digests, d: Data, owner: string, c: Anchors, before: Servers, m: Servers, o: Servers, n: Notes)
    requires Noted(h, d, owner, c, before, m, {}, n) && o.Keys == m.Keys - n.removals
    requires forall a | a in o :: o[a] == m[a]
    requires Swept(h, d, owner, c, before, o) && Numbered(d)
    ensures AllNoted(h, d, owner, o, n.(removals := {})) && Marked(h, d, owner, o)
  {
    hide Pinned, MustLeave, Jumped, JumpsStay;
    forall a, id | At(o, a).Some? && NativeFor(h, o[a].value, id) && Live(d, id) ensures id in n.native {
      assert StaysOrGoes(h, d, owner, c, before, o, a);
      SameId(h, before[a].value, owner);
      assert KnownNative(h, d, before, n.native, a);
    }
    hide EntryId, CleanServer;
    forall a, id | At(o, a).Some? && Bound(o[a].value, id, owner) && id != "" && Live(d, id)
      ensures (id in n.refs && n.refs[id] != "") || (At(o, "").Some? && Bound(o[""].value, id, owner))
    {
      assert StaysOrGoes(h, d, owner, c, before, o, a);
      assert Counts(d, owner, before, a) && Least(d, owner, before, n.refs, a);
      if Twins(d, owner, before, a, "") {
        assert StaysOrGoes(h, d, owner, c, before, o, "");
        EmptyIsNotGenerated(d.entries[id]);
      }
    }
    forall a | At(o, a).Some? && o[a].value.cloudEntry == "" && EntryId(h, CleanServer(o[a].value)) in d.entries
      ensures o[a].value.cloudVault != "" || owner == ""
    {
      assert MarkedAt(h, d, owner, m, a);
    }
  }

  lemma EmptyIsNotGenerated(e: Entry)
    requires |e.id| >= 8
    ensures !Generated("", e)
  {
    forall name | name in e.aliases ensures !GeneratedFrom("", name, e.id) {
      assert |name + "~" + e.id[..8]| >= 9;
    }
  }

  lemma AllCleared(h: Digests, d: Data, owner: string, c: Anchors, before: Servers, m: Servers, o: Servers, n: Notes)
    requires Noted(h, d, owner, c, before, m, {}, n) && o.Keys == m.Keys - n.removals
    requires forall a | Unneeded(h, d, owner, c, before, a) :: a !in m
    ensures Cleared(h, d, owner, c, before, o)
  {
    forall a | MustGo(h, d, owner, c, before, a) ensures a !in o {
      assert MustLeave(h, d, owner, c, before, a) || Unneeded(h, d, owner, c, before, a);
    }
  }

  /** The entries among `ids` that must be reachable. */
  function LiveIds(d: Data, ids: set<string>): set<string> {
    set id | id in ids && Live(d, id)
  }

  lemma LiveNone(d: Data)
    ensures LiveIds(d, {}) == {}
  {}

  lemma LiveMore(d: Data, ids: set<string>, id: string)
    requires id !in ids
    ensures |LiveIds(d, ids + {id})| == |LiveIds(d, ids)| + if Live(d, id) then 1 else 0
  {
    assert LiveIds(d, ids + {id}) == LiveIds(d, ids) + if Live(d, id) then {id} else {};
  }

  lemma NotYet(ids: seq<string>, i: nat)
    requires StrictlySorted(ids) && i < |ids|
    ensures ids[i] !in ids[..i]
  {
    forall k | 0 <= k < i ensures ids[k] != ids[i] { LessAsymmetric(ids[k], ids[i]); }
  }

  lemma DashedNumber(n: nat)
    ensures Numbering("-" + Numeral(n))
  {
    DecimalIsDigits(n);
    var s := "-" + Numeral(n);
    forall i | 1 <= i < |s| ensures '0' <= s[i] <= '9' { assert s[i] in Decimal(n); }
  }

  lemma OneMoreGone(m: Servers, all: set<string>, left: set<string>, alias: string)
    requires left <= all && alias in left
    ensures m - (all - left) - {alias} == m - (all - (left - {alias}))
  {
    assert all - (left - {alias}) == all - left + {alias};
  }

  class Catalogue {
    var servers: Servers
    const anchors: Anchors

    constructor (c: Config)
      ensures Value() == c
    {
      servers, anchors := c.servers, c.anchors;
    }

    function Value(): Config
      reads this
    {
      Config(servers, anchors)
    }

    /** The search for a free name ends: numbered names never repeat, and only finitely many are taken. */
    method FreeName(base: string) returns (alias: string)
      ensures At(servers, alias).None?
      ensures exists suffix :: alias == base + suffix && Numbering(suffix)
      ensures At(servers, base).None? ==> alias == base
    {
      assert base == base + "" && Numbering("");
      alias := base;
      var n: nat := 2;
      while At(servers, alias).Some?
        invariant n >= 2 && Names(base, n) <= servers.Keys + {alias}
        invariant n > 2 ==> alias == base + "-" + Numeral(n - 1)
        invariant n == 2 ==> alias == base
        invariant exists suffix :: alias == base + suffix && Numbering(suffix)
        invariant At(servers, base).None? ==> alias == base
        decreases |servers| + 3 - n
      {
        NamesCount(base, n);
        SubsetSize(Names(base, n), servers.Keys);
        assert |servers| == |servers.Keys|;
        alias := base + "-" + Numeral(n);
        assert Names(base, n + 1) == Names(base, n) + {alias};
        DashedNumber(n);
        assert alias == base + ("-" + Numeral(n)) && Numbering("-" + Numeral(n));
        n := n + 1;
      }
    }

    method FindCandidates(h: Digests, d: Data, alias: string, s: Server) returns (ids: set<string>)
      requires Numbered(d)
      ensures ids == Candidates(h, d, alias, s)
    {
      ids := {};
      var left := d.entries.Keys;
      while left != {}
        invariant left <= d.entries.Keys && ids == set id | id in d.entries.Keys - left && Candidate(h, d, alias, s, id)
        decreases left
      {
        var id :| id in left;
        left := left - {id};
        if id !in d.deleted && SameRoute(h, s, d.entries[id].server) {
          var named := GeneratedCloudAlias(alias, d.entries[id]);
          if named || alias in d.entries[id].aliases {
            ids := ids + {id};
          }
        }
      }
    }

    method RestoreLegacyBindings(h: Digests, d: Data, owner: string)
      requires Numbered(d)
      modifies this`servers
      ensures Restores(h, d, owner, old(servers), servers)
    {
      var left := servers.Keys;
      while left != {}
        invariant left <= servers.Keys == old(servers).Keys
        invariant forall a | a in left :: servers[a] == old(servers)[a]
        invariant forall a | a in servers && a !in left :: RestoresRecord(h, d, owner, a, old(servers)[a], servers[a])
        decreases left
      {
        var alias :| alias in left;
        left := left - {alias};
        var r := servers[alias];
        if r.Some? && Unbound(r.value) {
          var ids := FindCandidates(h, d, alias, r.value);
          if |ids| == 1 {
            var id :| id in ids;
            Singleton(ids, id);
            servers := servers[alias := Some(r.value.(cloudEntry := id, cloudVault := owner))];
          }
        }
      }
    }

    /** The first pass, on a native record. */
    method VisitNative(h: Digests, d: Data, owner: string, alias: string, ghost before: Servers,
                       ghost left: set<string>, n: Notes)
      returns (k: Notes)
      requires alias in left && NotesOk(h, d, owner, anchors, before, servers, left, n)
      requires servers[alias].Some? && servers[alias].value.cloudEntry == ""
      modifies this`servers
      ensures NotesOk(h, d, owner, anchors, before, servers, left - {alias}, k)
      ensures servers.Keys == old(servers).Keys && k.removed == n.removed
      ensures k.refs == n.refs && n.removals <= k.removals && n.native <= k.native
      ensures forall a | a in servers && a != alias :: servers[a] == old(servers)[a]
      ensures KnownNative(h, d, old(servers), k.native, alias)
      ensures NativeIn(servers, alias) && MarkedAt(h, d, owner, servers, alias)
      ensures MustLeave(h, d, owner, anchors, before, alias) ==> alias in k.removals
    {
      if !Jumped(before, alias) { NotJumpedLater(h, d, owner, anchors, before, servers, alias); }
      hide MayGo, Pinned, Swept, CleanServer, EntryId;
      k := n;
      var s := servers[alias].value;
      var id := EntryId(h, CleanServer(s));
      if s.cloudVault == owner && id in d.deleted {
        var guarded := CleanupProtected(anchors, servers, alias);
        if !guarded {
          k := n.(removals := n.removals + {alias});
          NoteRemoval(h, d, owner, anchors, before, servers, left, n, alias);
        } else {
          SkipKeepsNotes(h, d, owner, anchors, before, servers, left, n, alias);
          k := n.(protected := n.protected + 1);
        }
        return;
      }
      k := n.(native := n.native + {id});
      if id in d.entries && (s.cloudVault == "" || s.cloudVault == owner) {
        MarkKeepsSwept(h, d, owner, anchors, before, servers, alias);
        SameId(h, s, owner);
        MarkKeepsNotes(h, d, owner, anchors, before, servers, left, n, alias, s.(cloudVault := owner), k);
        servers := servers[alias := Some(s.(cloudVault := owner))];
      } else {
        assert servers[alias := Some(s)] == servers;
        MarkKeepsNotes(h, d, owner, anchors, before, servers, left, n, alias, s, k);
      }
    }

    /** The first pass, on one record. */
    method Visit(h: Digests, d: Data, owner: string, alias: string, ghost before: Servers, ghost left: set<string>,
                 n: Notes)
      returns (k: Notes)
      requires Numbered(d) && alias in left && NotesOk(h, d, owner, anchors, before, servers, left, n)
      modifies this`servers
      ensures NotesOk(h, d, owner, anchors, before, servers, left - {alias}, k)
      ensures k.removed + |servers| == n.removed + |old(servers)|
      ensures servers.Keys <= old(servers).Keys && n.removals <= k.removals && n.native <= k.native
      ensures forall a | a in servers && a != alias :: servers[a] == old(servers)[a]
      ensures NativeIn(before, alias) ==> KnownNative(h, d, before, k.native, alias)
      ensures NativeIn(servers, alias) ==> MarkedAt(h, d, owner, servers, alias)
      ensures MustLeave(h, d, owner, anchors, before, alias) ==> alias !in servers || alias in k.removals
      ensures RefsNext(d, owner, before, n.refs, k.refs, alias)
    {
      assert alias in servers && servers[alias] == before[alias];
      hide MayGo, Pinned, Swept, CleanServer, EntryId, Removable, NativeAt;
      k := n;
      SkipKeepsNotes(h, d, owner, anchors, before, servers, left, n, alias);
      if servers[alias].None? {
        return;
      }
      var s := servers[alias].value;
      if s.cloudEntry == "" {
        k := VisitNative(h, d, owner, alias, before, left, n);
        assert |servers| == |servers.Keys| && |old(servers)| == |old(servers).Keys|;
        return;
      }
      if s.cloudVault != owner {
        return;
      }
      if s.cloudEntry in d.conflicts && s.cloudEntry !in d.deleted {
        return;
      }
      if s.cloudEntry !in d.entries || s.cloudEntry in d.deleted {
        k := DropGone(h, d, owner, alias, before, left, n);
        return;
      }
      var previous := if s.cloudEntry in n.refs then n.refs[s.cloudEntry] else "";
      if previous == "" || Less(alias, previous) {
        k := n.(refs := n.refs[s.cloudEntry := alias]);
        NoteRef(h, d, owner, anchors, before, servers, left - {alias}, n, alias);
      }
    }

    /** A bound record whose entry is gone goes too, unless something protects it. */
    method DropGone(h: Digests, d: Data, owner: string, alias: string, ghost before: Servers, ghost left: set<string>,
                    n: Notes)
      returns (k: Notes)
      requires alias in left && NotesOk(h, d, owner, anchors, before, servers, left, n) && servers[alias].Some?
      requires var s := servers[alias].value;
               && s.cloudEntry != "" && s.cloudVault == owner
               && (s.cloudEntry !in d.entries || s.cloudEntry in d.deleted)
               && (s.cloudEntry !in d.conflicts || s.cloudEntry in d.deleted)
      modifies this`servers
      ensures NotesOk(h, d, owner, anchors, before, servers, left - {alias}, k)
      ensures k.removed + |servers| == n.removed + |old(servers)|
      ensures servers.Keys <= old(servers).Keys && k.refs == n.refs && k.removals == n.removals && k.native == n.native
      ensures forall a | a in servers :: servers[a] == old(servers)[a]
      ensures MustLeave(h, d, owner, anchors, before, alias) ==> alias !in servers
    {
      if !Jumped(before, alias) { NotJumpedLater(h, d, owner, anchors, before, servers, alias); }
      hide MayGo, Pinned, Swept;
      var guarded := CleanupProtected(anchors, servers, alias);
      if guarded {
        SkipKeepsNotes(h, d, owner, anchors, before, servers, left, n, alias);
        k := n.(protected := n.protected + 1);
        return;
      }
      GoneMayGo(h, d, owner, alias, servers[alias].value);
      DropKeepsNotes(h, d, owner, anchors, before, servers, left, n, alias);
      DropSize(servers, alias);
      servers := servers - {alias};
      k := n.(removed := n.removed + 1);
    }

    /** The first pass over all records. */
    method Sweep(h: Digests, d: Data, owner: string) returns (n: Notes)
      requires Numbered(d)
      modifies this`servers
      ensures NotesOk(h, d, owner, anchors, old(servers), servers, {}, n)
      ensures Noted(h, d, owner, anchors, old(servers), servers, {}, n)
      ensures n.removed + |servers| == |old(servers)|
    {
      n := Notes(map[], {}, {}, 0, 0);
      var left := servers.Keys;
      while left != {}
        invariant NotesOk(h, d, owner, anchors, old(servers), servers, left, n)
                  && n.removed + |servers| == |old(servers)|
        invariant Noted(h, d, owner, anchors, old(servers), servers, left, n)
        decreases left
      {
        hide NotesOk, Noted, MustLeave, RefsNext;
        var alias :| alias in left;
        ghost var m, was := servers, n;
        n := Visit(h, d, owner, alias, old(servers), left, n);
        VisitedNoted(h, d, owner, anchors, old(servers), m, servers, left, was, n, alias);
        left := left - {alias};
      }
    }

    /** The second pass: generated duplicates of a bound record go. */
    method CollapseDuplicates(h: Digests, d: Data, owner: string, ghost before: Servers, n: Notes) returns (k: Notes)
      requires Numbered(d) && NotesOk(h, d, owner, anchors, before, servers, {}, n)
      requires Noted(h, d, owner, anchors, before, servers, {}, n)
      modifies this`servers
      ensures NotesOk(h, d, owner, anchors, before, servers, {}, k) && k == n.(removed := k.removed)
      ensures Noted(h, d, owner, anchors, before, servers, {}, k)
      ensures servers.Keys <= old(servers).Keys
      ensures forall a | Unneeded(h, d, owner, anchors, before, a) :: a !in servers
      ensures k.removed + |servers| == n.removed + |old(servers)|
    {
      k := n;
      var left := servers.Keys;
      while left != {}
        invariant NotesOk(h, d, owner, anchors, before, servers, {}, k) && k == n.(removed := k.removed)
                  && left <= servers.Keys <= old(servers).Keys
        invariant forall a | Unneeded(h, d, owner, anchors, before, a) && a !in left :: a !in servers
        invariant k.removed + |servers| == n.removed + |old(servers)|
        invariant Noted(h, d, owner, anchors, before, servers, {}, k)
        decreases left
      {
        hide NotesOk, Noted, Unneeded;
        ghost var m, was := servers, k;
        var alias :| alias in left;
        left := left - {alias};
        k := Collapse(h, d, owner, alias, before, k);
        FewerNoted(h, d, owner, anchors, before, m, servers, was, k);
      }
    }

    method Collapse(h: Digests, d: Data, owner: string, alias: string, ghost before: Servers, n: Notes)
      returns (k: Notes)
      requires Numbered(d) && NotesOk(h, d, owner, anchors, before, servers, {}, n) && alias in servers
      requires Noted(h, d, owner, anchors, before, servers, {}, n)
      modifies this`servers
      ensures NotesOk(h, d, owner, anchors, before, servers, {}, k) && k == n.(removed := k.removed)
      ensures old(servers).Keys - {alias} <= servers.Keys <= old(servers).Keys
      ensures forall a | a in servers :: servers[a] == old(servers)[a]
      ensures k.removed + |servers| == n.removed + |old(servers)|
      ensures Unneeded(h, d, owner, anchors, before, alias) ==> alias !in servers
    {
      if Unneeded(h, d, owner, anchors, before, alias) {
        UnneededIsNoted(h, d, owner, anchors, before, servers, n, alias);
      }
      hide Noted, Unneeded, NotesOk, MayGo, Pinned, Jumped, Swept, CleanServer, EntryId;
      k := n;
      if servers[alias].None? || servers[alias].value.cloudEntry == "" || servers[alias].value.cloudVault != owner {
        return;
      }
      var s := servers[alias].value;
      var canonical := if s.cloudEntry in n.refs then n.refs[s.cloudEntry] else "";
      if s.cloudEntry !in d.entries || canonical == "" || canonical == alias {
        return;
      }
      var generated := GeneratedCloudAlias(alias, d.entries[s.cloudEntry]);
      var guarded := CleanupProtected(anchors, servers, alias);
      if !generated || guarded {
        return;
      }
      if SameRoute(h, s, d.entries[s.cloudEntry].server) {
        DuplicateGoes(h, d, owner, anchors, before, servers, n, alias);
        servers := servers - {alias};
        k := n.(removed := n.removed + 1);
      }
    }

    /** The native records with tombstones go, once a backup is written. */
    method RemoveNatives(h: Digests, d: Data, owner: string, ghost before: Servers, n: Notes)
      requires NotesOk(h, d, owner, anchors, before, servers, {}, n)
      modifies this`servers
      ensures NotesOk(h, d, owner, anchors, before, servers, {}, n.(removals := {}))
      ensures |servers| + |n.removals| == |old(servers)|
      ensures servers.Keys == old(servers).Keys - n.removals
      ensures forall a | a in servers :: servers[a] == old(servers)[a]
    {
      hide RefsOk, NativeOk, RemovalsOk, Swept, NotesOk;
      var left := n.removals;
      ghost var was := servers;
      while left != {}
        invariant NotesOk(h, d, owner, anchors, before, servers, {}, n.(removals := left))
        invariant |servers| + |n.removals| == |was| + |left|
        invariant left <= n.removals && servers == was - (n.removals - left)
        decreases left
      {
        var alias :| alias in left;
        OneMoreGone(was, n.removals, left, alias);
        RemoveNative(h, d, owner, before, n.(removals := left), alias);
        left := left - {alias};
      }
    }

    method RemoveNative(h: Digests, d: Data, owner: string, ghost before: Servers, ghost n: Notes, alias: string)
      requires NotesOk(h, d, owner, anchors, before, servers, {}, n) && alias in n.removals
      modifies this`servers
      ensures NotesOk(h, d, owner, anchors, before, servers, {}, n.(removals := n.removals - {alias}))
      ensures servers == old(servers) - {alias} && |servers| == |old(servers)| - 1
    {
      hide NotesOk;
      RemovalIsThere(h, d, owner, anchors, before, servers, n, alias);
      DropNative(h, d, owner, anchors, before, servers, n, alias);
      DropSize(servers, alias);
      servers := servers - {alias};
    }

    method LeastAlias(aliases: seq<string>) returns (a: string)
      requires aliases != []
      ensures a in aliases && forall b | b in aliases :: !Less(b, a)
    {
      a := aliases[0];
      LessIrreflexive(a);
      for i := 1 to |aliases|
        invariant a in aliases && forall k | 0 <= k < i :: !Less(aliases[k], a)
      {
        if Less(aliases[i], a) {
          ghost var was := a;
          a := aliases[i];
          forall k | 0 <= k <= i ensures !Less(aliases[k], a) {
            if Less(aliases[k], a) {
              if k < i { LessTransitive(aliases[k], a, was); } else { LessIrreflexive(a); }
            }
          }
        }
      }
    }

    /** A free name for a new record. */
    method NewName(entry: Entry) returns (alias: string)
      requires |entry.id| >= 8 && entry.aliases != []
      ensures At(servers, alias).None? && NamedAfter(alias, entry)
    {
      var least := LeastAlias(entry.aliases);
      alias := TrimSpace(least);
      assert Numbering("");
      if alias in servers {
        alias := alias + "~" + entry.id[..8];
        alias := FreeName(alias);
        ghost var suffix :| alias == TrimSpace(least) + "~" + entry.id[..8] + suffix && Numbering(suffix);
        assert NamedAfter(alias, entry);
      } else {
        alias := FreeName(alias);
      }
    }

    /** One live entry is listed: under the name it has, or under a new one. */
    method Place(h: Digests, d: Data, owner: string, id: string, refs: map<string, string>, ghost start: Servers,
                 ghost ids: set<string>)
      requires Numbered(d) && Live(d, id) && id !in ids && Added(h, d, owner, start, servers, ids)
      requires Extended(owner, start, servers) && CoveredUpTo(h, d, owner, servers, ids)
      requires id in refs && refs[id] != "" ==> At(servers, refs[id]).Some? && OpenTo(servers, refs[id], id, owner)
      requires id !in refs || refs[id] == "" ==> Unlisted(h, owner, start, id)
      modifies this`servers
      ensures Extended(owner, start, servers) && CoveredUpTo(h, d, owner, servers, ids + {id})
      ensures Added(h, d, owner, start, servers, ids + {id})
    {
      var entry := d.entries[id];
      var alias := if id in refs then refs[id] else "";
      if alias == "" {
        alias := NewName(entry);
      }
      var activity := if id in d.activity then d.activity[id] else NoActivity;
      var listing := Listing(entry, activity, owner, At(servers, alias));
      PlaceKeeps(h, d, owner, start, servers, ids, alias, listing, id);
      PlaceAdds(h, d, owner, start, servers, ids, alias, listing, id);
      servers := servers[alias := Some(listing)];
    }

    /** The third pass, on one entry: counted as local if a native record matches it. */
    method PlaceOne(h: Digests, d: Data, owner: string, id: string, n: Notes, ghost start: Servers,
                    ghost ids: set<string>)
      returns (cloud: nat, local: nat)
      requires Numbered(d) && RefsOk(d, owner, start, {}, n.refs) && NativeOk(h, start, {}, n) && id in d.entries
      requires Extended(owner, start, servers) && CoveredUpTo(h, d, owner, servers, ids)
      requires Added(h, d, owner, start, servers, ids) && id !in ids && AllNoted(h, d, owner, start, n)
      modifies this`servers
      ensures Extended(owner, start, servers) && CoveredUpTo(h, d, owner, servers, ids + {id})
      ensures Added(h, d, owner, start, servers, ids + {id})
      ensures cloud + local == if Live(d, id) then 1 else 0
    {
      AddedMore(h, d, owner, start, servers, ids, id);
      if Live(d, id) && id !in n.native { NotListed(h, d, owner, start, n, id); }
      hide Extended, CoveredUpTo, Covered, NativeOk, RefsOk, Added, Unlisted, AllNoted;
      if id in d.conflicts || id in d.deleted {
        CoveredMore(h, d, owner, servers, ids, id);
        return 0, 0;
      }
      if id in n.native {
        NativeCovers(h, d, owner, start, servers, n, id);
        CoveredMore(h, d, owner, servers, ids, id);
        return 0, 1;
      }
      RefsExtend(d, owner, start, servers, n.refs, id);
      Place(h, d, owner, id, n.refs, start, ids);
      return 1, 0;
    }

    /** The third pass: every live entry, in order of ids. */
    method PlaceAll(h: Digests, d: Data, owner: string, n: Notes) returns (cloud: nat, local: nat)
      requires Numbered(d) && RefsOk(d, owner, servers, {}, n.refs) && NativeOk(h, servers, {}, n)
      requires AllNoted(h, d, owner, servers, n)
      modifies this`servers
      ensures Extended(owner, old(servers), servers) && CoveredUpTo(h, d, owner, servers, d.entries.Keys)
      ensures Added(h, d, owner, old(servers), servers, d.entries.Keys)
      ensures cloud + local == |LiveIds(d, d.entries.Keys)|
    {
      hide Extended, CoveredUpTo, Covered, Added, AllNoted, NativeOk, RefsOk, LiveIds, Numbered, Text.Ascending,
        Text.StrictlySorted;
      cloud, local := 0, 0;
      AddedNone(h, d, owner, servers);
      CoveredNone(h, d, owner, servers);
      LiveNone(d);
      var ids := SortedKeys(d.entries.Keys);
      ghost var done: set<string> := {};
      for i := 0 to |ids|
        invariant Extended(owner, old(servers), servers) && CoveredUpTo(h, d, owner, servers, done)
        invariant Added(h, d, owner, old(servers), servers, done)
        invariant done == SetOf(ids[..i]) && cloud + local == |LiveIds(d, done)|
      {
        assert ids[i] in SetOf(ids) && ids[..i + 1] == ids[..i] + [ids[i]];
        NotYet(ids, i);
        LiveMore(d, done, ids[i]);
        var c, l := PlaceOne(h, d, owner, ids[i], n, old(servers), done);
        cloud, local := cloud + c, local + l;
        done := done + {ids[i]};
      }
      assert ids[..|ids|] == ids;
    }

    /** The passes one after the other; false if removed records could not be backed up. */
    method PublishAll(h: Digests, d: Data, owner: string, backs: bool)
      returns (report: Report, ok: bool, ghost restored: Servers, ghost swept: Servers)
      requires Numbered(d)
      modifies this`servers
      ensures !ok ==> !backs
      ensures ok ==> Published(h, d, owner, Config(old(servers), anchors), restored, swept, servers)
      ensures ok ==>
                report.cloud + report.local == |LiveIds(d, d.entries.Keys)|
                && report.removed == |old(servers)| - |swept|
      ensures ok ==> report.conflicts == |d.conflicts|
    {
      report, ok := Report(0, 0, 0, 0, 0), true;
      RestoreLegacyBindings(h, d, owner);
      restored, swept := servers, servers;
      var notes := Sweep(h, d, owner);
      notes := CollapseDuplicates(h, d, owner, restored, notes);
      if notes.removals != {} {
        if !backs {
          ok := false;
          return;
        }
      }
      ghost var left := servers;
      RemoveNatives(h, d, owner, restored, notes);
      swept := servers;
      assert Cleared(h, d, owner, anchors, restored, swept) by {
        AllCleared(h, d, owner, anchors, restored, left, swept, notes);
      }
      NotedAll(h, d, owner, anchors, restored, left, swept, notes);
      var cloud, local := PlaceAll(h, d, owner, notes.(removals := {}));
      report := Report(cloud, local, |d.conflicts|, notes.removed + |notes.removals|, notes.protected);
    }
  }

  datatype Report = Report(cloud: nat, local: nat, conflicts: nat, removed: nat, protected: nat)

  /** Where a publication failed. Only the first three come before the configuration is saved. */
  datatype Failure = InvalidVault | NoBackup | NotSaved | NotIndexed | NotSummarised

  predicate Saved(err: Option<Failure>) {
    err.None? || err.value.NotIndexed? || err.value.NotSummarised?
  }

  datatype Summary = Summary(identity: string, revision: nat, count: nat)

  /** The entries that the summary counts. */
  function Counted(d: Data): set<string> {
    set id | id in d.entries && id !in d.deleted
  }

  /** The configuration file, the index of bindings and the summary. The configuration is read, changed
      and written back under one lock; the two other files follow. */
  class ConfigFile {
    const mark: Line -> string
    var config: Config
    var index: map<string, Binding>
    var summary: Option<Summary>

    constructor (mark: Line -> string, c: Config)
      ensures this.mark == mark && config == c && index == map[] && summary == None
    {
      this.mark, config, index, summary := mark, c, map[], None;
    }

    /** `applyCloudBindings`: the index in any order. */
    method ApplyIndex(m: Servers) returns (n: Servers)
      ensures n == Rebound(mark, index, m)
    {
      n := m;
      var left := index.Keys;
      while left != {}
        invariant left <= index.Keys && n.Keys == m.Keys
        invariant forall a | a in m :: n[a] == if a in left then m[a] else ReboundRecord(mark, index, a, m[a])
        decreases left
      {
        var alias :| alias in left;
        left := left - {alias};
        if At(n, alias).Some? {
          var s, b := n[alias].value, index[alias];
          if s.cloudVault == "" && s.cloudEntry == "" && b.vault != "" && mark(LineOf(s)) == b.mark {
            n := n[alias := Some(s.(cloudEntry := b.entry, cloudVault := b.vault))];
          }
        }
      }
    }

    /** `SaveCloudBindings`: the records in any order. */
    method SaveIndex(works: bool) returns (ok: bool)
      modifies this`index
      ensures ok == works
      ensures index == if works then Bindings(mark, config.servers) else old(index)
    {
      var all: map<string, Binding> := map[];
      var m := config.servers;
      var left := m.Keys;
      while left != {}
        invariant left <= m.Keys && all.Keys <= m.Keys - left
        invariant forall a | a in m && a !in left :: Get(all, a) == Get(Bindings(mark, m), a)
        decreases left
      {
        var alias :| alias in left;
        left := left - {alias};
        if m[alias].Some? && m[alias].value.cloudVault != "" {
          all := all[alias := Binding(mark(LineOf(m[alias].value)), m[alias].value.cloudEntry,
                                      m[alias].value.cloudVault)];
        }
      }
      ok := works;
      if ok {
        forall a ensures Get(all, a) == Get(Bindings(mark, m), a) {}
        SameMap(all, Bindings(mark, m));
        index := all;
      }
    }

    method SaveSummary(d: Data, owner: string, revision: nat, works: bool) returns (ok: bool)
      modifies this`summary
      ensures ok == works
      ensures summary == if works then Some(Summary(owner, revision, |Counted(d)|)) else old(summary)
    {
      var count: nat := 0;
      var left := d.entries.Keys;
      ghost var seen: set<string> := {};
      while left != {}
        invariant left <= d.entries.Keys && seen == (set id | id in Counted(d) && id !in left) && count == |seen|
        decreases left
      {
        var id :| id in left;
        left := left - {id};
        if id !in d.deleted {
          count := count + 1;
          seen := seen + {id};
        }
      }
      assert seen == Counted(d);
      ok := works;
      if ok {
        summary := Some(Summary(owner, revision, count));
      }
    }

    /** The transaction on the configuration: every live entry of the vault can be reached by name
        afterwards, or nothing has changed. */
    method Publish(h: Digests, d: Data, owner: string, backs: bool, saves: bool)
      returns (report: Report, err: Option<Failure>, ghost restored: Servers, ghost swept: Servers)
      requires Numbered(d)
      modifies this`config
      ensures err.None? ==> config.anchors == old(config.anchors)
      ensures err.None? ==>
                Published(h, d, owner, Config(Rebound(mark, index, old(config.servers)), old(config.anchors)), restored,
                          swept, config.servers)
      ensures err.None? ==> report.cloud + report.local == |LiveIds(d, d.entries.Keys)|
                            && report.removed == |old(config.servers)| - |swept|
      ensures err.Some? ==>
                config == old(config) && ((err == Some(NotSaved) && !saves) || (err == Some(NoBackup) && !backs))
      ensures !saves ==> err.Some?
    {
      hide Published, LiveIds;
      var bound := ApplyIndex(config.servers);
      SameSize(bound, config.servers);
      var cfg := new Catalogue(Config(bound, config.anchors));
      var ok;
      report, ok, restored, swept := cfg.PublishAll(h, d, owner, backs);
      if !ok {
        err := Some(NoBackup);
        return;
      }
      if !saves {
        err := Some(NotSaved);
        return;
      }
      config := Config(cfg.servers, cfg.anchors);
      err := None;
    }

    /** `PublishInventory`: an error leaves the configuration as it was exactly if it arose before the
        save, from an invalid vault, a backup or the configuration file; after an error of the index or
        of the summary the publication stands, and only those files are behind. */
    method PublishInventory(h: Digests, now: int, d: Data, owner: string, revision: nat, backs: bool, saves: bool,
                            indexes: bool, sums: bool)
      returns (report: Report, err: Option<Failure>, ghost restored: Servers, ghost swept: Servers)
      modifies this
      ensures Valid(d, now) ==> Numbered(d)
      ensures err == Some(InvalidVault) <==> !Valid(d, now)
      ensures Saved(err) ==> Valid(d, now) && saves
      ensures Valid(d, now) && backs ==> (Saved(err) <==> saves)
      ensures Saved(err) ==> err == if !indexes then Some(NotIndexed) else if !sums then Some(NotSummarised) else None
      ensures !Saved(err) ==> config == old(config) && index == old(index) && summary == old(summary)
      ensures Saved(err) ==> config.anchors == old(config.anchors)
      ensures Saved(err) ==>
                Published(h, d, owner, Config(Rebound(mark, old(index), old(config.servers)), old(config.anchors)),
                          restored, swept, config.servers)
      ensures Saved(err) ==> report.cloud + report.local == |LiveIds(d, d.entries.Keys)|
                             && report.removed == |old(config.servers)| - |swept|
      ensures Saved(err) && indexes ==> index == Bindings(mark, config.servers)
      ensures err.None? ==> summary == Some(Summary(owner, revision, |Counted(d)|))
      ensures !indexes ==> index == old(index)
      ensures err.Some? ==> summary == old(summary)
    {
      report, restored, swept := Report(0, 0, 0, 0, 0), map[], map[];
      if !Valid(d, now) {
        err := Some(InvalidVault);
        return;
      }
      ValidNumbers(d, now);
      hide Valid;
      report, err, restored, swept := PublishAndSave(h, d, owner, revision, backs, saves, indexes, sums);
    }

    /** The transaction, and then the two other files. */
    method PublishAndSave(h: Digests, d: Data, owner: string, revision: nat, backs: bool, saves: bool, indexes: bool,
                          sums: bool)
      returns (report: Report, err: Option<Failure>, ghost restored: Servers, ghost swept: Servers)
      requires Numbered(d)
      modifies this
      ensures err != Some(InvalidVault) && (Saved(err) ==> saves) && (backs ==> (Saved(err) <==> saves))
      ensures Saved(err) ==> err == if !indexes then Some(NotIndexed) else if !sums then Some(NotSummarised) else None
      ensures !Saved(err) ==> config == old(config) && index == old(index) && summary == old(summary)
      ensures Saved(err) ==> config.anchors == old(config.anchors)
      ensures Saved(err) ==>
                Published(h, d, owner, Config(Rebound(mark, old(index), old(config.servers)), old(config.anchors)),
                          restored, swept, config.servers)
      ensures Saved(err) ==> report.cloud + report.local == |LiveIds(d, d.entries.Keys)|
                             && report.removed == |old(config.servers)| - |swept|
      ensures Saved(err) && indexes ==> index == Bindings(mark, config.servers)
      ensures err.None? ==> summary == Some(Summary(owner, revision, |Counted(d)|))
      ensures !indexes ==> index == old(index)
      ensures err.Some? ==> summary == old(summary)
    {
      hide Published, LiveIds, Bindings, Counted, Rebound, Numbered;
      report, err, restored, swept := Publish(h, d, owner, backs, saves);
      if err.Some? {
        return;
      }
      var ok := SaveIndex(indexes);
      if !ok {
        err := Some(NotIndexed);
        return;
      }
      ok := SaveSummary(d, owner, revision, sums);
      if !ok {
        err := Some(NotSummarised);
      }
    }
  }

  /** An error with the configuration already changed: the entry is listed, the index is not written. */
  method PublishedDespiteError(h: Digests, mark: Line -> string, now: int, d: Data, id: string, owner: string)
    returns (file: ConfigFile, err: Option<Failure>)
    requires Valid(d, now) && Live(d, id)
    ensures fresh(file) && err.Some? && Covered(h, d, owner, file.config.servers, id) && file.config.servers != map[]
  {
    file := new ConfigFile(mark, Config(map[], Anchors("", map[])));
    var report;
    ghost var restored, swept;
    report, err, restored, swept := file.PublishInventory(h, now, d, owner, 1, true, true, false, true);
  }

  lemma SameSize(m: Servers, n: Servers)
    requires m.Keys == n.Keys
    ensures |m| == |n|
  {
    assert |m| == |m.Keys| && |n| == |n.Keys|;
  }

  lemma ValidNumbers(d: Data, now: int)
    requires Valid(d, now)
    ensures Numbered(d)
  {}
}
