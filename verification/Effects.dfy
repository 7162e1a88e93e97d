/** What imports, observations and device connections make of a vault, field by field
    (internal/cloudsync/data.go, internal/cloudsync/activity.go, internal/cloudsync/device_entry.go). */
module Effects {
  import opened Text
  import opened Observations
  import opened Vault
  import opened VaultOps
  import Outcomes

  // --- imports ---

  /** The server of a record as the vault keeps it: its settings and metadata, without what belongs to the device. */
  lemma CleanServerIs(s: Server)
    ensures Outcomes.SameSettings(CleanServer(s), s)
    ensures var c := CleanServer(s);
            && c.cloudEntry == "" && c.cloudVault == "" && c.keyPath == "" && c.seen == Unobserved
            && c.port == Outcomes.Port(s) && c.host == ToLower(TrimSpace(s.host))
  {
    TrimmedTwice(s.host);
  }

  lemma LowerLength(s: string)
    ensures |ToLower(s)| == |s| && ToLower(ToLower(s)) == ToLower(s)
    ensures forall i | 0 <= i < |s| :: IsSpace(ToLower(s)[i]) <==> IsSpace(s[i])
  {}

  /** `s` is `t` between white space. */
  ghost predicate Padded(s: string, a: string, t: string, b: string) {
    s == a + t + b && (forall c | c in a :: IsSpace(c)) && (forall c | c in b :: IsSpace(c))
  }

  /** Trimming takes off white space at both ends, and no more. */
  lemma {:induction false} TrimSpaceIs(s: string) returns (a: string, b: string)
    ensures Padded(s, a, TrimSpace(s), b)
    ensures var t := TrimSpace(s); t != "" ==> !IsSpace(t[0]) && !IsSpace(t[|t| - 1])
    decreases |s|
  {
    hide IsSpace;
    var t := TrimSpace(s);
    a, b := "", "";
    if s != "" && IsSpace(s[0]) {
      a, b := TrimSpaceIs(s[1..]);
      assert s == [s[0]] + s[1..] && [s[0]] + (a + t + b) == ([s[0]] + a) + t + b;
      a := [s[0]] + a;
    } else if s != "" && IsSpace(s[|s| - 1]) {
      var n := |s| - 1;
      a, b := TrimSpaceIs(s[..n]);
      assert s == s[..n] + [s[n]] && (a + t + b) + [s[n]] == a + t + (b + [s[n]]);
      b := b + [s[n]];
    } else {
      assert s == "" + s + "";
    }
  }

  lemma TrimmedTwice(s: string)
    ensures TrimSpace(ToLower(TrimSpace(s))) == ToLower(TrimSpace(s))
  {
    var a, b := TrimSpaceIs(s);
    LowerLength(TrimSpace(s));
  }

  /** A record is imported if it is a local one whose connection was not deleted. */
  predicate Wanted(h: Digests, d: Data, s: Option<Server>) {
    s.Some? && s.value.cloudEntry == "" && EntryId(h, CleanServer(s.value)) !in d.deleted
  }

  predicate NeedsKey(includeKeys: bool, l: Local) {
    l.server.Some? && l.server.value.auth == AuthKey && includeKeys
  }

  ghost predicate Imported(h: Digests, d: Data, out: Data, device: string, includeKeys: bool, l: Local) {
    if !Wanted(h, d, l.server) then out == d
    else
      var s := CleanServer(l.server.value);
      var id := EntryId(h, s);
      && OnlyThere(d, out, id)
      && if NeedsKey(includeKeys, l) && l.key.Unreadable? then NotedOnly(h, d, out, id, s, device, l.alias)
         else Named(h, d, out, id, s, device, l.alias, if NeedsKey(includeKeys, l) then Some(l.key.credential)
                    else None)
  }

  /** No other entry and nothing but entries and credentials changes. */
  ghost predicate OnlyThere(d: Data, out: Data, id: string) {
    && out == d.(entries := out.entries, credentials := out.credentials)
    && forall k | k != id :: Get(out.entries, k) == Get(d.entries, k)
  }

  /** The record's key could not be read: an entry that was listed keeps the provenance just noted. */
  ghost predicate NotedOnly(h: Digests, d: Data, out: Data, id: string, s: Server, device: string, alias: string) {
    && out.credentials == d.credentials && (id in out.entries <==> id in d.entries)
    && (id in d.entries ==>
          && out.entries[id] == d.entries[id].(sources := out.entries[id].sources)
          && Noted(h, d, out, id, device, alias, s))
  }

  /** The entry is listed with the alias and the key, if there is one; all else it had before it keeps. */
  ghost predicate Named(h: Digests, d: Data, out: Data, id: string, s: Server, device: string, alias: string,
                        key: Option<Credential>) {
    && id in out.entries && Noted(h, d, out, id, device, alias, s)
    && out.entries[id].id == (if id in d.entries then d.entries[id].id else id)
    && out.entries[id].server == (if id in d.entries then d.entries[id].server else s)
    && SetOf(out.entries[id].aliases) == {alias} + (if id in d.entries then SetOf(d.entries[id].aliases) else {})
    && SetOf(out.entries[id].credentialIds) ==
         (if id in d.entries then SetOf(d.entries[id].credentialIds) else {})
         + (if key.Some? then {h.credential(key.value)} else {})
    && (key.None? ==> out.credentials == d.credentials)
    && (key.Some? ==>
          && Get(out.credentials, h.credential(key.value)) == key
          && forall x | x != h.credential(key.value) :: Get(out.credentials, x) == Get(d.credentials, x))
  }

  /** The record is noted as a source, under the key of its device and alias, and no other source changes. */
  ghost predicate Noted(h: Digests, d: Data, out: Data, id: string, device: string, alias: string, s: Server)
    requires id in out.entries
  {
    out.entries[id].sources ==
      (if id in d.entries then d.entries[id].sources else map[])[h.pair(device, alias) := Source(device, alias, s)]
  }

  /** The three ways a record enters, or does not. */
  lemma ImportBranches(h: Digests, d: Data, device: string, includeKeys: bool, l: Local)
    requires Wanted(h, d, l.server)
    ensures var s := CleanServer(l.server.value);
            var id := EntryId(h, s);
            var prior := if id in d.entries then d.entries[id] else Entry(id, [], s, [], map[]);
            var noted := prior.(sources := prior.sources[h.pair(device, l.alias) := Source(device, l.alias, s)]);
            var named := noted.(aliases := Union(prior.aliases, [l.alias]));
            ImportServer(h, d, device, includeKeys, l) ==
            if !NeedsKey(includeKeys, l) then d.(entries := d.entries[id := named])
            else if l.key.Unreadable? then (if id in d.entries then d.(entries := d.entries[id := noted]) else d)
            else
              var cid := h.credential(l.key.credential);
              d.(credentials := d.credentials[cid := l.key.credential],
                 entries := d.entries[id := named.(credentialIds := Union(prior.credentialIds, [cid]))])
  {
    hide EntryId, ToLower, TrimSpace;
  }

  /** What an import makes of a record. */
  lemma ImportIs(h: Digests, d: Data, device: string, includeKeys: bool, l: Local)
    ensures Imported(h, d, ImportServer(h, d, device, includeKeys, l), device, includeKeys, l)
    ensures ImportFails(h, d, includeKeys, l) <==>
              Wanted(h, d, l.server) && NeedsKey(includeKeys, l) && l.key.Unreadable?
  {
    if Wanted(h, d, l.server) {
      ImportBranches(h, d, device, includeKeys, l);
      var out := ImportServer(h, d, device, includeKeys, l);
      var s := CleanServer(l.server.value);
      hide ImportServer, EntryId, CleanServer, Named, NotedOnly, OnlyThere, Union;
      var id := EntryId(h, s);
      if NeedsKey(includeKeys, l) && l.key.Unreadable? {
        NotedIs(h, d, out, id, s, device, l.alias);
      } else {
        NamedIs(h, d, out, id, s, device, l.alias, if NeedsKey(includeKeys, l) then Some(l.key.credential) else None);
      }
    } else {
      hide EntryId, CleanServer;
    }
  }

  lemma NotedIs(h: Digests, d: Data, out: Data, id: string, s: Server, device: string, alias: string)
    requires out == if id in d.entries
                    then d.(entries := d.entries[id := d.entries[id].(
                              sources := d.entries[id].sources[h.pair(device, alias) := Source(device, alias, s)])])
                    else d
    ensures OnlyThere(d, out, id) && NotedOnly(h, d, out, id, s, device, alias)
  {}

  lemma NamedIs(h: Digests, d: Data, out: Data, id: string, s: Server, device: string, alias: string,
                key: Option<Credential>)
    requires var prior := if id in d.entries then d.entries[id] else Entry(id, [], s, [], map[]);
             var noted := prior.(sources := prior.sources[h.pair(device, alias) := Source(device, alias, s)]);
             var named := noted.(aliases := Union(prior.aliases, [alias]));
             if key.None? then out == d.(entries := d.entries[id := named])
             else
               var cid := h.credential(key.value);
               out == d.(credentials := d.credentials[cid := key.value],
                         entries := d.entries[id := named.(credentialIds := Union(prior.credentialIds, [cid]))])
    ensures OnlyThere(d, out, id) && Named(h, d, out, id, s, device, alias, key)
  {
    hide Ascending;
    assert SetOf([alias]) == {alias};
    if key.Some? { assert SetOf([h.credential(key.value)]) == {h.credential(key.value)}; }
    var none: seq<string> := [];
    assert SetOf(none) == {};
  }

  // --- observations ---

  /** A time that can be right: not before the epoch, nor more than a day ahead. */
  function Credible(t: int, now: int): int {
    if 0 < t && t <= now + 86400000 then t else 0
  }

  /** A dated text after another was seen: the later one, and of two of one date the greater. */
  ghost predicate Joins(was: Stamp, seen: Stamp, next: Stamp) {
    && (next == was || next == seen) && next.at == Max(was.at, seen.at)
    && (was.at == seen.at ==> !Less(next.text, was.text) && !Less(next.text, seen.text))
  }

  lemma LaterJoins(x: Stamp, y: Stamp)
    ensures Joins(x, y, Later(x, y))
  {
    LessTotal(x.text, y.text);
    LessIrreflexive(x.text);
    LessIrreflexive(y.text);
    if Less(x.text, y.text) { LessAsymmetric(x.text, y.text); }
    if Less(y.text, x.text) { LessAsymmetric(y.text, x.text); }
  }

  /** What one report makes of what was known. */
  ghost predicate Learns(was: Activity, s: Observed, now: int, next: Activity) {
    && next.lastConnected == Max(was.lastConnected, Credible(s.lastUsed, now))
    && next.lastSeen == Max(was.lastSeen, Credible(s.lastSeen, now))
    && Joins(Stamp(was.checkedAt, was.status), Stamp(Credible(s.lastChecked, now), s.lastStatus),
             Stamp(next.checkedAt, next.status))
    && Joins(Stamp(was.sshCheckedAt, was.sshError), Stamp(Credible(s.lastSSHChecked, now), s.lastSSHError),
             Stamp(next.sshCheckedAt, next.sshError))
    && Joins(Stamp(was.sshmCheckedAt, was.sshmVersion), Stamp(Credible(s.sshmCheckedAt, now), s.sshmVersion),
             Stamp(next.sshmCheckedAt, next.sshmVersion))
    && next.hardware == Newer(was.hardware, s.hardware)
    && (next.platform == was.platform || (next.platform == s.platform && s.platform != ""))
    && (was.platform == "" ==> next.platform == s.platform)
    && (s.platform != "" && Credible(s.lastChecked, now) > was.checkedAt ==> next.platform == s.platform)
    && (next.sshmStatus == was.sshmStatus || next.sshmStatus == s.sshmStatus)
    && (Credible(s.sshmCheckedAt, now) > was.sshmCheckedAt ==> next.sshmStatus == s.sshmStatus)
  }

  /** The entry that a record observes: the one it is bound to, or that of its route. */
  function Observes(h: Digests, s: Server): string {
    if s.cloudEntry == "" then EntryId(h, CleanServer(s)) else s.cloudEntry
  }

  /** An observation reaches its listed entry and nothing else. */
  lemma ObserveIs(h: Digests, d: Data, server: Option<Server>, now: int)
    ensures var out := ObserveServer(h, d, server, now);
            && out == d.(activity := out.activity)
            && if server.None? || Observes(h, server.value) !in d.entries then out == d
               else
                 var id := Observes(h, server.value);
                 var was := if id in d.activity then d.activity[id] else NoActivity;
                 && (forall k | k != id :: Get(out.activity, k) == Get(d.activity, k))
                 && Learns(was, server.value.seen, now, if id in out.activity then out.activity[id] else NoActivity)
  {
    if server.Some? {
      var id := Observes(h, server.value);
      var was := if id in d.activity then d.activity[id] else NoActivity;
      MergeLearns(was, server.value, now);
      hide MergeActivity, Learns, EntryId, CleanServer, VaultOps.Report;
    }
  }

  lemma MergeLearns(was: Activity, s: Server, now: int)
    ensures Learns(was, s.seen, now, MergeActivity(was, VaultOps.Report(s, now)))
  {
    var r := VaultOps.Report(s, now);
    LaterJoins(Stamp(was.checkedAt, was.status), Stamp(r.checkedAt, r.status));
    LaterJoins(Stamp(was.sshCheckedAt, was.sshError), Stamp(r.sshCheckedAt, r.sshError));
    LaterJoins(Stamp(was.sshmCheckedAt, was.sshmVersion), Stamp(r.sshmCheckedAt, r.sshmVersion));
    hide Less, Newer, Joins;
  }

  // --- device connections ---

  lemma HexDigitsDiffer(a: char, b: char)
    requires a as int < 256 && b as int < 256
    requires HexDigit(a as int / 16 % 16) == HexDigit(b as int / 16 % 16)
             && HexDigit(a as int % 16) == HexDigit(b as int % 16)
    ensures a == b
  {
    HexDigitIs(a as int / 16 % 16, b as int / 16 % 16);
    HexDigitIs(a as int % 16, b as int % 16);
  }

  /** A platform has one of three names or none, each of which stands for itself, however it is written. */
  lemma PlatformsSettle(p: string, q: string)
    ensures NormalizedPlatform(p) in {"", "windows", "linux", "macos"}
    ensures NormalizedPlatform(NormalizedPlatform(p)) == NormalizedPlatform(p)
    ensures q in {"windows", "linux", "macos"} && ToLower(TrimSpace(p)) == q ==> NormalizedPlatform(p) == q
  {
    hide ToLower, TrimSpace;
    Settled("windows");
    Settled("linux");
    Settled("macos");
    Settled("");
  }

  lemma Settled(p: string)
    requires p in {"", "windows", "linux", "macos"}
    ensures ToLower(TrimSpace(p)) == p
  {}

  lemma HexDigitIs(m: int, n: int)
    requires 0 <= m < 16 && 0 <= n < 16 && HexDigit(m) == HexDigit(n)
    ensures m == n
  {}

  predicate Narrow(s: string) {
    forall i | 0 <= i < |s| :: s[i] as int < 256
  }

  /** The hexadecimal form of an id belongs to no other. */
  lemma {:induction false} HexInjective(s: string, t: string)
    requires Narrow(s) && Narrow(t) && Hex(s) == Hex(t)
    ensures s == t
  {
    if s != "" && t != "" {
      assert Hex(s)[0] == Hex(t)[0] && Hex(s)[1] == Hex(t)[1];
      HexDigitsDiffer(s[0], t[0]);
      assert Hex(s)[2..] == Hex(s[1..]) && Hex(t)[2..] == Hex(t[1..]);
      assert (forall i | 0 <= i < |s| - 1 :: s[1..][i] == s[i + 1])
             && (forall i | 0 <= i < |t| - 1 :: t[1..][i] == t[i + 1]);
      HexInjective(s[1..], t[1..]);
      assert s == [s[0]] + s[1..] && t == [t[0]] + t[1..];
    }
  }

  /** Two devices never share a connection, whatever they are called. */
  lemma DevicesAreApart(h: Digests, d: Device, e: Device, name: string, other: string, text: string, more: string)
    requires Outcomes.RoutesDiffer(h) && ValidId(d.id) && ValidId(e.id)
    requires EntryId(h, DeviceServer(d, name, text)) == EntryId(h, DeviceServer(e, other, more))
    ensures d.id == e.id
  {
    var x, y := DeviceServer(d, name, text).host, DeviceServer(e, other, more).host;
    Outcomes.EntryIdIff(h, DeviceServer(d, name, text), DeviceServer(e, other, more));
    assert x == "sshm-device-" + Hex(d.id) + ".invalid" && y == "sshm-device-" + Hex(e.id) + ".invalid";
    assert x[12..|x| - 8] == Hex(d.id) && y[12..|y| - 8] == Hex(e.id);
    assert (forall i | 0 <= i < |d.id| :: d.id[i] in d.id) && (forall i | 0 <= i < |e.id| :: e.id[i] in e.id);
    HexInjective(d.id, e.id);
  }
}
