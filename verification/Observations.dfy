/** Observational metadata, merged independently of edits
    (internal/cloudsync/activity.go and `Newer` in internal/inventory/collect.go). */
module Observations {
  import opened Text

  /** A hardware sample. `readings` stands for the fields `Newer` never inspects. */
  datatype Sample = Sample(attemptedAt: int, refreshFailed: bool, checkedAt: int, status: string, readings: string)

  function Max(a: int, b: int): int {
    if a > b then a else b
  }

  function Effective(s: Sample): int {
    Max(s.checkedAt, s.attemptedAt)
  }

  predicate Available(s: Sample) {
    s.status != "unavailable"
  }

  function Newer(a: Option<Sample>, b: Option<Sample>): Option<Sample> {
    match (a, b)
    case (None, _) => b
    case (_, None) => a
    case (Some(x), Some(y)) =>
      if Effective(y) <= Effective(x) then a
      else if !Available(y) && Available(x) then
        Some(x.(attemptedAt := Effective(y), refreshFailed := true))
      else b
  }

  /** What a device reports over time, folded from the left as the vault does. */
  function Latest(samples: seq<Option<Sample>>): Option<Sample> {
    if samples == [] then None
    else Newer(Latest(samples[..|samples| - 1]), samples[|samples| - 1])
  }

  /** A fold of `Newer` is present as soon as one sample is; its effective time is the maximum of
      all of them; its readings were really taken by one of them, at the time it claims, and if they are
      not that sample unchanged the refresh is marked as failed; and every available prefix stays available. */
  lemma {:induction false} LatestKeepsTheNewestSample(samples: seq<Option<Sample>>)
    ensures Latest(samples).Some? <==> exists i | 0 <= i < |samples| :: samples[i].Some?
    ensures Latest(samples).Some? ==>
              && (forall i | 0 <= i < |samples| && samples[i].Some? ::
                    Effective(samples[i].value) <= Effective(Latest(samples).value))
              && (exists i | 0 <= i < |samples| :: samples[i].Some? &&
                    Effective(samples[i].value) == Effective(Latest(samples).value))
              && (exists i | 0 <= i < |samples| :: samples[i].Some? &&
                    SameReadings(samples[i].value, Latest(samples).value)
                    && (samples[i] == Latest(samples) || Latest(samples).value.refreshFailed))
    ensures forall k | 0 <= k <= |samples| && Latest(samples[..k]).Some? && Available(Latest(samples[..k]).value) ::
              Latest(samples).Some? && Available(Latest(samples).value)
  {
    if samples == [] {
    } else {
      var n := |samples| - 1;
      var init := samples[..n];
      LatestKeepsTheNewestSample(init);
      forall k | 0 <= k <= |samples| && Latest(samples[..k]).Some? && Available(Latest(samples[..k]).value)
        ensures Latest(samples).Some? && Available(Latest(samples).value)
      {
        if k < |samples| {
          assert init[..k] == samples[..k];
        } else {
          assert samples[..k] == samples;
        }
      }
      if Latest(init).Some? {
        var i :| 0 <= i < |init| && init[i].Some? && Effective(init[i].value) == Effective(Latest(init).value);
        var j :| 0 <= j < |init| && init[j].Some? && SameReadings(init[j].value, Latest(init).value)
          && (init[j] == Latest(init) || Latest(init).value.refreshFailed);
        assert samples[i] == init[i] && samples[j] == init[j];
        assert Latest(samples) == Latest(init) || samples[n].Some?;
      }
      forall i | 0 <= i < |samples| && samples[i].Some?
        ensures Latest(samples).Some? && Effective(samples[i].value) <= Effective(Latest(samples).value)
      {
        if i < n { assert samples[i] == init[i]; }
      }
    }
  }

  predicate SameReadings(a: Sample, b: Sample) {
    a.readings == b.readings && a.checkedAt == b.checkedAt && a.status == b.status
  }

  /** `Newer` is not commutative: exactly when neither side is missing and either the samples tie
      without being equal, or the later one is a failed refresh of an available one. */
  lemma NewerCommutesIff(a: Option<Sample>, b: Option<Sample>)
    ensures Newer(a, b) == Newer(b, a) <==>
            a.None? || b.None? || a == b ||
            (Effective(a.value) < Effective(b.value) && (Available(a.value) ==> Available(b.value))) ||
            (Effective(b.value) < Effective(a.value) && (Available(b.value) ==> Available(a.value)))
  {}

  /** internal/cloudsync/activity.go `Activity`. */
  datatype Activity = Activity(
    hardware: Option<Sample>, platform: string,
    checkedAt: int, status: string,
    sshCheckedAt: int, sshError: string,
    sshmCheckedAt: int, sshmVersion: string, sshmStatus: string,
    lastConnected: int, lastSeen: int)

  const NoActivity := Activity(None, "", 0, "", 0, "", 0, "", "", 0, 0)

  /** Go's tie-breaking comparison of a time and a text. */
  predicate Supersedes(bt: int, b: string, at: int, a: string) {
    bt > at || (bt == at && Less(a, b))
  }

  function MergeActivity(a: Activity, b: Activity): Activity {
    var ssh := Supersedes(b.sshCheckedAt, b.sshError, a.sshCheckedAt, a.sshError);
    var sshm := Supersedes(b.sshmCheckedAt, b.sshmVersion, a.sshmCheckedAt, a.sshmVersion);
    Activity(
      Newer(a.hardware, b.hardware),
      if b.platform != "" && (a.platform == "" || Supersedes(b.checkedAt, b.platform, a.checkedAt, a.platform))
      then b.platform else a.platform,
      Max(a.checkedAt, b.checkedAt),
      if Supersedes(b.checkedAt, b.status, a.checkedAt, a.status) then b.status else a.status,
      if ssh then b.sshCheckedAt else a.sshCheckedAt,
      if ssh then b.sshError else a.sshError,
      if sshm then b.sshmCheckedAt else a.sshmCheckedAt,
      if sshm then b.sshmVersion else a.sshmVersion,
      if sshm then b.sshmStatus else a.sshmStatus,
      Max(a.lastConnected, b.lastConnected),
      Max(a.lastSeen, b.lastSeen))
  }

  /** A dated text; later wins, and among equal times the greater text. */
  datatype Stamp = Stamp(at: int, text: string)

  function Later(x: Stamp, y: Stamp): Stamp {
    if Supersedes(y.at, y.text, x.at, x.text) then y else x
  }

  lemma LaterIsJoin(x: Stamp, y: Stamp, z: Stamp)
    ensures Later(x, x) == x
    ensures Later(x, y) == Later(y, x)
    ensures Later(Later(x, y), z) == Later(x, Later(y, z))
  {
    LessIrreflexive(x.text);
    LessTotal(x.text, y.text);
    LessTotal(x.text, z.text);
    LessTotal(y.text, z.text);
    if Less(x.text, y.text) {
      LessAsymmetric(x.text, y.text);
      if Less(y.text, z.text) { LessTransitive(x.text, y.text, z.text); }
    }
    if Less(y.text, x.text) {
      LessAsymmetric(y.text, x.text);
      if Less(z.text, y.text) { LessTransitive(z.text, y.text, x.text); }
    }
    if Less(y.text, z.text) { LessAsymmetric(y.text, z.text); }
    if Less(z.text, y.text) { LessAsymmetric(z.text, y.text); }
    if Less(x.text, z.text) { LessAsymmetric(x.text, z.text); }
    if Less(z.text, x.text) { LessAsymmetric(z.text, x.text); }
  }

  /** The part of an activity record on which merging is a join. */
  datatype Core = Core(probe: Stamp, ssh: Stamp, sshm: Stamp, lastConnected: int, lastSeen: int)

  function CoreOf(a: Activity): Core {
    Core(Stamp(a.checkedAt, a.status), Stamp(a.sshCheckedAt, a.sshError),
         Stamp(a.sshmCheckedAt, a.sshmVersion), a.lastConnected, a.lastSeen)
  }

  function Join(x: Core, y: Core): Core {
    Core(Later(x.probe, y.probe), Later(x.ssh, y.ssh), Later(x.sshm, y.sshm),
         Max(x.lastConnected, y.lastConnected), Max(x.lastSeen, y.lastSeen))
  }

  lemma MergeIsJoin(a: Activity, b: Activity)
    ensures CoreOf(MergeActivity(a, b)) == Join(CoreOf(a), CoreOf(b))
  {}

  lemma JoinLaws(x: Core, y: Core, z: Core)
    ensures Join(x, x) == x
    ensures Join(x, y) == Join(y, x)
    ensures Join(Join(x, y), z) == Join(x, Join(y, z))
  {
    LaterIsJoin(x.probe, y.probe, z.probe);
    LaterIsJoin(x.ssh, y.ssh, z.ssh);
    LaterIsJoin(x.sshm, y.sshm, z.sshm);
  }

  /** Reports of any number of devices folded into one record. */
  function FoldActivity(start: Activity, reports: seq<Activity>): Activity
    decreases |reports|
  {
    if reports == [] then start
    else FoldActivity(MergeActivity(start, reports[0]), reports[1..])
  }

  function JoinAll(start: Core, reports: seq<Activity>): Core
    decreases |reports|
  {
    if reports == [] then start
    else JoinAll(Join(start, CoreOf(reports[0])), reports[1..])
  }

  lemma {:induction false} FoldIsJoinAll(start: Activity, reports: seq<Activity>)
    ensures CoreOf(FoldActivity(start, reports)) == JoinAll(CoreOf(start), reports)
    decreases |reports|
  {
    if reports != [] {
      MergeIsJoin(start, reports[0]);
      FoldIsJoinAll(MergeActivity(start, reports[0]), reports[1..]);
    }
  }

  lemma {:induction false} JoinAllCommutes(start: Core, c: Core, reports: seq<Activity>)
    ensures JoinAll(Join(start, c), reports) == Join(JoinAll(start, reports), c)
    decreases |reports|
  {
    if reports != [] {
      var r := CoreOf(reports[0]);
      JoinLaws(start, c, r);
      JoinLaws(start, r, c);
      JoinLaws(c, r, r);
      JoinAllCommutes(Join(start, r), c, reports[1..]);
    }
  }

  lemma {:induction false} JoinAllAbsorbs(start: Core, a: Activity, reports: seq<Activity>)
    requires a in reports
    ensures Join(JoinAll(start, reports), CoreOf(a)) == JoinAll(start, reports)
    decreases |reports|
  {
    var c := CoreOf(a);
    var next := Join(start, CoreOf(reports[0]));
    if reports[0] == a {
      JoinAllCommutes(next, c, reports[1..]);
      JoinLaws(start, c, c);
      JoinLaws(c, c, c);
    } else {
      JoinAllAbsorbs(next, a, reports[1..]);
    }
  }

  lemma {:induction false} JoinAllSaturated(total: Core, reports: seq<Activity>)
    requires forall a | a in reports :: Join(total, CoreOf(a)) == total
    ensures JoinAll(total, reports) == total
  {
    if reports != [] {
      assert reports[0] in reports;
      JoinAllSaturated(total, reports[1..]);
    }
  }

  lemma {:induction false} JoinAllSwap(start: Core, s: seq<Activity>, t: seq<Activity>)
    ensures JoinAll(JoinAll(start, s), t) == JoinAll(JoinAll(start, t), s)
    decreases |s|
  {
    if s != [] {
      var c := CoreOf(s[0]);
      JoinAllSwap(Join(start, c), s[1..], t);
      JoinAllCommutes(start, c, t);
    }
  }

  /** Whatever the order, grouping or repetition in which the same reports are merged, the dated
      pairs and the two maxima come out the same. */
  lemma ActivityOrderIrrelevant(start: Activity, s: seq<Activity>, t: seq<Activity>)
    requires SetOf(s) == SetOf(t)
    ensures CoreOf(FoldActivity(start, s)) == CoreOf(FoldActivity(start, t))
  {
    FoldIsJoinAll(start, s);
    FoldIsJoinAll(start, t);
    var z := CoreOf(start);
    forall a | a in t ensures Join(JoinAll(z, s), CoreOf(a)) == JoinAll(z, s) {
      assert a in SetOf(t);
      JoinAllAbsorbs(z, a, s);
    }
    forall a | a in s ensures Join(JoinAll(z, t), CoreOf(a)) == JoinAll(z, t) {
      assert a in SetOf(s);
      JoinAllAbsorbs(z, a, t);
    }
    JoinAllSaturated(JoinAll(z, s), t);
    JoinAllSaturated(JoinAll(z, t), s);
    JoinAllSwap(z, s, t);
  }

  /** `sshmStatus` travels with its dated version but takes no part in the comparison, so it
      depends on the merge order exactly on a tie with different statuses. */
  lemma StatusCommutesIff(a: Activity, b: Activity)
    ensures MergeActivity(a, b).sshmStatus == MergeActivity(b, a).sshmStatus <==>
            !(a.sshmCheckedAt == b.sshmCheckedAt && a.sshmVersion == b.sshmVersion && a.sshmStatus != b.sshmStatus)
  {
    LessTotal(a.sshmVersion, b.sshmVersion);
    LessIrreflexive(a.sshmVersion);
    if Less(a.sshmVersion, b.sshmVersion) { LessAsymmetric(a.sshmVersion, b.sshmVersion); }
    if Less(b.sshmVersion, a.sshmVersion) { LessAsymmetric(b.sshmVersion, a.sshmVersion); }
  }

  predicate Dated(x: Activity) {
    x.platform != ""
  }

  /** A platform read after `x` was probed, against an `x` that names none. */
  predicate Hides(blank: Activity, kept: Activity, lost: Activity) {
    && !Dated(blank) && Dated(kept) && Dated(lost) && kept.platform != lost.platform
    && Supersedes(lost.checkedAt, lost.platform, kept.checkedAt, kept.platform)
    && !Supersedes(lost.checkedAt, lost.platform, Max(blank.checkedAt, kept.checkedAt), kept.platform)
  }

  /** `platform` is not associative: a record that names no platform can lift the date of an older
      name and so hide a newer one. That is the only way it fails. */
  lemma PlatformAssociatesIff(a: Activity, b: Activity, c: Activity)
    ensures MergeActivity(MergeActivity(a, b), c).platform == MergeActivity(a, MergeActivity(b, c)).platform <==>
            !(Hides(b, a, c) || Hides(b, c, a) || Hides(a, b, c) || Hides(c, b, a))
  {
    var p, q, r := a.platform, b.platform, c.platform;
    LessTotal(p, q); LessTotal(q, r); LessTotal(p, r);
    LessIrreflexive(p); LessIrreflexive(q); LessIrreflexive(r);
    if Less(p, q) { LessAsymmetric(p, q); if Less(q, r) { LessTransitive(p, q, r); } }
    if Less(q, p) { LessAsymmetric(q, p); if Less(r, q) { LessTransitive(r, q, p); } }
    if Less(q, r) { LessAsymmetric(q, r); }
    if Less(r, q) { LessAsymmetric(r, q); }
    if Less(p, r) { LessAsymmetric(p, r); if Less(r, q) { LessTransitive(p, r, q); } }
    if Less(r, p) { LessAsymmetric(r, p); if Less(q, r) { LessTransitive(q, r, p); } }
  }

  /** A record that came out of a merge from nothing is a fixed point of merging: starting over
      from nothing and merging it twice changes no field. */
  predicate Settled(a: Activity) {
    && a.checkedAt >= 0 && a.sshCheckedAt >= 0 && a.sshmCheckedAt >= 0 && a.lastConnected >= 0 && a.lastSeen >= 0
    && (a.sshmCheckedAt == 0 && a.sshmVersion == "" ==> a.sshmStatus == "")
  }

  lemma SettledIsFixedPoint(a: Activity)
    requires Settled(a)
    ensures MergeActivity(MergeActivity(NoActivity, a), a) == a
  {
    LessIrreflexive(a.platform);
    LessIrreflexive(a.sshError);
    LessIrreflexive(a.status);
    LessIrreflexive(a.sshmVersion);
  }

  lemma MergedFromNothingSettles(a: Activity, b: Activity)
    ensures Settled(MergeActivity(MergeActivity(NoActivity, a), b))
  {}
}
