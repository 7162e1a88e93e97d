/** A job and its receipt between the browser that asks, the server that queues and the device that runs: each side
    builds the signed texts for itself (cloud/src/jobs.ts, internal/cloudsync/jobs.go). */
module Exchange {
  import opened Text
  import opened Wire
  import Jobs
  import Agent

  /** A job that carries the signature of a queued one is genuine to a device exactly if it is that very job, for this
      device; so a device runs what was asked of it, and whatever was asked of it can be run. */
  lemma GenuineIff(kit: Agent.Kit, me: Agent.Identity, j: Agent.Job, s: Jobs.Spec, now: nat)
    requires '\n' !in me.user && Jobs.ValidSpec(s, now) && Verify(me.root, s.signature, Jobs.JobMessage(me.user, s))
    requires Agent.SignatureOf(kit, j.signature) == Some(s.signature)
    ensures Agent.Genuine(kit, me, j) <==>
              && me.device == s.device && j.device == s.device && j.id == s.id
              && j.action == s.action && j.version == s.version && j.expires == s.expires
  {
    if Agent.Genuine(kit, me, j) {
      Agent.NoNewline(me.user, j);
      NoBreaks(me.user, s, now);
      var a := ["sshm-job-v1", me.user, j.id, j.device, j.action, j.version, Numeral(j.expires)];
      var b := ["sshm-job-v1", me.user, s.id, s.device, s.action, s.version, Numeral(s.expires)];
      assert a[..6] == ["sshm-job-v1", me.user, j.id, j.device, j.action, j.version];
      assert b[..6] == ["sshm-job-v1", me.user, s.id, s.device, s.action, s.version];
      FieldsInjective('\n', a, b);
      assert a[2] == b[2] && a[3] == b[3] && a[4] == b[4] && a[5] == b[5] && a[6] == b[6];
      NumeralInjective(j.expires, s.expires);
    }
  }

  lemma NoBreaks(user: string, s: Jobs.Spec, now: nat)
    requires '\n' !in user && Jobs.ValidSpec(s, now)
    ensures Free('\n', ["sshm-job-v1", user, s.id, s.device, s.action, s.version])
  {}

  /** The server takes a receipt exactly if it is for the row's job and says what the report says: what a device signs
      for one job or result stands for no other, whatever texts the result consists of. */
  lemma ReceiptIff(me: Agent.Identity, j: Agent.Job, r: Agent.Result, root: string, s: Jobs.Spec, o: Jobs.Outcome)
    requires '\n' !in me.user && ValidId(j.id) && ValidId(j.device) && ValidId(s.id) && ValidId(s.device)
    requires Jobs.ValidOutcome(o)
    ensures Verify(root, Signed(me.root, Agent.ResultMessage(me.user, j, r)), Jobs.ReceiptMessage(me.user, s, o)) <==>
              && root == me.root && s.id == j.id && s.device == j.device
              && Jobs.StatusName(o.status) == r.status && o.code == r.code && o.count == r.count
  {
    var given := Report(j.id, j.device, r.status, r.code, r.count);
    var taken := Report(s.id, s.device, Jobs.StatusName(o.status), o.code, o.count);
    hide ValidId, Fields, Numeral, Jobs.StatusName, Jobs.ValidOutcome;
    if ReportText(me.user, given) == ReportText(me.user, taken) {
      NoBreak(j.id, j.device);
      NoBreak(s.id, s.device);
      OutcomeIsPlain(o);
      ReportInjective(me.user, given, taken);
    }
  }

  lemma OutcomeIsPlain(o: Jobs.Outcome)
    requires Jobs.ValidOutcome(o)
    ensures '\n' !in Jobs.StatusName(o.status) && '\n' !in o.code
  {
    assert '\n' !in Jobs.StatusName(o.status) by { hide Jobs.ValidOutcome; }
    assert '\n' !in o.code by { CodeIsPlain(o.code); }
  }

  lemma CodeIsPlain(code: string)
    requires code in Jobs.Codes
    ensures '\n' !in code
  {
    var first := {"synced", "inspected", "up_to_date", "installed_restart_required", "operation_failed", "interrupted"};
    if code in first {
    } else {
      assert code in {"update_check_failed", "release_changed", "update_install_failed", "inspection_failed",
                      "local_config_unavailable", "sync_failed"};
    }
  }

  /** What a receipt is about. */
  datatype Report = Report(id: string, device: string, status: string, code: string, count: int)

  function ReportText(user: string, r: Report): string {
    Fields('\n', ["sshm-job-result-v1", user, r.id, r.device, r.status, r.code, Numeral(r.count)])
  }

  lemma NoBreak(id: string, device: string)
    requires ValidId(id) && ValidId(device)
    ensures '\n' !in id && '\n' !in device
  {}

  lemma ReportInjective(user: string, q: Report, r: Report)
    requires '\n' !in user && '\n' !in q.id && '\n' !in q.device && '\n' !in r.id && '\n' !in r.device
    requires '\n' !in r.status && '\n' !in r.code && ReportText(user, q) == ReportText(user, r)
    ensures q == r
  {
    hide Fields;
    Head(user, q);
    Head(user, r);
    var a := ["sshm-job-result-v1", user, q.id, q.device, Tail(q.status, q.code, q.count)];
    var b := ["sshm-job-result-v1", user, r.id, r.device, Tail(r.status, r.code, r.count)];
    assert a[..4] == ["sshm-job-result-v1", user, q.id, q.device];
    assert b[..4] == ["sshm-job-result-v1", user, r.id, r.device];
    FieldsInjective('\n', a, b);
    assert a[2] == b[2] && a[3] == b[3] && a[4] == b[4];
    TailInjective(q.status, q.code, q.count, r.status, r.code, r.count);
  }

  function Tail(status: string, code: string, count: int): string {
    (status + "\n" + code) + "\n" + Numeral(count)
  }

  lemma Head(user: string, r: Report)
    ensures ReportText(user, r) == Fields('\n',
                                          ["sshm-job-result-v1", user, r.id, r.device, Tail(r.status, r.code, r.count)])
  {
    var first := ["sshm-job-result-v1", user, r.id, r.device];
    var last := [r.status, r.code, Numeral(r.count)];
    assert first + last == ["sshm-job-result-v1", user, r.id, r.device, r.status, r.code, Numeral(r.count)];
    assert first + [Fields('\n', last)] == ["sshm-job-result-v1", user, r.id, r.device, Fields('\n', last)];
    FieldsTail('\n', first, last);
    FieldsOfThree('\n', r.status, r.code, Numeral(r.count));
    assert "\n" == ['\n'];
  }

  lemma FieldsOfThree(sep: char, x: string, y: string, z: string)
    ensures Fields(sep, [x, y, z]) == (x + [sep] + y) + [sep] + z
  {
    assert [x, y, z][1..] == [y, z] && [y, z][1..] == [z];
    assert Fields(sep, [y, z]) == y + [sep] + z;
    assert x + [sep] + (y + [sep] + z) == (x + [sep] + y) + [sep] + z;
  }

  /** The last fields may be joined before the others. */
  lemma {:induction false} FieldsTail(sep: char, a: seq<string>, b: seq<string>)
    requires b != []
    ensures Fields(sep, a + b) == Fields(sep, a + [Fields(sep, b)])
  {
    if a == [] {
      assert a + b == b && a + [Fields(sep, b)] == [Fields(sep, b)];
    } else {
      assert (a + b)[1..] == a[1..] + b && (a + [Fields(sep, b)])[1..] == a[1..] + [Fields(sep, b)];
      FieldsTail(sep, a[1..], b);
    }
  }

  lemma TailInjective(s: string, c: string, m: int, t: string, d: string, n: int)
    requires '\n' !in t && '\n' !in d && Tail(s, c, m) == Tail(t, d, n)
    ensures s == t && c == d && m == n
  {
    NumeralIsPlain(m);
    NumeralIsPlain(n);
    SplitsLast('\n', s + "\n" + c, Numeral(m), t + "\n" + d, Numeral(n));
    NumeralInjective(m, n);
    OneBreak('\n', s, c, t, d);
  }

  /** A text with one separator splits in only one way. */
  lemma OneBreak(sep: char, a: string, b: string, c: string, d: string)
    requires sep !in c && sep !in d && a + [sep] + b == c + [sep] + d
    ensures a == c && b == d
  {
    var t := c + [sep] + d;
    assert (a + [sep] + b)[|a|] == sep == t[|a|];
    assert t[|c|] == sep && forall i | 0 <= i < |t| && t[i] == sep :: i == |c|;
    assert a == (a + [sep] + b)[..|a|] == t[..|c|] == c;
    assert b == (a + [sep] + b)[|a| + 1..] == t[|c| + 1..] == d;
  }
}
