/** Remote jobs on the device: what a job signature covers, and the private journal that is written
    before a job is claimed or executed (internal/cloudsync/jobs.go). */
module Agent {
  import opened Text
  import opened Wire
  import opened Base64

  datatype Job = Job(id: string, device: string, action: string, version: string, expires: int, signature: string,
                     running: bool)

  function Message(user: string, j: Job): string {
    Fields('\n', ["sshm-job-v1", user, j.id, j.device, j.action, j.version, Numeral(j.expires)])
  }

  /** The signed-in account of one call: user name, device id and vault root. */
  datatype Identity = Identity(user: string, device: string, root: string)

  /** What the device computes with: the signature that given bytes are, and the digest that names a
      job's record in the journal. Nothing is assumed of either unless a statement says so. */
  datatype Kit = Kit(read: Bytes -> Signature, key: (string, string, string) -> string)

  /** A job lists its signature as text. */
  function SignatureOf(kit: Kit, text: string): Option<Signature> {
    if Decode(text).None? then None else Some(kit.read(Decode(text).value))
  }

  /** What `VerifyJob` checks besides the clock; the signature is decoded first. */
  predicate Genuine(kit: Kit, me: Identity, j: Job) {
    && ValidId(j.id) && j.device == me.device && ValidId(me.device)
    && (((j.action == "sync" || j.action == "inspect") && j.version == "")
        || (j.action == "update" && ValidVersion(j.version)))
    && SignatureOf(kit, j.signature).Some? && Verify(me.root, SignatureOf(kit, j.signature).value, Message(me.user, j))
  }

  /** `VerifyJob`, which reads the clock twice. */
  predicate Verified(kit: Kit, me: Identity, j: Job, now: nat, later: nat) {
    Genuine(kit, me, j) && now < j.expires <= later + DayMs
  }

  lemma NoNewline(user: string, j: Job)
    requires '\n' !in user && ValidId(j.id) && ValidId(j.device) && j.action in {"sync", "inspect", "update"}
    requires j.version == "" || ValidVersion(j.version)
    ensures Free('\n', ["sshm-job-v1", user, j.id, j.device, j.action, j.version])
  {}

  /** One signature stands for one job: two genuine jobs with the same signature agree in all that is
      signed, expiry included; only its spelling may differ. */
  lemma SignatureFixesJob(kit: Kit, me: Identity, i: Job, j: Job)
    requires '\n' !in me.user && Genuine(kit, me, i) && Genuine(kit, me, j)
    requires SignatureOf(kit, i.signature) == SignatureOf(kit, j.signature)
    ensures i == j.(running := i.running, signature := i.signature)
  {
    NoNewline(me.user, i);
    NoNewline(me.user, j);
    var a := ["sshm-job-v1", me.user, i.id, i.device, i.action, i.version, Numeral(i.expires)];
    var b := ["sshm-job-v1", me.user, j.id, j.device, j.action, j.version, Numeral(j.expires)];
    assert a[..6] == ["sshm-job-v1", me.user, i.id, i.device, i.action, i.version];
    assert b[..6] == ["sshm-job-v1", me.user, j.id, j.device, j.action, j.version];
    FieldsInjective('\n', a, b);
    assert a[2] == b[2] && a[3] == b[3] && a[4] == b[4] && a[5] == b[5] && a[6] == b[6];
    NumeralInjective(i.expires, j.expires);
  }

  // --- the journal ---

  datatype Result = Result(status: string, code: string, count: int)

  function ResultMessage(user: string, j: Job, r: Result): string {
    Fields('\n', ["sshm-job-result-v1", user, j.id, j.device, r.status, r.code, Numeral(r.count)])
  }

  const Interrupted := Result("failed", "interrupted", 0)

  datatype Record = Record(claim: string, result: Result, receipt: Option<Signature>, expires: int)

  type Journal = map<string, Record>

  function Prune(m: Journal, now: nat): Journal {
    map k | k in m && m[k].expires >= now - 7 * DayMs :: m[k]
  }

  /** A call of `execute`. */
  datatype Execution = Execution(me: Identity, job: Job, claim: string)

  /** What happens around one job of a list. Each flag that is false ends the call there: a request
      that failed or was refused, a file that could not be written, or a crash, which leaves on disk
      just what an error return at the same place leaves. */
  datatype Turn = Turn(now: nat, later: nat, claim: string, journalled: bool, claimed: bool, survived: bool,
                       result: Result, recorded: bool, reported: bool)

  /** The journal file, the copy in memory, and the executions so far. */
  datatype Work = Work(file: Journal, mem: Journal, executed: seq<Execution>)

  /** One round of the loop over the polled jobs; the flag says whether the loop goes on. */
  function Handle(kit: Kit, me: Identity, w: Work, j: Job, t: Turn): (Work, bool) {
    if !Verified(kit, me, j, t.now, t.later) then (w, true)
    else
      var k := kit.key(me.user, me.device, j.signature);
      var known := k in w.mem;
      var record := if known then w.mem[k] else Record(t.claim, Interrupted, None, j.expires);
      var mem := w.mem[k := record];
      if !known && !t.journalled then (w.(mem := mem), false)
      else
        var journalled := if known then w else w.(mem := mem, file := mem);
        if j.running && !known then (journalled, true)
        else if !t.claimed then (journalled, false)
        else
          var ran := if known then journalled
                     else journalled.(executed := w.executed + [Execution(me, j, record.claim)]);
          if !t.survived then (ran, false)
          else
            var result := if known then record.result else t.result;
            var signed := record.(result := result,
                                  receipt := Some(Signed(me.root, ResultMessage(me.user, j, result))));
            var finished := w.mem[k := signed];
            if !t.recorded then (ran.(mem := finished), false)
            else (ran.(mem := finished, file := finished), t.reported)
  }

  /** The record of a job once it is reported: the result that was recorded for it, or else the one that its
      execution returned, with a receipt for that very result. */
  function Reported(me: Identity, j: Job, r: Record, result: Result): Record {
    Record(r.claim, result, Some(Signed(me.root, ResultMessage(me.user, j, result))), r.expires)
  }

  /** A job is looked at only if it is genuine, has not expired and expires within a day. */
  predicate Acceptable(kit: Kit, me: Identity, j: Job, t: Turn) {
    Genuine(kit, me, j) && t.now < j.expires && j.expires - t.later <= 86400000
  }

  /** What one round may leave in the file: what was there, a record without a result, or the reported one. */
  ghost predicate RoundOutcome(kit: Kit, me: Identity, w: Work, j: Job, t: Turn, n: Work) {
    var k := kit.key(me.user, me.device, j.signature);
    if k in w.mem then
      n.executed == w.executed && (n.file == w.file || n.file == w.mem[k := Reported(me, j, w.mem[k], w.mem[k].result)])
    else if n.executed == w.executed then
      n.file == w.file || n.file == w.mem[k := Record(t.claim, Result("failed", "interrupted", 0), None, j.expires)]
    else
      && n.executed == w.executed + [Execution(me, j, t.claim)]
      && (var started := Record(t.claim, Result("failed", "interrupted", 0), None, j.expires);
          n.file == w.mem[k := started] || n.file == w.mem[k := Reported(me, j, started, t.result)])
  }

  /** A round executes exactly an acceptable job that is unknown and waits, once it is journalled and claimed; of a job
      that is not acceptable it takes no notice. Results are recorded as they were returned, signed as they
      were recorded, and never change. */
  lemma RoundIs(kit: Kit, me: Identity, w: Work, j: Job, t: Turn)
    ensures RoundOutcome(kit, me, w, j, t, Handle(kit, me, w, j, t).0)
    ensures !Acceptable(kit, me, j, t) ==> Handle(kit, me, w, j, t) == (w, true)
    ensures Handle(kit, me, w, j, t).0.executed != w.executed <==>
              && Acceptable(kit, me, j, t) && kit.key(me.user, me.device, j.signature) !in w.mem && !j.running
              && t.journalled && t.claimed
    ensures Handle(kit, me, w, j, t).1 && Acceptable(kit, me, j, t)
            && (j.running ==> kit.key(me.user, me.device, j.signature) in w.mem) ==>
              var k := kit.key(me.user, me.device, j.signature);
              var n := Handle(kit, me, w, j, t).0;
              && k in n.file && n.file[k].receipt == Some(Signed(me.root, ResultMessage(me.user, j, n.file[k].result)))
              && n.file[k].result == (if k in w.mem then w.mem[k].result else t.result)
  {
    hide Genuine;
  }

  function HandleAll(kit: Kit, me: Identity, w: Work, jobs: seq<Job>, turns: seq<Turn>): Work
    requires |turns| == |jobs|
    decreases |jobs|
  {
    if jobs == [] then w
    else
      var (next, goes) := Handle(kit, me, w, jobs[0], turns[0]);
      if goes then HandleAll(kit, me, next, jobs[1..], turns[1..]) else next
  }

  /** One call of `ProcessJobs`: who is signed in, what the poll answered (anything), whether the
      journal could be read, and when the clock was read to prune it. */
  datatype Call = Call(me: Identity, jobs: seq<Job>, readable: bool, at: nat, turns: seq<Turn>)

  /** The device between calls: the file, the executions, and the latest time of pruning. */
  datatype Device = Device(file: Journal, executed: seq<Execution>, clock: nat)

  /** The clock does not go back. */
  predicate Timely(d: Device, c: Call) {
    |c.turns| == |c.jobs| && d.clock <= c.at && '\n' !in c.me.user && forall t | t in c.turns :: c.at <= t.now
  }

  function Process(kit: Kit, d: Device, c: Call): Device
    requires |c.turns| == |c.jobs|
  {
    if |c.jobs| > 4 || c.jobs == [] || !c.readable then d.(clock := c.at)
    else
      var w := HandleAll(kit, c.me, Work(d.file, Prune(d.file, c.at), d.executed), c.jobs, c.turns);
      Device(w.file, w.executed, c.at)
  }

  // --- every job is executed at most once ---

  predicate Same(x: Execution, y: Execution) {
    x.me.user == y.me.user && x.me.device == y.me.device && x.job.signature == y.job.signature
  }

  predicate NoneTwice(executed: seq<Execution>) {
    forall i, j | 0 <= i < j < |executed| :: !Same(executed[i], executed[j])
  }

  /** A past execution is remembered in the journal `m`, or its job had expired a week before `at`. */
  predicate Remembered(kit: Kit, m: Journal, at: nat, x: Execution) {
    && '\n' !in x.me.user && Genuine(kit, x.me, x.job)
    && (var k := kit.key(x.me.user, x.me.device, x.job.signature);
        (k in m && m[k].expires == x.job.expires) || x.job.expires < at - 7 * DayMs)
  }

  predicate Safe(kit: Kit, m: Journal, at: nat, executed: seq<Execution>) {
    NoneTwice(executed) && forall x | x in executed :: Remembered(kit, m, at, x)
  }

  lemma FreshJob(kit: Kit, me: Identity, m: Journal, at: nat, j: Job, now: nat, later: nat, x: Execution)
    requires Remembered(kit, m, at, x) && '\n' !in me.user && Verified(kit, me, j, now, later) && at <= now
    requires kit.key(me.user, me.device, j.signature) !in m
    ensures !Same(x, Execution(me, j, ""))
  {
    if Same(x, Execution(me, j, "")) {
      assert x.me == me;
      SignatureFixesJob(kit, me, x.job, j);
    }
  }

  lemma NoneTwiceMore(executed: seq<Execution>, y: Execution)
    requires NoneTwice(executed) && forall x | x in executed :: !Same(x, y)
    ensures NoneTwice(executed + [y])
  {}

  lemma HandleKeeps(kit: Kit, me: Identity, w: Work, j: Job, t: Turn, at: nat)
    requires Safe(kit, w.mem, at, w.executed) && Safe(kit, w.file, at, w.executed) && '\n' !in me.user && at <= t.now
    ensures var n := Handle(kit, me, w, j, t).0; Safe(kit, n.mem, at, n.executed) && Safe(kit, n.file, at, n.executed)
  {
    if Verified(kit, me, j, t.now, t.later) {
      var k := kit.key(me.user, me.device, j.signature);
      if k !in w.mem {
        forall x | x in w.executed ensures !Same(x, Execution(me, j, t.claim)) {
          FreshJob(kit, me, w.mem, at, j, t.now, t.later, x);
        }
        NoneTwiceMore(w.executed, Execution(me, j, t.claim));
        var next := w.mem[k := Record(t.claim, Interrupted, None, j.expires)];
        forall x | x in w.executed ensures Remembered(kit, next, at, x) {
          RememberedKey(kit, w.mem, at, x, k);
        }
      }
    }
  }

  lemma RememberedKey(kit: Kit, m: Journal, at: nat, x: Execution, k: string)
    requires Remembered(kit, m, at, x) && k !in m
    ensures kit.key(x.me.user, x.me.device, x.job.signature) == k ==> x.job.expires < at - 7 * DayMs
  {}

  lemma {:induction false} HandleAllKeeps(kit: Kit, me: Identity, w: Work, jobs: seq<Job>, turns: seq<Turn>, at: nat)
    requires Safe(kit, w.mem, at, w.executed) && Safe(kit, w.file, at, w.executed) && '\n' !in me.user
    requires |turns| == |jobs| && forall t | t in turns :: at <= t.now
    ensures var n := HandleAll(kit, me, w, jobs, turns); Safe(kit, n.file, at, n.executed)
    decreases |jobs|
  {
    if jobs != [] {
      HandleKeeps(kit, me, w, jobs[0], turns[0], at);
      var (next, goes) := Handle(kit, me, w, jobs[0], turns[0]);
      if goes { HandleAllKeeps(kit, me, next, jobs[1..], turns[1..], at); }
    }
  }

  /** Whatever is polled, and wherever the call ends, no job is executed a second time. */
  lemma ProcessKeeps(kit: Kit, d: Device, c: Call)
    requires Safe(kit, d.file, d.clock, d.executed) && Timely(d, c)
    ensures var n := Process(kit, d, c); Safe(kit, n.file, n.clock, n.executed) && d.executed <= n.executed
  {
    forall x | x in d.executed
      ensures Remembered(kit, d.file, c.at, x) && Remembered(kit, Prune(d.file, c.at), c.at, x)
    {
      assert Remembered(kit, d.file, d.clock, x);
    }
    HandleAllKeeps(kit, c.me, Work(d.file, Prune(d.file, c.at), d.executed), c.jobs, c.turns, c.at);
    HandleAllGrows(kit, c.me, Work(d.file, Prune(d.file, c.at), d.executed), c.jobs, c.turns);
  }

  lemma {:induction false} HandleAllGrows(kit: Kit, me: Identity, w: Work, jobs: seq<Job>, turns: seq<Turn>)
    requires |turns| == |jobs|
    ensures w.executed <= HandleAll(kit, me, w, jobs, turns).executed
    decreases |jobs|
  {
    if jobs != [] {
      var (next, goes) := Handle(kit, me, w, jobs[0], turns[0]);
      if goes { HandleAllGrows(kit, me, next, jobs[1..], turns[1..]); }
    }
  }

  function Empty(): Device {
    Device(map[], [], 0)
  }

  ghost predicate Run(kit: Kit, states: seq<Device>, calls: seq<Call>) {
    && |states| == |calls| + 1 && states[0] == Empty()
    && forall i | 0 <= i < |calls| :: Timely(states[i], calls[i]) && states[i + 1] == Process(kit, states[i], calls[i])
  }

  lemma {:induction false} RunIsSafe(kit: Kit, states: seq<Device>, calls: seq<Call>, n: nat)
    requires Run(kit, states, calls) && n < |states|
    ensures Safe(kit, states[n].file, states[n].clock, states[n].executed)
  {
    if n > 0 {
      RunIsSafe(kit, states, calls, n - 1);
      ProcessKeeps(kit, states[n - 1], calls[n - 1]);
    }
  }

  /** Over every run of polls, lost replies and crashes at any point, with a clock that does not go
      back and any server, each text of a signed job is executed at most once on its device: also when
      its record has been pruned from the journal, or the server lists it again. */
  lemma ExecutedAtMostOnce(kit: Kit, states: seq<Device>, calls: seq<Call>, n: nat, i: nat, j: nat)
    requires Run(kit, states, calls) && n < |states| && i < j < |states[n].executed|
    ensures !Same(states[n].executed[i], states[n].executed[j])
  {
    RunIsSafe(kit, states, calls, n);
  }

  // --- one job under two spellings ---

  /** Executions of one signed job, however its signature was spelled. */
  predicate SameJob(kit: Kit, x: Execution, y: Execution) {
    x.me.user == y.me.user && x.me.device == y.me.device
    && SignatureOf(kit, x.job.signature) == SignatureOf(kit, y.job.signature)
  }

  predicate SignedOnce(kit: Kit, executed: seq<Execution>) {
    forall i, j | 0 <= i < j < |executed| :: !SameJob(kit, executed[i], executed[j])
  }

  /** Every listed job is spelled in a way that `p` allows. */
  predicate Spelled(p: string -> bool, calls: seq<Call>) {
    forall c | c in calls :: forall j | j in c.jobs :: p(j.signature)
  }

  /** Two allowed listings of one signed job that has not always been expired. */
  predicate OneJob(kit: Kit, p: string -> bool, me: Identity, i: Job, j: Job) {
    && '\n' !in me.user && Genuine(kit, me, i) && Genuine(kit, me, j) && 0 < i.expires
    && p(i.signature) && p(j.signature) && SignatureOf(kit, i.signature) == SignatureOf(kit, j.signature)
  }

  /** No such job has two allowed spellings. */
  ghost predicate OneSpelling(kit: Kit, p: string -> bool) {
    forall me: Identity, i: Job, j: Job | OneJob(kit, p, me, i, j) :: i.signature == j.signature
  }

  predicate Admissible(p: string -> bool, executed: seq<Execution>) {
    forall x | x in executed :: p(x.job.signature) && 0 < x.job.expires
  }

  lemma {:induction false} HandleAllAdmits(kit: Kit, p: string -> bool, me: Identity, w: Work, jobs: seq<Job>,
                                           turns: seq<Turn>)
    requires |turns| == |jobs| && (forall j | j in jobs :: p(j.signature)) && Admissible(p, w.executed)
    ensures Admissible(p, HandleAll(kit, me, w, jobs, turns).executed)
    decreases |jobs|
  {
    if jobs != [] {
      var (next, goes) := Handle(kit, me, w, jobs[0], turns[0]);
      if goes { HandleAllAdmits(kit, p, me, next, jobs[1..], turns[1..]); }
    }
  }

  lemma {:induction false} RunAdmits(kit: Kit, p: string -> bool, states: seq<Device>, calls: seq<Call>, n: nat)
    requires Run(kit, states, calls) && Spelled(p, calls) && n < |states|
    ensures Admissible(p, states[n].executed)
  {
    if n > 0 {
      RunAdmits(kit, p, states, calls, n - 1);
      var d, c := states[n - 1], calls[n - 1];
      assert c in calls;
      HandleAllAdmits(kit, p, c.me, Work(d.file, Prune(d.file, c.at), d.executed), c.jobs, c.turns);
    }
  }

  /** If the server keeps to one spelling, the job itself is executed at most once. */
  lemma OneSpellingRunsOnce(kit: Kit, p: string -> bool, states: seq<Device>, calls: seq<Call>, n: nat)
    requires OneSpelling(kit, p) && Run(kit, states, calls) && Spelled(p, calls) && n < |states|
    ensures SignedOnce(kit, states[n].executed)
  {
    RunIsSafe(kit, states, calls, n);
    RunAdmits(kit, p, states, calls, n);
    var ex := states[n].executed;
    forall i, j | 0 <= i < j < |ex| ensures !SameJob(kit, ex[i], ex[j]) {
      assert ex[i] in ex && ex[j] in ex;
      assert Remembered(kit, states[n].file, states[n].clock, ex[i])
             && Remembered(kit, states[n].file, states[n].clock, ex[j]);
      if SameJob(kit, ex[i], ex[j]) {
        assert OneJob(kit, p, ex[i].me, ex[i].job, ex[j].job);
      }
    }
  }

  /** A call that lists one job, which is claimed and executed and then interrupted. */
  function Listing(me: Identity, j: Job): Call {
    var later := if j.expires > 0 then j.expires else 0;
    Call(me, [j], true, 0, [Turn(0, later, "", true, true, false, Interrupted, false, false)])
  }

  lemma ListingExecutes(kit: Kit, d: Device, me: Identity, j: Job)
    requires Genuine(kit, me, j) && 0 < j.expires && !j.running && d.clock == 0
    requires kit.key(me.user, me.device, j.signature) !in d.file && (forall k | k in d.file :: d.file[k].expires >= 0)
    ensures var n := Process(kit, d, Listing(me, j));
            && n.executed == d.executed + [Execution(me, j, "")] && n.clock == 0
            && n.file == d.file[kit.key(me.user, me.device, j.signature) := Record("", Interrupted, None, j.expires)]
  {
    var c := Listing(me, j);
    assert Prune(d.file, 0) == d.file;
    var w := Work(d.file, d.file, d.executed);
    assert Handle(kit, me, w, j, c.turns[0]).1 == false;
    assert HandleAll(kit, me, w, [j], c.turns) == Handle(kit, me, w, j, c.turns[0]).0;
  }

  /** Two spellings of one signed job are two jobs to the journal: a server that lists it under both
      has it executed twice. */
  lemma TwoSpellingsRunTwice(kit: Kit, me: Identity, i: Job, j: Job)
    requires '\n' !in me.user && Genuine(kit, me, i) && Genuine(kit, me, j) && 0 < i.expires && !i.running && !j.running
    requires SignatureOf(kit, i.signature) == SignatureOf(kit, j.signature)
    requires kit.key(me.user, me.device, i.signature) != kit.key(me.user, me.device, j.signature)
    ensures var calls := [Listing(me, i), Listing(me, j)];
            exists states: seq<Device> ::
              Run(kit, states, calls) && |states| == 3
              && states[2].executed == [Execution(me, i, ""), Execution(me, j, "")]
                             && !SignedOnce(kit, states[2].executed)
  {
    SignatureFixesJob(kit, me, i, j);
    var calls := [Listing(me, i), Listing(me, j)];
    ListingExecutes(kit, Empty(), me, i);
    var first := Process(kit, Empty(), calls[0]);
    ListingExecutes(kit, first, me, j);
    var states := [Empty(), first, Process(kit, first, calls[1])];
    assert Run(kit, states, calls);
    assert states[2].executed == [Execution(me, i, ""), Execution(me, j, "")];
    assert SameJob(kit, states[2].executed[0], states[2].executed[1]);
  }

  /** Digests name records: different texts have different records. */
  ghost predicate KeysDiffer(kit: Kit) {
    forall u, d, s, t :: kit.key(u, d, s) == kit.key(u, d, t) ==> s == t
  }

  ghost predicate AlwaysOnce(kit: Kit, p: string -> bool) {
    forall states: seq<Device>, calls: seq<Call> | Run(kit, states, calls) && Spelled(p, calls) ::
      SignedOnce(kit, states[|calls|].executed)
  }

  /** Exactly when a signed job is executed at most once in every run: the spellings that the server
      lists include no two of one job. */
  lemma SignedOnceIff(kit: Kit, p: string -> bool)
    requires KeysDiffer(kit)
    ensures AlwaysOnce(kit, p) <==> OneSpelling(kit, p)
  {
    hide Genuine, SignedOnce, Spelled, OneJob, Process, Timely;
    if OneSpelling(kit, p) {
      forall states: seq<Device>, calls: seq<Call> | Run(kit, states, calls) && Spelled(p, calls)
        ensures SignedOnce(kit, states[|calls|].executed)
      {
        OneSpellingRunsOnce(kit, p, states, calls, |calls|);
      }
    } else {
      var me: Identity, i: Job, j: Job :| OneJob(kit, p, me, i, j) && i.signature != j.signature;
      TwiceSpelled(kit, p, me, i, j);
    }
  }

  lemma TwiceSpelled(kit: Kit, p: string -> bool, me: Identity, i: Job, j: Job)
    requires KeysDiffer(kit) && OneJob(kit, p, me, i, j) && i.signature != j.signature
    ensures !AlwaysOnce(kit, p)
  {
    hide Run, SignedOnce;
    var a, b := i.(running := false), j.(running := false);
    assert Message(me.user, a) == Message(me.user, i) && Message(me.user, b) == Message(me.user, j);
    TwoSpellingsRunTwice(kit, me, a, b);
    var calls := [Listing(me, a), Listing(me, b)];
    assert Spelled(p, calls);
    var states: seq<Device> :| Run(kit, states, calls) && |states| > 2 && !SignedOnce(kit, states[2].executed);
    assert |calls| == 2;
  }

  /** Canonical spellings are such: with one byte string per signature, a server that lists only what
      base64 writes has every signed job executed at most once. */
  lemma CanonicalIsOneSpelling(kit: Kit)
    requires forall a, b :: kit.read(a) == kit.read(b) && kit.read(a).Signed? ==> a == b
    ensures OneSpelling(kit, (s: string) => Canonical(s))
  {}

  /** All spellings together never are: any job has another one, by a line break. So with a server that
      may list anything, a signed job can be executed twice. */
  lemma EveryJobHasTwoSpellings(kit: Kit, me: Identity, j: Job)
    requires '\n' !in me.user && Genuine(kit, me, j) && 0 < j.expires
    ensures Genuine(kit, me, j.(signature := j.signature + "\n")) && !OneSpelling(kit, (s: string) => true)
  {
    LineBreakIgnored(j.signature);
    var again := j.(signature := j.signature + "\n");
    assert Message(me.user, again) == Message(me.user, j);
    assert OneJob(kit, (s: string) => true, me, j, again);
  }

  /** A job is journalled before it is claimed, and executed only after an accepted claim. */
  lemma JournalBeforeExecution(kit: Kit, me: Identity, w: Work, j: Job, t: Turn)
    requires Handle(kit, me, w, j, t).0.executed != w.executed
    ensures t.claimed && Verified(kit, me, j, t.now, t.later)
    ensures Handle(kit, me, w, j, t).0.executed == w.executed + [Execution(me, j, t.claim)]
    ensures var k := kit.key(me.user, me.device, j.signature);
            k !in w.mem && k in Handle(kit, me, w, j, t).0.file && Handle(kit, me, w, j, t).0.file[k].claim == t.claim
  {}

  // --- the code ---

  class AgentState {
    const kit: Kit
    var file: Journal
    ghost var executed: seq<Execution>
    ghost var clock: nat

    ghost function Value(): Device
      reads this
    {
      Device(file, executed, clock)
    }

    /** Every execution is remembered, and none happened twice. */
    ghost predicate Valid()
      reads this
    {
      Safe(kit, file, clock, executed)
    }

    constructor (kit: Kit)
      ensures this.kit == kit && Value() == Empty() && Valid()
    {
      this.kit, file, executed, clock := kit, map[], [], 0;
    }

    method PruneJournal(journal: Journal, now: nat) returns (m: Journal)
      ensures m == Prune(journal, now)
    {
      m := journal;
      var left := journal.Keys;
      while left != {}
        invariant left <= journal.Keys && m.Keys <= journal.Keys
        invariant forall k | k in m :: m[k] == journal[k]
        invariant forall k | k in left :: k in m
        invariant forall k | k in journal && k !in left :: k in m <==> journal[k].expires >= now - 7 * DayMs
        decreases left
      {
        var k :| k in left;
        if journal[k].expires < now - 7 * DayMs {
          m := m - {k};
        }
        left := left - {k};
      }
    }

    method HandleJob(me: Identity, mem: Journal, j: Job, t: Turn) returns (journal: Journal, goes: bool)
      modifies this
      ensures (Work(file, journal, executed), goes) == Handle(kit, me, Work(old(file), mem, old(executed)), j, t)
      ensures RoundOutcome(kit, me, Work(old(file), mem, old(executed)), j, t, Work(file, journal, executed))
      ensures executed != old(executed) <==>
                && Acceptable(kit, me, j, t) && kit.key(me.user, me.device, j.signature) !in mem && !j.running
                && t.journalled && t.claimed
      ensures clock == old(clock)
    {
      RoundIs(kit, me, Work(file, mem, executed), j, t);
      hide RoundOutcome;
      journal := mem;
      if !Verified(kit, me, j, t.now, t.later) {
        return journal, true;
      }
      var k := kit.key(me.user, me.device, j.signature);
      var known := k in journal;
      var record;
      if known {
        record := journal[k];
      } else {
        record := Record(t.claim, Interrupted, None, j.expires);
        journal := journal[k := record];
        if !t.journalled {
          return journal, false;
        }
        file := journal;
      }
      if j.running && !known {
        return journal, true;
      }
      if !t.claimed {
        return journal, false;
      }
      if !known {
        executed := executed + [Execution(me, j, record.claim)];
        record := record.(result := t.result);
      }
      if !t.survived {
        return journal, false;
      }
      record := record.(receipt := Some(Signed(me.root, ResultMessage(me.user, j, record.result))));
      journal := journal[k := record];
      assert journal == mem[k := record];
      if !t.recorded {
        return journal, false;
      }
      file := journal;
      goes := t.reported;
    }

    /** One call, as the device makes it at any moment of its life: whatever was polled, and wherever
        the call ends, no text of a signed job has been executed twice. */
    method ProcessJobs(c: Call)
      requires Valid() && Timely(Value(), c)
      modifies this
      ensures Value() == Process(kit, old(Value()), c)
      ensures Valid() && old(executed) <= executed && NoneTwice(executed)
    {
      ProcessKeeps(kit, Value(), c);
      clock := c.at;
      if |c.jobs| > 4 || |c.jobs| == 0 || !c.readable {
        return;
      }
      var journal := PruneJournal(file, c.at);
      ghost var start := Work(file, journal, executed);
      var i := 0;
      while i < |c.jobs|
        invariant i <= |c.jobs| && clock == c.at
        invariant HandleAll(kit, c.me, start, c.jobs, c.turns) ==
                  HandleAll(kit, c.me, Work(file, journal, executed), c.jobs[i..], c.turns[i..])
      {
        var goes;
        journal, goes := HandleJob(c.me, journal, c.jobs[i], c.turns[i]);
        assert c.jobs[i..][1..] == c.jobs[i + 1..] && c.turns[i..][1..] == c.turns[i + 1..];
        if !goes {
          return;
        }
        i := i + 1;
      }
    }
  }
}
