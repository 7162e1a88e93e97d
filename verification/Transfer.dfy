/** Resumable download into a file that appears only when complete
    (internal/mcp/transfer_core.go). */
module Transfer {
  import opened Text

  /** One round of the copy loop: whether the context was cancelled, how much the read returned and
      the write took, whether the write failed, and how the read ended. The list of rounds ends where
      the process dies. */
  datatype Round = Round(cancelled: bool, read: nat, written: nat, writeFails: bool, eof: bool, readFails: bool)

  /** One download attempt. */
  datatype Call = Call(srcSize: nat, resume: bool, expected: string, seeks: bool, opens: bool, rounds: seq<Round>,
                       closes: bool, hashes: bool, renames: bool)

  /** The partial file and the destination. */
  datatype Files = Files(part: Option<Bytes>, dst: Option<Bytes>)

  datatype Result = Result(copied: nat, total: nat, resumedFrom: nat, sum: string)

  function Min(a: nat, b: nat): nat {
    if a <= b then a else b
  }

  /** What a read at `pos` returns of the source. */
  function Chunk(src: Bytes, pos: nat, r: Round): (c: Bytes)
    ensures pos + |c| <= |src| || c == []
    ensures pos <= |src| ==> c == src[pos..pos + |c|]
  {
    if pos >= |src| then [] else src[pos..pos + Min(Min(r.read, 1048576), |src| - pos)]
  }

  /** The copy loop: what it leaves in the partial file, and whether it saw the end of the source. */
  function Pump(src: Bytes, file: Bytes, pos: nat, rounds: seq<Round>): (Bytes, bool)
    decreases |rounds|
  {
    if rounds == [] || rounds[0].cancelled then (file, false)
    else
      var r, c := rounds[0], Chunk(src, pos, rounds[0]);
      var more := file + c[..Min(r.written, |c|)];
      if c != [] && (r.writeFails || r.written < |c|) then (more, false)
      else if r.eof && pos + |c| >= |src| then (more, true)
      else if r.readFails then (more, false)
      else Pump(src, more, pos + |c|, rounds[1..])
  }

  function Offset(part: Option<Bytes>, c: Call): nat {
    if c.resume && part.Some? && |part.value| <= c.srcSize then |part.value| else 0
  }

  function Wanted(c: Call): string {
    TrimSpace(ToLower(c.expected))
  }

  function Attempt(hash: Bytes -> string, src: Bytes, f: Files, c: Call): (Files, Option<Result>) {
    if !c.seeks || !c.opens then (f, None)
    else
      var offset := Offset(f.part, c);
      var (file, ended) := Pump(src, if offset > 0 then f.part.value else [], offset, c.rounds);
      var left := f.(part := Some(file));
      if !ended || !c.closes || !c.hashes || (Wanted(c) != "" && hash(file) != Wanted(c)) || !c.renames then
        (left, None)
      else
        var copied := if |file| >= offset then |file| - offset else 0;
        (Files(None, Some(file)), Some(Result(copied, c.srcSize, offset, hash(file))))
  }

  /** A partial file that is a prefix of the source. */
  predicate PartOk(src: Bytes, f: Files) {
    f.part.Some? ==> f.part.value <= src
  }

  lemma {:induction false} PumpExtends(src: Bytes, file: Bytes, pos: nat, rounds: seq<Round>)
    ensures file <= Pump(src, file, pos, rounds).0
    decreases |rounds|
  {
    if rounds != [] && !rounds[0].cancelled {
      var c := Chunk(src, pos, rounds[0]);
      PumpExtends(src, file + c[..Min(rounds[0].written, |c|)], pos + |c|, rounds[1..]);
    }
  }

  lemma {:induction false} PumpIsPrefix(src: Bytes, file: Bytes, rounds: seq<Round>)
    requires file <= src
    ensures var (out, ended) := Pump(src, file, |file|, rounds); out <= src && (ended ==> out == src)
    decreases |rounds|
  {
    if rounds != [] && !rounds[0].cancelled {
      var c := Chunk(src, |file|, rounds[0]);
      var more := file + c[..Min(rounds[0].written, |c|)];
      assert more <= src;
      if |more| == |file| + |c| { PumpIsPrefix(src, more, rounds[1..]); }
    }
  }

  /** What lies behind a position of the source. */
  function Rest(src: Bytes, pos: nat): Bytes {
    if pos <= |src| then src[pos..] else []
  }

  lemma RestSplits(src: Bytes, file: Bytes, pos: nat, r: Round)
    ensures var c := Chunk(src, pos, r);
            && file + c + Rest(src, pos + |c|) == file + Rest(src, pos)
            && (pos + |c| >= |src| ==> file + c == file + Rest(src, pos))
  {
    var c := Chunk(src, pos, r);
    assert c + Rest(src, pos + |c|) == Rest(src, pos);
  }

  /** A loop that saw the end of the source appended just what lay behind its position. */
  lemma {:induction false} PumpAppendsTheRest(src: Bytes, file: Bytes, pos: nat, rounds: seq<Round>)
    ensures var (out, ended) := Pump(src, file, pos, rounds); ended ==> out == file + Rest(src, pos)
    decreases |rounds|
  {
    if rounds != [] && !rounds[0].cancelled {
      var c := Chunk(src, pos, rounds[0]);
      RestSplits(src, file, pos, rounds[0]);
      hide Chunk, Rest;
      if rounds[0].written >= |c| {
        assert c[..Min(rounds[0].written, |c|)] == c;
        PumpAppendsTheRest(src, file + c, pos + |c|, rounds[1..]);
      }
    }
  }

  /** A failure leaves the destination as it was; with an expected hash, success installs content of
      that hash, whatever the partial file held; and no attempt shortens a partial file it resumes. */
  lemma AttemptIsAtomic(hash: Bytes -> string, src: Bytes, f: Files, c: Call)
    ensures var (g, r) := Attempt(hash, src, f, c);
            && (r.None? ==> g.dst == f.dst)
            && (r.Some? ==> g.dst.Some? && g.part.None? && r.value.sum == hash(g.dst.value)
                            && r.value.resumedFrom + r.value.copied == |g.dst.value|
                            && (TrimSpace(ToLower(c.expected)) != "" ==>
                                  hash(g.dst.value) == TrimSpace(ToLower(c.expected))))
            && (c.resume && f.part.Some? && 0 < |f.part.value| <= c.srcSize ==>
                  f.part.value <= (if r.None? then g.part.value else g.dst.value))
  {
    var offset := Offset(f.part, c);
    PumpExtends(src, if offset > 0 then f.part.value else [], offset, c.rounds);
  }

  lemma AttemptKeepsPrefix(hash: Bytes -> string, src: Bytes, f: Files, c: Call)
    requires PartOk(src, f)
    ensures var (g, r) := Attempt(hash, src, f, c); PartOk(src, g) && (r.Some? ==> g.dst == Some(src))
  {
    var offset := Offset(f.part, c);
    PumpIsPrefix(src, if offset > 0 then f.part.value else [], c.rounds);
  }

  function Attempts(hash: Bytes -> string, src: Bytes, f: Files, calls: seq<Call>): Files
    decreases |calls|
  {
    if calls == [] then f else Attempts(hash, src, Attempt(hash, src, f, calls[0]).0, calls[1..])
  }

  /** Over any number of attempts on an unchanged source, each interrupted anywhere, the partial file
      stays a prefix of the source, and the destination is what it was or exactly the source. */
  lemma {:induction false} ResumeIsSafe(hash: Bytes -> string, src: Bytes, f: Files, calls: seq<Call>)
    requires PartOk(src, f)
    ensures var g := Attempts(hash, src, f, calls); PartOk(src, g) && (g.dst == f.dst || g.dst == Some(src))
    decreases |calls|
  {
    if calls != [] {
      AttemptKeepsPrefix(hash, src, f, calls[0]);
      AttemptIsAtomic(hash, src, f, calls[0]);
      ResumeIsSafe(hash, src, Attempt(hash, src, f, calls[0]).0, calls[1..]);
    }
  }

  /** Starting from anything else, a resumed download without an expected hash may install content
      that is not the source: a stale partial file of the same length is taken as it is. */
  lemma StalePartIsInstalled(hash: Bytes -> string, src: Bytes, stale: Bytes)
    requires |stale| == |src| > 0
    ensures var c := Call(|src|, true, "", true, true, [Round(false, 0, 0, false, true, false)], true, true, true);
            Attempt(hash, src, Files(Some(stale), None), c).0.dst == Some(stale)
  {
    var c := Call(|src|, true, "", true, true, [Round(false, 0, 0, false, true, false)], true, true, true);
    assert Chunk(src, |src|, c.rounds[0]) == [];
    assert Pump(src, stale, |src|, c.rounds) == (stale + [], true);
    assert stale + [] == stale;
    assert TrimSpace(ToLower("")) == "";
  }

  /** Exactly when a successful attempt installs the source, hash or no hash: it started afresh, or the
      partial file it resumed was a prefix of the source. */
  lemma InstallsSourceIff(hash: Bytes -> string, src: Bytes, f: Files, c: Call)
    requires Attempt(hash, src, f, c).1.Some?
    ensures Attempt(hash, src, f, c).0.dst == Some(src) <==> Offset(f.part, c) == 0 || f.part.value <= src
  {
    hide Wanted, Pump;
    var offset := Offset(f.part, c);
    var file := if offset > 0 then f.part.value else [];
    PumpAppendsTheRest(src, file, offset, c.rounds);
    PrefixAndRest(file, src);
  }

  lemma PrefixAndRest(file: Bytes, src: Bytes)
    ensures file + (if |file| <= |src| then src[|file|..] else []) == src <==> file <= src
  {
    if |file| <= |src| {
      var out := file + src[|file|..];
      assert out[..|file|] == file && out[|file|..] == src[|file|..];
      assert src == src[..|file|] + src[|file|..];
    }
  }

  class Download {
    const hash: Bytes -> string
    var part: Option<Bytes>
    var dst: Option<Bytes>

    function Value(): Files
      reads this
    {
      Files(part, dst)
    }

    constructor (hash: Bytes -> string, f: Files)
      ensures this.hash == hash && Value() == f
    {
      this.hash, part, dst := hash, f.part, f.dst;
    }

    /** The loop: appends chunks to the partial file until the source ends or something fails. */
    method CopyRounds(src: Bytes, offset: nat, rounds: seq<Round>) returns (ended: bool, copied: nat)
      requires part.Some?
      modifies this`part
      ensures part.Some? && (part.value, ended) == Pump(src, old(part.value), offset, rounds)
      ensures ended ==> |part.value| == |old(part.value)| + copied
    {
      copied := 0;
      var pos: nat, i := offset, 0;
      while i < |rounds|
        invariant i <= |rounds| && part.Some? && |part.value| == |old(part.value)| + copied
        invariant Pump(src, old(part.value), offset, rounds) == Pump(src, part.value, pos, rounds[i..])
      {
        var r := rounds[i];
        if r.cancelled {
          return false, copied;
        }
        var buf := Chunk(src, pos, r);
        assert rounds[i..][1..] == rounds[i + 1..];
        pos := pos + |buf|;
        var written := Min(r.written, |buf|);
        part := Some(part.value + buf[..written]);
        copied := copied + written;
        if |buf| > 0 && (r.writeFails || written != |buf|) {
          return false, copied;
        }
        if r.eof && pos >= |src| {
          return true, copied;
        }
        if r.readFails {
          return false, copied;
        }
        i := i + 1;
      }
      ended := false;
    }

    method Copy(src: Bytes, c: Call) returns (r: Option<Result>)
      modifies this
      ensures (Value(), r) == Attempt(hash, src, old(Value()), c)
    {
      var offset := 0;
      if c.resume && part.Some? {
        offset := |part.value|;
        if offset > c.srcSize {
          offset := 0;
        }
      }
      if !c.seeks || !c.opens {
        return None;
      }
      if offset == 0 {
        part := Some([]);
      }
      var ended, copied := CopyRounds(src, offset, c.rounds);
      if !ended || !c.closes || !c.hashes {
        return None;
      }
      var sum := hash(part.value);
      var want := TrimSpace(ToLower(c.expected));
      if want != "" && sum != want {
        return None;
      }
      if !c.renames {
        return None;
      }
      dst := part;
      part := None;
      r := Some(Result(copied, c.srcSize, offset, sum));
    }
  }
}
