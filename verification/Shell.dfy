/** The terminal channel: one cipher per direction with a counter as nonce
    (internal/cloudsync/shell.go). Authenticated encryption is ideal: a box opens only under the key,
    nonce and associated data it was sealed with, and nobody without the key makes one. */
module Shell {
  import opened Text
  import opened Wire

  type Payload = Bytes

  datatype Ciphertext = Boxed(key: string, nonce: Bytes, aad: string, plain: Payload) | Garbage(length: nat)

  datatype Frame = Frame(kind: string, session: string, seqno: nat, ciphertext: Ciphertext)

  /** The length of a ciphertext as text: unpadded base64 of the payload and a 16-byte tag. */
  function Length(c: Ciphertext): nat {
    match c
    case Boxed(_, _, _, plain) => (4 * (|plain| + 16) + 2) / 3
    case Garbage(length) => length
  }

  // --- keys, nonces and associated data ---

  /** The label the key of a direction is derived from. */
  function KeyLabel(user: string, device: string, epoch: string, session: string, direction: string): string {
    Fields('/', ["shell", user, device, epoch, session + "/" + direction])
  }

  /** Each direction of each session has a key of its own, whatever characters the session id has. */
  lemma KeysAreDistinct(user: string, device: string, epoch: string, session: string, direction: string,
                        user': string, device': string, epoch': string, session': string, direction': string)
    requires '/' !in user + device + epoch && '/' !in user' + device' + epoch'
    requires direction in {"c2a", "a2c"} && direction' in {"c2a", "a2c"}
    requires KeyLabel(user, device, epoch, session, direction) == KeyLabel(user', device', epoch', session', direction')
    ensures user == user' && device == device' && epoch == epoch' && session == session' && direction == direction'
  {
    var a := ["shell", user, device, epoch, session + "/" + direction];
    var b := ["shell", user', device', epoch', session' + "/" + direction'];
    assert a[..4] == ["shell", user, device, epoch] && b[..4] == ["shell", user', device', epoch'];
    FieldsInjective('/', a, b);
    assert a[1] == b[1] && a[2] == b[2] && a[3] == b[3] && a[4] == b[4];
    SplitsLast('/', session, direction, session', direction');
  }

  /** The low `width` bytes of `n`, most significant first. */
  function BigEndian(n: nat, width: nat): Bytes {
    if width == 0 then [] else BigEndian(n / 256, width - 1) + [(n % 256) as Byte]
  }

  function Power(b: nat, e: nat): nat {
    if e == 0 then 1 else b * Power(b, e - 1)
  }

  lemma {:induction false} BigEndianInjective(m: nat, n: nat, width: nat)
    requires m < Power(256, width) && n < Power(256, width) && BigEndian(m, width) == BigEndian(n, width)
    ensures m == n
  {
    if width > 0 {
      var s := BigEndian(m, width);
      assert s[..|s| - 1] == BigEndian(m / 256, width - 1) == BigEndian(n / 256, width - 1);
      assert s[|s| - 1] == (m % 256) as Byte == (n % 256) as Byte;
      BigEndianInjective(m / 256, n / 256, width - 1);
    }
  }

  const Limit: nat := 0x1_0000_0000

  /** Twelve bytes: four zeros and the counter. */
  function Nonce(n: nat): Bytes {
    [0, 0, 0, 0] + BigEndian(n, 8)
  }

  lemma NoncesAreDistinct(m: nat, n: nat)
    requires m < Limit && n < Limit && Nonce(m) == Nonce(n)
    ensures m == n
  {
    assert Nonce(m)[4..] == BigEndian(m, 8) && Nonce(n)[4..] == BigEndian(n, 8);
    assert Power(256, 4) == Limit;
    PowerGrows(256, 4, 8);
    BigEndianInjective(m, n, 8);
  }

  lemma {:induction false} PowerGrows(b: nat, d: nat, e: nat)
    requires b > 0 && d <= e
    ensures 1 <= Power(b, d) <= Power(b, e)
  {
    if d < e {
      PowerGrows(b, d, e - 1);
    } else if d > 0 {
      PowerGrows(b, d - 1, d - 1);
    }
  }

  function Aad(session: string, direction: string, n: nat): string {
    "sshm-shell-frame-v1\n" + session + "\n" + direction + "\n" + Numeral(n)
  }

  /** The associated data name session, direction and counter, whatever characters the session id has. */
  lemma AadFixesFrame(session: string, direction: string, n: nat, session': string, direction': string, n': nat)
    requires direction in {"c2a", "a2c"} && direction' in {"c2a", "a2c"}
    requires Aad(session, direction, n) == Aad(session', direction', n')
    ensures session == session' && direction == direction' && n == n'
  {
    var first := "sshm-shell-frame-v1\n";
    NumeralIsPlain(n);
    NumeralIsPlain(n');
    assert Aad(session, direction, n) == (first + session + "\n" + direction) + "\n" + Numeral(n);
    assert Aad(session', direction', n') == (first + session' + "\n" + direction') + "\n" + Numeral(n');
    SplitsLast('\n', first + session + "\n" + direction, Numeral(n), first + session' + "\n" + direction', Numeral(n'));
    SplitsLast('\n', first + session, direction, first + session', direction');
    assert (first + session)[|first|..] == session && (first + session')[|first|..] == session';
    NumeralInjective(n, n');
  }

  // --- sealing and opening ---

  datatype Cipher = Cipher(key: string, session: string, direction: string, count: nat)

  function Box(c: Cipher, p: Payload): Ciphertext {
    Boxed(c.key, Nonce(c.count), Aad(c.session, c.direction, c.count), p)
  }

  function Seal(c: Cipher, p: Payload): Option<(Cipher, Frame)> {
    if c.count >= Limit || |p| > 32768 then None
    else Some((c.(count := c.count + 1), Frame("frame", c.session, c.count, Box(c, p))))
  }

  function Open(c: Cipher, f: Frame): Option<(Cipher, Payload)> {
    if f.kind != "frame" || f.session != c.session || f.seqno != c.count || f.seqno >= Limit
      || Length(f.ciphertext) > 60000 then None
    else if f.ciphertext.Garbage? || f.ciphertext != Box(c, f.ciphertext.plain) || |f.ciphertext.plain| > 32768 then
      None
    else Some((c.(count := c.count + 1), f.ciphertext.plain))
  }

  /** `f` is the frame that sealing `p` gives. */
  ghost predicate IsNext(c: Cipher, p: Payload, f: Frame) {
    Seal(c, p).Some? && Seal(c, p).value.1 == f
  }

  /** What is sealed opens, at the other end, to the same payload, and both counters stay together. */
  lemma OpenSealed(c: Cipher, p: Payload)
    requires Seal(c, p).Some?
    ensures Open(c, Seal(c, p).value.1) == Some((Seal(c, p).value.0, p))
  {}

  // --- a channel over a hostile network ---

  /** Both ends of one direction, with all that was sealed and all that was accepted. */
  datatype Channel = Channel(sender: Cipher, receiver: Cipher, sealed: seq<Payload>, accepted: seq<Payload>)

  datatype Event = Send(p: Payload) | Deliver(f: Frame)

  function Start(key: string, session: string, direction: string): Channel {
    var c := Cipher(key, session, direction, 0);
    Channel(c, c, [], [])
  }

  /** The box of the n-th payload. */
  function SentBox(ch: Channel, n: nat): Ciphertext
    requires n < |ch.sealed|
  {
    Box(ch.sender.(count := n), ch.sealed[n])
  }

  /** The network may drop, repeat, reorder and invent frames, and put any header on any ciphertext;
      but a ciphertext under this key is one that the sender sealed. */
  ghost predicate Deliverable(ch: Channel, f: Frame) {
    f.ciphertext.Boxed? && f.ciphertext.key == ch.sender.key ==> exists n ::
      0 <= n < |ch.sealed| && f.ciphertext == SentBox(ch, n)
  }

  function Step(ch: Channel, e: Event): Channel {
    match e
    case Send(p) =>
      var r := Seal(ch.sender, p);
      if r.None? then ch else ch.(sender := r.value.0, sealed := ch.sealed + [p])
    case Deliver(f) =>
      var r := Open(ch.receiver, f);
      if r.None? then ch else ch.(receiver := r.value.0, accepted := ch.accepted + [r.value.1])
  }

  ghost predicate Run(states: seq<Channel>, events: seq<Event>) {
    && |states| == |events| + 1 && (exists k, s, d :: states[0] == Start(k, s, d))
    && forall i | 0 <= i < |events| ::
         (events[i].Deliver? ==> Deliverable(states[i], events[i].f)) && states[i + 1] == Step(states[i], events[i])
  }

  ghost predicate InStep(ch: Channel) {
    && ch.receiver.(count := 0) == ch.sender.(count := 0)
    && ch.sender.count == |ch.sealed| <= Limit && ch.receiver.count == |ch.accepted|
    && ch.accepted <= ch.sealed && forall p | p in ch.sealed :: |p| <= 32768
  }

  lemma DeliverKeeps(ch: Channel, f: Frame)
    requires InStep(ch) && Deliverable(ch, f)
    ensures InStep(Step(ch, Deliver(f)))
  {
    hide Length, Aad, BigEndian;
    if Open(ch.receiver, f).Some? {
      var n :| 0 <= n < |ch.sealed| && f.ciphertext == SentBox(ch, n);
      NoncesAreDistinct(n, ch.receiver.count);
    }
  }

  lemma {:induction false} RunInStep(states: seq<Channel>, events: seq<Event>, i: nat)
    requires Run(states, events) && i < |states|
    ensures InStep(states[i])
  {
    if i > 0 {
      RunInStep(states, events, i - 1);
      if events[i - 1].Deliver? { DeliverKeeps(states[i - 1], events[i - 1].f); }
    }
  }

  /** Under any network the accepted payloads are a prefix of those sealed by the peer. */
  lemma AcceptedIsPrefix(states: seq<Channel>, events: seq<Event>, i: nat)
    requires Run(states, events) && i < |states|
    ensures states[i].accepted <= states[i].sealed
  {
    RunInStep(states, events, i);
  }

  /** No two payloads of a direction are ever sealed under the same nonce. */
  lemma NoncesNeverRepeat(states: seq<Channel>, events: seq<Event>, i: nat, m: nat, n: nat)
    requires Run(states, events) && i < |states| && m < n < |states[i].sealed|
    ensures SentBox(states[i], m).nonce != SentBox(states[i], n).nonce
  {
    RunInStep(states, events, i);
    if Nonce(m) == Nonce(n) { NoncesAreDistinct(m, n); }
  }

  /** The channel is also not deaf: the next frame, delivered as sealed, is accepted. */
  lemma NextFrameIsAccepted(states: seq<Channel>, events: seq<Event>, i: nat)
    requires Run(states, events) && i < |states| && |states[i].accepted| < |states[i].sealed|
    ensures var n := |states[i].accepted|;
            var f := Frame("frame", states[i].sender.session, n, SentBox(states[i], n));
            && Deliverable(states[i], f)
            && Step(states[i], Deliver(f)).accepted == states[i].sealed[..n + 1]
  {
    RunInStep(states, events, i);
  }

  // --- the code ---

  class ShellCipher {
    const key: string
    const session: string
    const direction: string
    var count: nat

    function Value(): Cipher
      reads this
    {
      Cipher(key, session, direction, count)
    }

    constructor (user: string, device: string, epoch: string, session: string, direction: string)
      ensures Value() == Cipher(KeyLabel(user, device, epoch, session, direction), session, direction, 0)
    {
      key := KeyLabel(user, device, epoch, session, direction);
      this.session, this.direction, count := session, direction, 0;
    }

    /** A frame is made exactly for a short payload below the limit; a peer at the same count opens it to that
        payload and keeps in step; and its nonce was not used before. */
    method SealPayload(p: Payload) returns (r: Option<Frame>)
      modifies this
      ensures r.Some? <==> old(count) < Limit && |p| <= 32768
      ensures if r.Some? then Open(old(Value()), r.value) == Some((Value(), p)) else Value() == old(Value())
      ensures r.Some? ==> r.value.ciphertext.Boxed? && forall n: nat | n < old(count) ::
                r.value.ciphertext.nonce != Nonce(n)
    {
      if count >= Limit {
        return None;
      }
      if |p| > 32768 {
        return None;
      }
      r := Some(Frame("frame", session, count, Boxed(key, Nonce(count), Aad(session, direction, count), p)));
      forall n: nat | n < count ensures Nonce(count) != Nonce(n) {
        if Nonce(count) == Nonce(n) { NoncesAreDistinct(count, n); }
      }
      count := count + 1;
    }

    /** A frame is accepted exactly if it is the one that a peer at the same count makes next, and then gives
        the payload that was sealed. */
    method OpenFrame(f: Frame) returns (r: Option<Payload>)
      modifies this
      ensures r.Some? <==> exists p :: IsNext(old(Value()), p, f)
      ensures if r.Some? then Seal(old(Value()), r.value) == Some((Value(), f)) else Value() == old(Value())
    {
      if f.kind != "frame" || f.session != session || f.seqno != count || f.seqno >= Limit
        || Length(f.ciphertext) > 60000 {
        return None;
      }
      var b := f.ciphertext;
      if !b.Boxed? || b.key != key || b.nonce != Nonce(count) || b.aad != Aad(session, direction, count) {
        return None;
      }
      if |b.plain| > 32768 {
        return None;
      }
      r := Some(b.plain);
      assert IsNext(Value(), b.plain, f);
      count := count + 1;
    }
  }
}
