/** The device-protected credential store (internal/localstore/store.go, credentials.go). Files,
    key parsing and the device key are parameters; encryption is ideal. */
module LocalStore {
  import opened Text
  import opened Vault

  datatype Secret = Secret(key: Bytes, passphrase: Bytes, password: string, fingerprint: string)

  /** What a credential is bound to. */
  datatype Target = Target(host: string, user: string, auth: string, key: string, entry: string, vault: string,
                           port: int)

  datatype FileCheck = Same | Changed | Missing | Unreadable

  /** The world outside: the digest of a binding, the id of a key file's path, whether that file
      still holds the given key, and the fingerprint a private key proves. */
  datatype World = World(
    digest: Target -> string, pathId: string -> Option<string>,
    file: (string, Secret) -> FileCheck, prove: Secret -> Option<string>)

  datatype Contents = Contents(
    connections: map<string, seq<Secret>>, secrets: map<string, Bytes>, keyFiles: map<string, Secret>,
    disabled: set<string>)

  const Fresh := Contents(map[], map[], map[], {})

  datatype Error =
    | NoIdentity | NotFound | Inactive | KeyFileChanged | KeyFileUnreadable | Invalid | Locked | Corrupt | Failed

  datatype Outcome<T> = Done(value: T) | Error(error: Error)

  /** `Identity`: names, routes and sync marks on native records are left out. */
  function Identity(w: World, s: Server): Option<string> {
    var port := if s.port == 0 then 22 else s.port;
    if TrimSpace(s.host) == "" || TrimSpace(s.user) == "" || port < 1 || port > 65535 then None
    else
      var vault := if s.cloudEntry == "" && s.auth != AuthCloud then "" else s.cloudVault;
      Some(w.digest(Target(s.host, s.user, s.auth, s.keyPath, s.cloudEntry, vault, port)))
  }

  predicate ValidSecret(w: World, c: Secret) {
    && |c.key| <= 1048576 && |c.passphrase| <= 65536 && |c.password| <= 65536
    && if c.key != [] then c.password == "" && w.prove(c).Some?
       else c.password != "" && c.passphrase == [] && c.fingerprint == ""
  }

  function Proved(w: World, c: Secret): Secret
    requires ValidSecret(w, c)
  {
    if c.key != [] then c.(fingerprint := w.prove(c).value) else c
  }

  predicate ValidSecrets(w: World, cs: seq<Secret>) {
    1 <= |cs| <= 32 && forall c | c in cs :: ValidSecret(w, c)
  }

  // --- operations on opened contents ---

  function Put(w: World, d: Contents, s: Server, cs: seq<Secret>): Outcome<Contents> {
    var id := Identity(w, s);
    if id.None? then Error(NoIdentity)
    else if !ValidSecrets(w, cs) then Error(Invalid)
    else
      Done(d.(connections := d.connections[id.value := seq(|cs|, i requires 0 <= i < |cs| => Proved(w, cs[i]))],
              disabled := d.disabled - {id.value}))
  }

  function Disable(w: World, d: Contents, s: Server): Outcome<Contents> {
    var id := Identity(w, s);
    if id.None? then Error(NoIdentity) else Done(d.(disabled := d.disabled + {id.value}))
  }

  function SetSecret(d: Contents, name: string, value: Bytes): Outcome<Contents> {
    if name == "" || |name| > 256 || |value| > 1048576 then Error(Invalid)
    else Done(d.(secrets := d.secrets[name := value]))
  }

  function RememberKeyFile(w: World, d: Contents, path: string, c: Secret): Outcome<Contents> {
    if w.pathId(path).None? then Error(NotFound)
    else if !ValidSecrets(w, [c]) then Error(Invalid)
    else Done(d.(keyFiles := d.keyFiles[w.pathId(path).value := Proved(w, c)]))
  }

  function DeleteSecrets(d: Contents, prefix: string): Contents {
    d.(secrets := map k | k in d.secrets && !(prefix <= k) :: d.secrets[k])
  }

  predicate UsesFile(s: Server) {
    s.auth == AuthKey && s.keyPath != ""
  }

  /** The credentials a target would use, before its key file is checked. */
  function Selected(w: World, d: Contents, id: string, s: Server): seq<Secret> {
    var cs := if id in d.connections then d.connections[id] else [];
    if cs != [] || !UsesFile(s) || w.pathId(s.keyPath).None? || w.pathId(s.keyPath).value !in d.keyFiles then cs
    else [d.keyFiles[w.pathId(s.keyPath).value]]
  }

  /** The first credential whose key file stands in the way; a missing file does not. */
  function FileError(w: World, path: string, cs: seq<Secret>): Option<Error> {
    if cs == [] then None
    else if cs[0].key != [] && w.file(path, cs[0]).Changed? then Some(KeyFileChanged)
    else if cs[0].key != [] && w.file(path, cs[0]).Unreadable? then Some(KeyFileUnreadable)
    else FileError(w, path, cs[1..])
  }

  function Resolve(w: World, d: Contents, s: Server): Outcome<seq<Secret>> {
    var id := Identity(w, s);
    if id.None? then Error(NoIdentity)
    else if id.value in d.disabled then Error(Inactive)
    else
      var cs := Selected(w, d, id.value, s);
      if cs == [] then Error(NotFound)
      else if UsesFile(s) && FileError(w, s.keyPath, cs).Some? then Error(FileError(w, s.keyPath, cs).value)
      else Done(cs)
  }

  /** A binding names the host, user, kind, key path and port of a target, and for a published one its entry and
      its vault. */
  lemma IdentityIff(w: World, s: Server, t: Server)
    requires forall x, y :: w.digest(x) == w.digest(y) ==> x == y
    requires Identity(w, s).Some? && Identity(w, t).Some?
    ensures Identity(w, s) == Identity(w, t) <==>
              && s.host == t.host && s.user == t.user && s.auth == t.auth && s.keyPath == t.keyPath
              && (s.port == t.port || {s.port, t.port} == {0, 22}) && s.cloudEntry == t.cloudEntry
              && (s.cloudEntry != "" || s.auth == AuthCloud ==> s.cloudVault == t.cloudVault)
  {
    hide TrimSpace;
  }

  /** A target has a binding exactly if it names a host, a user and a port. */
  lemma HasIdentity(w: World, s: Server)
    ensures Identity(w, s).Some? <==> TrimSpace(s.host) != "" && TrimSpace(s.user) != "" && 0 <= s.port <= 65535
  {}

  /** A target resolves to its own credentials, and only if there are none to the one of its key file; never if it is
      disabled, nor if a key file stands in the way. */
  lemma ResolveIff(w: World, d: Contents, s: Server, cs: seq<Secret>)
    ensures Resolve(w, d, s) == Done(cs) <==>
              && Identity(w, s).Some? && Identity(w, s).value !in d.disabled && cs != []
              && cs == Own(w, d, s)
              && !(s.auth == AuthKey && s.keyPath != ""
                   && exists c | c in cs :: c.key != [] && w.file(s.keyPath, c) in {Changed, Unreadable})
  {
    FileErrorIff(w, s.keyPath, cs);
    hide TrimSpace, FileError;
  }

  /** The credentials stored for the target, or for its key file. */
  function Own(w: World, d: Contents, s: Server): seq<Secret> {
    var file := if s.auth == AuthKey && s.keyPath != "" then w.pathId(s.keyPath) else None;
    if Identity(w, s).Some? && Identity(w, s).value in d.connections && d.connections[Identity(w, s).value] != [] then
      d.connections[Identity(w, s).value]
    else if file.Some? && file.value in d.keyFiles then [d.keyFiles[file.value]]
    else []
  }

  /** Secrets by name: what is set is there, what has the prefix goes, and no other changes. */
  lemma SecretsAre(d: Contents, name: string, value: Bytes, prefix: string)
    ensures SetSecret(d, name, value).Done? <==> 1 <= |name| <= 256 && |value| <= 1048576
    ensures SetSecret(d, name, value).Done? ==>
              var n := SetSecret(d, name, value).value;
              && n == d.(secrets := n.secrets) && Get(n.secrets, name) == Some(value)
              && forall k | k != name :: Get(n.secrets, k) == Get(d.secrets, k)
    ensures var n := DeleteSecrets(d, prefix);
            && n == d.(secrets := n.secrets)
            && forall k :: Get(n.secrets, k) == if prefix <= k then None else Get(d.secrets, k)
  {}

  /** What is put is what resolves, unless a changed key file stands in the way. */
  lemma PutResolves(w: World, d: Contents, s: Server, cs: seq<Secret>)
    requires Put(w, d, s, cs).Done?
    ensures var r := Resolve(w, Put(w, d, s, cs).value, s);
            if UsesFile(s) && (exists c | c in cs ::
                                 c.key != [] && w.file(s.keyPath, Proved(w, c)) in {Changed, Unreadable}) then
              r.Error? && r.error in {KeyFileChanged, KeyFileUnreadable}
            else r.Done? && |r.value| == |cs| && forall i | 0 <= i < |cs| :: r.value[i] == Proved(w, cs[i])
  {
    var ps := seq(|cs|, i requires 0 <= i < |cs| => Proved(w, cs[i]));
    FileErrorIff(w, s.keyPath, ps);
    if c :| c in cs && c.key != [] && w.file(s.keyPath, Proved(w, c)) in {Changed, Unreadable} {
      var i :| 0 <= i < |cs| && cs[i] == c;
      assert ps[i] in ps;
    }
  }

  lemma {:induction false} FileErrorIff(w: World, path: string, cs: seq<Secret>)
    ensures FileError(w, path, cs).Some? <==>
              exists c | c in cs :: c.key != [] && w.file(path, c) in {Changed, Unreadable}
    ensures FileError(w, path, cs).Some? ==> FileError(w, path, cs).value in {KeyFileChanged, KeyFileUnreadable}
  {
    if cs != [] {
      FileErrorIff(w, path, cs[1..]);
      assert cs == [cs[0]] + cs[1..];
      assert forall c :: c in cs <==> c == cs[0] || c in cs[1..];
    }
  }

  // --- the store on disk ---

  /** What may go wrong in one command: the directory or the lock, the device key, a cancelled
      context, the size limit, the rename of the new file into place (or the removal of the lock
      marker), and the sync of the directory, which comes after the rename. */
  datatype Io = Io(prepares: bool, opens: bool, sound: bool, goesOn: bool, small: bool, renames: bool, syncs: bool)

  /** What is on the disk: the store, if there is one, and the mark that locks it. */
  datatype Media = Media(disk: Option<Contents>, locked: bool)

  /** What a transaction works on: the contents, or fresh ones if there is no store yet. */
  function Before(m: Media): Contents {
    if m.disk.Some? then m.disk.value else Fresh
  }

  predicate Opens(m: Media, io: Io) {
    io.prepares && !m.locked && io.opens && (m.disk.Some? ==> io.sound)
  }

  /** The transaction gets as far as the rename, which puts `next` in the place of the store. */
  predicate Replaces(m: Media, io: Io, next: Outcome<Contents>) {
    Opens(m, io) && next.Done? && io.goesOn && io.small && io.renames
  }

  predicate Locks(m: Media, io: Io) {
    m.disk.Some? && io.prepares && io.renames
  }

  /** Unlocking opens the store first. */
  predicate Unlocks(m: Media, io: Io) {
    io.prepares && m.disk.Some? && io.opens && io.sound && (m.locked ==> io.renames)
  }

  class Store {
    var disk: Option<Contents>
    var locked: bool

    function Value(): Media
      reads this
    {
      Media(disk, locked)
    }

    constructor ()
      ensures Value() == Media(None, false)
    {
      disk, locked := None, false;
    }

    method Begin(io: Io) returns (r: Outcome<Contents>)
      ensures r.Done? <==> Opens(Value(), io)
      ensures r.Done? ==> r.value == Before(Value())
      ensures locked && io.prepares ==> r == Error(Locked)
    {
      if !io.prepares {
        return Error(Failed);
      }
      if locked {
        return Error(Locked);
      }
      if !io.opens {
        return Error(Failed);
      }
      if disk.None? {
        return Done(Fresh);
      }
      if !io.sound {
        return Error(Corrupt);
      }
      r := Done(disk.value);
    }

    method Commit(d: Contents, io: Io) returns (err: Option<Error>)
      modifies this`disk
      ensures err.None? <==> io.goesOn && io.small && !locked && io.renames && io.syncs
      ensures disk == if io.goesOn && io.small && !locked && io.renames then Some(d) else old(disk)
    {
      if !io.goesOn || !io.small {
        return Some(Failed);
      }
      if locked {
        return Some(Locked);
      }
      if !io.renames {
        return Some(Failed);
      }
      disk := Some(d);
      if !io.syncs {
        return Some(Failed);
      }
      err := None;
    }

    /** One transaction. Success means that what `step` made of the contents is stored; on an error the
        store keeps its contents exactly if the rename was not reached. */
    method Update(step: Contents -> Outcome<Contents>, io: Io) returns (err: Option<Error>)
      modifies this`disk
      ensures err.None? <==> Replaces(old(Value()), io, step(Before(old(Value())))) && io.syncs
      ensures if Replaces(old(Value()), io, step(Before(old(Value())))) then
                disk == Some(step(Before(old(Value()))).value)
              else disk == old(disk)
      ensures err.Some? && disk != old(disk) ==> io.renames && !io.syncs
      ensures locked ==> err.Some? && disk == old(disk)
    {
      var r := Begin(io);
      if r.Error? {
        return Some(r.error);
      }
      var next := step(r.value);
      if next.Error? {
        return Some(next.error);
      }
      err := Commit(next.value, io);
    }

    method ResolveTarget(w: World, s: Server, io: Io) returns (r: Outcome<seq<Secret>>)
      ensures r.Done? ==> !locked && disk.Some? && Resolve(w, disk.value, s) == r
      ensures disk.Some? && Identity(w, s).Some? && Identity(w, s).value in disk.value.disabled ==> r.Error?
    {
      if Identity(w, s).None? {
        return Error(NoIdentity);
      }
      if disk.None? {
        return Error(NotFound);
      }
      if !io.prepares || !io.opens || !io.sound {
        return Error(Failed);
      }
      if locked {
        return Error(Locked);
      }
      r := ResolveOpened(w, disk.value, s);
    }

    /** Success means locked; so may an error, if it is the sync after the rename that fails. */
    method Lock(io: Io) returns (err: Option<Error>)
      modifies this`locked
      ensures locked == (old(locked) || Locks(old(Value()), io))
      ensures err.None? <==> Locks(old(Value()), io) && io.syncs
    {
      if disk.None? {
        return Some(NotFound);
      }
      if !io.prepares || !io.renames {
        return Some(Failed);
      }
      locked := true;
      if !io.syncs {
        return Some(Failed);
      }
      err := None;
    }

    /** Success means open: a store that does not open stays locked. */
    method Unlock(io: Io) returns (err: Option<Error>)
      modifies this`locked
      ensures err.None? <==> Unlocks(old(Value()), io)
      ensures locked == (old(locked) && err.Some?)
    {
      if !io.prepares {
        return Some(Failed);
      }
      if disk.None? {
        return Some(NotFound);
      }
      if !io.opens || !io.sound {
        return Some(Corrupt);
      }
      if !locked {
        return None;
      }
      if !io.renames {
        return Some(Failed);
      }
      locked := false;
      err := None;
    }
  }

  /** An error with the store already replaced: the rename worked, the sync of the directory did not. */
  method StoredDespiteError(d: Contents) returns (store: Store, err: Option<Error>)
    ensures fresh(store) && err.Some? && store.disk == Some(d)
  {
    store := new Store();
    err := store.Update((c: Contents) => Done(d), Io(true, true, true, true, true, true, false));
  }

  /** `resolve` in its own form: the fallback to a key file, then the loop over key files. */
  method ResolveOpened(w: World, d: Contents, s: Server) returns (r: Outcome<seq<Secret>>)
    ensures r == Resolve(w, d, s)
  {
    hide FileError;
    var id := Identity(w, s);
    if id.None? {
      return Error(NoIdentity);
    }
    if id.value in d.disabled {
      return Error(Inactive);
    }
    var cs := if id.value in d.connections then d.connections[id.value] else [];
    if |cs| == 0 && s.auth == AuthKey && s.keyPath != "" {
      var file := w.pathId(s.keyPath);
      if file.Some? && file.value in d.keyFiles {
        cs := [d.keyFiles[file.value]];
      }
    }
    if |cs| == 0 {
      return Error(NotFound);
    }
    if s.auth == AuthKey && s.keyPath != "" {
      var err := CheckFiles(w, s.keyPath, cs);
      if err.Some? {
        return Error(err.value);
      }
    }
    r := Done(cs);
  }

  method CheckFiles(w: World, path: string, cs: seq<Secret>) returns (err: Option<Error>)
    ensures err == FileError(w, path, cs)
  {
    for i := 0 to |cs|
      invariant FileError(w, path, cs) == FileError(w, path, cs[i..])
    {
      assert cs[i..][1..] == cs[i + 1..];
      if |cs[i].key| > 0 {
        match w.file(path, cs[i])
        case Changed => return Some(KeyFileChanged);
        case Unreadable => return Some(KeyFileUnreadable);
        case _ =>
      }
    }
    err := None;
  }
}
