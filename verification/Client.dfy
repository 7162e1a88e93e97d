/** The client half of the sync protocol: the account file and what each network reply does to it
    (internal/cloudsync/client.go). */
module Client {
  import opened Text
  import opened Vault
  import A = Account

  /** An encrypted vault: it opens, under the master key, to exactly the data sealed in it. The
      nonce keeps two sealings of equal data apart. */
  datatype Sealed = Sealed(data: Data, nonce: nat)

  type Snap = A.Snapshot<Sealed>
  type Upload = A.Put<Sealed>

  /** `Vault.Snapshot`: seal and sign the data on top of revision `base`. It has no revision yet. */
  function Seal(root: string, base: nat, op: string, data: Data, nonce: nat): Snap {
    var blob := Sealed(data, nonce);
    A.Snapshot(0, base, op, blob, A.Signed(root, A.SyncMessage(base, op, blob)), root)
  }

  /** `UnlockMaster` succeeds for the vault whose public root is `root`. */
  predicate Opens(s: Snap, root: string, now: nat) {
    && (s.revision == 0 || s.revision == s.base + 1)
    && s.root == root && A.Verify(root, s.signature, A.SyncMessage(s.base, s.op, s.blob))
    && Valid(s.blob.data, now)
  }

  function ToUpload(s: Snap): Upload {
    A.Put(s.base, s.op, s.blob, s.signature, false, "", "", A.Forged(""))
  }

  /** The persisted account state. */
  datatype Account = Account(base: Snap, draft: Snap, dirty: bool, pending: Option<Snap>)

  /** The data being worked on: what opening the draft gives. */
  function Working(c: Account): Data {
    c.draft.blob.data
  }

  function Clean(s: Snap): Account {
    Account(s, s, false, None)
  }

  /** A pending upload is the draft of a dirty account; a clean account is exactly its base. */
  predicate Shaped(c: Account) {
    && (c.pending.Some? ==> c.dirty && c.draft == c.pending.value)
    && (!c.dirty ==> c.draft == c.base)
  }

  /** `SaveDraft`: refused while an upload is pending. */
  function SaveDraft(c: Account, snap: Snap): Option<Account> {
    if c.pending.Some? then None else Some(c.(draft := snap, dirty := true, pending := None))
  }

  datatype Outcome = Next(account: Account) | Merging | RolledBack | Unauthentic | Replaced | Mismatch

  /** The reply to an upload, first (`again == false`) or repeated. */
  function Acknowledged(c: Account, request: Snap, out: Snap, again: bool, root: string, now: nat): Outcome {
    if again && !Opens(out, root, now) then Unauthentic
    else if out.blob != request.blob || out.signature != request.signature
      || (!again && out.revision != request.base + 1) then Mismatch
    else Next(Clean(out))
  }

  /** The reply to `GET /v1/vault`. */
  function Fetched(c: Account, remote: Snap, root: string, now: nat): Outcome {
    if remote.revision < c.base.revision then RolledBack
    else if !Opens(remote, root, now) then Unauthentic
    else if remote.revision == c.base.revision
      && (remote.blob != c.base.blob || remote.signature != c.base.signature) then Replaced
    else if !c.dirty then Next(Clean(remote))
    else Merging
  }

  /** A merged draft is parked as the pending upload; the base stays where it was. */
  function Park(c: Account, request: Snap): Account {
    c.(draft := request, pending := Some(request))
  }
}
