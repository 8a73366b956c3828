/** The artifact state the provisioning script reads and writes.

    The filesystem is the only state: a set of directories and a map from
    path to file content. Keys and certificates are opaque tokens; a
    keystore (`.jks`) is a file whose content maps aliases to entries.
 */
module Artifacts {
  import opened Paths

  /** A key pair is identified by the number it was drawn with. A
      certificate records its subject and issuer common names, the key it
      certifies and the key that signed it. */
  datatype Cert = Cert(subject: string, issuer: string, key: nat, signerKey: nat)

  /** `c` validates against the authority certificate `ca`. */
  predicate Issues(ca: Cert, c: Cert)
  {
    ca.subject == c.issuer && ca.key == c.signerKey
  }

  predicate SelfSigned(c: Cert)
  {
    Issues(c, c)
  }

  /** A keystore entry: a private key with the certificate currently
      installed for it, or a certificate trusted as-is. */
  datatype Entry = KeyEntry(key: nat, cert: Cert) | TrustedCert(cert: Cert)

  datatype Content =
    | KeyFile(key: nat)
    | CertFile(cert: Cert)
    | RequestFile(subject: string, key: nat)
    | SerialFile
    | Keystore(entries: map<string, Entry>)

  /** `nextKey` is the source of fresh key material: every key generation
      draws it and moves it on, so a regenerated key differs from every key
      drawn before. */
  datatype State = State(dirs: set<Path>, files: map<Path, Content>, nextKey: nat)

  datatype Error =
    | EmptyDirectoryName
    | DirectoryExists(path: Path)
    | FileInTheWay(path: Path)
    | NoSuchFile(path: Path)
    | NotAKey(path: Path)
    | NotACertificate(path: Path)
    | NotARequest(path: Path)
    | NotAKeystore(path: Path)
    | CaKeyMismatch(path: Path)
    | AliasExists(store: Path, alias: string)
    | NoKeyEntry(store: Path, alias: string)
    | ReplyKeyMismatch(store: Path, alias: string)
    | NoChain(store: Path, alias: string)

  /** The outcome of a step: the state it leaves behind, and on failure the
      reason. A failed step is never cleaned up after, so `Failed` carries
      whatever the steps before it produced. */
  datatype Outcome = Done(fs: State) | Failed(fs: State, error: Error) {
    predicate IsFailure() { Failed? }

    function PropagateFailure(): Outcome
      requires Failed?
    {
      this
    }

    function Extract(): State
      requires Done?
    {
      fs
    }
  }

  function At(s: State, p: Path): Option<Content>
  {
    if p in s.files then Some(s.files[p]) else None
  }

  /** The entries of the keystore at `store`; a missing file, or one that
      is not a keystore, lists no aliases. */
  function Entries(s: State, store: Path): map<string, Entry>
  {
    if store in s.files && s.files[store].Keystore? then s.files[store].entries else map[]
  }

  /** The answer of `keytool -list -alias`: it succeeds exactly when the
      store can be opened and holds the alias. */
  predicate HasAlias(s: State, store: Path, alias: string)
  {
    alias in Entries(s, store)
  }

  /** The store file is absent (keytool creates it) or a keystore. */
  predicate StoreUsable(s: State, store: Path)
  {
    store !in s.files || s.files[store].Keystore?
  }

  predicate HoldsCert(s: State, p: Path)
  {
    p in s.files && s.files[p].CertFile?
  }

  /** `key` and `crt` hold a key and a certificate for that same key: the
      pair `openssl x509 -CA -CAkey` accepts. */
  predicate CaPair(s: State, key: Path, crt: Path)
  {
    && key in s.files && s.files[key].KeyFile?
    && HoldsCert(s, crt)
    && s.files[crt].cert.key == s.files[key].key
  }

  /** Every path outside `touched` holds what it held before. */
  ghost predicate Frame(s: State, t: State, touched: set<Path>)
  {
    forall p :: p !in touched ==> At(t, p) == At(s, p)
  }

  /** Every path outside directory `dir` other than `also` is unchanged. */
  ghost predicate OnlyUnder(s: State, t: State, dir: Path, also: Path)
  {
    forall p :: !InDir(p, dir) && p != also ==> At(t, p) == At(s, p)
  }

  lemma FrameTrans(s: State, t: State, u: State, a: set<Path>, b: set<Path>)
    requires Frame(s, t, a) && Frame(t, u, b)
    ensures Frame(s, u, a + b)
  {
  }

  lemma OnlyUnderSameFiles(s: State, t: State, dir: Path, also: Path)
    requires t.files == s.files
    ensures OnlyUnder(s, t, dir, also)
  {
  }

  lemma OnlyUnderTrans(s: State, t: State, u: State, dir: Path, also: Path)
    requires OnlyUnder(s, t, dir, also) && OnlyUnder(t, u, dir, also)
    ensures OnlyUnder(s, u, dir, also)
  {
  }

  lemma FrameSub(s: State, t: State, a: set<Path>, b: set<Path>)
    requires Frame(s, t, a) && a <= b
    ensures Frame(s, t, b)
  {
  }

  /** A frame whose touched paths all lie in `dir` (or are `also`). */
  lemma FrameWithin(s: State, t: State, touched: set<Path>, dir: Path, also: Path)
    requires Frame(s, t, touched)
    requires forall q | q in touched :: InDir(q, dir) || q == also
    ensures OnlyUnder(s, t, dir, also)
  {
  }
}
