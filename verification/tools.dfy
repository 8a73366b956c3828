/** The external tool invocations of the script, each a pure transition of
    the artifact state whose effect is read off its arguments (`-out`,
    `-keyout`, `-keystore`, `-alias`, `-file`), plus the two filesystem
    calls the script makes itself (`os.makedirs`, `os.remove`).

    A tool that fails writes nothing. Two keytool behaviours are modelling
    assumptions rather than facts read from the script:
    - importing a certificate as trusted under an alias that already holds
      a trusted certificate fails;
    - importing a certificate under an alias that holds a key entry is a
      certificate reply: the certificate must be for that entry's key and
      must be issued by a certificate the store already trusts, and it then
      replaces the entry's certificate instead of adding an entry.
 */
module Tools {
  import opened Paths
  import opened Artifacts

  /** `openssl req -new -x509 -newkey rsa:2048 -keyout keyOut -out certOut`:
      a fresh key and a self-signed certificate for it. */
  function OpensslSelfSigned(s: State, keyOut: Path, certOut: Path, cn: string): (t: State)
    ensures t.dirs == s.dirs && t.nextKey == s.nextKey + 1
    ensures Frame(s, t, {keyOut, certOut})
    ensures HoldsCert(t, certOut) && SelfSigned(t.files[certOut].cert)
    ensures t.files[certOut].cert.subject == cn && t.files[certOut].cert.key == s.nextKey
    ensures keyOut != certOut ==> CaPair(t, keyOut, certOut)
  {
    var k := s.nextKey;
    s.(files := s.files[keyOut := KeyFile(k)][certOut := CertFile(Cert(cn, cn, k, k))], nextKey := k + 1)
  }

  /** `openssl genrsa -out out 2048`: a fresh key, replacing whatever `out`
      held. */
  function OpensslGenRsa(s: State, out: Path): (t: State)
    ensures t.dirs == s.dirs && t.nextKey == s.nextKey + 1
    ensures Frame(s, t, {out})
    ensures out in t.files && t.files[out] == KeyFile(s.nextKey)
  {
    s.(files := s.files[out := KeyFile(s.nextKey)], nextKey := s.nextKey + 1)
  }

  /** `openssl req -new -key keyPath -out out -subj /CN=cn`. */
  function OpensslNewRequest(s: State, keyPath: Path, out: Path, cn: string): (r: Outcome)
    ensures r.Done? <==> keyPath in s.files && s.files[keyPath].KeyFile?
    ensures r.Failed? ==> r.fs == s
    ensures r.Done? ==> r.fs.dirs == s.dirs && r.fs.nextKey == s.nextKey && Frame(s, r.fs, {out})
    ensures r.Done? ==> out in r.fs.files && r.fs.files[out] == RequestFile(cn, s.files[keyPath].key)
  {
    if keyPath in s.files && s.files[keyPath].KeyFile? then
      Done(s.(files := s.files[out := RequestFile(cn, s.files[keyPath].key)]))
    else
      Failed(s, NotAKey(keyPath))
  }

  /** `openssl x509 -req -in csr -CA caCrt -CAkey caKey -out out
      -CAcreateserial`: the request's key and subject certified by the
      authority; the serial file next to the CA certificate is created or
      advanced. OpenSSL refuses a CA key that does not match the CA
      certificate. */
  function OpensslSignRequest(s: State, csr: Path, caCrt: Path, caKey: Path, out: Path): (r: Outcome)
    ensures r.Done? <==> csr in s.files && s.files[csr].RequestFile? && CaPair(s, caKey, caCrt)
    ensures r.Failed? ==> r.fs == s
    ensures r.Done? ==> r.fs.dirs == s.dirs && r.fs.nextKey == s.nextKey
    ensures r.Done? ==> Frame(s, r.fs, {out, SerialFor(caCrt)})
    ensures r.Done? ==> SerialFor(caCrt) in r.fs.files && HoldsCert(r.fs, out)
    ensures r.Done? ==>
              var c := r.fs.files[out].cert;
              && Issues(s.files[caCrt].cert, c)
              && c.subject == s.files[csr].subject && c.key == s.files[csr].key
  {
    if !(csr in s.files && s.files[csr].RequestFile?) then Failed(s, NotARequest(csr))
    else if !HoldsCert(s, caCrt) then Failed(s, NotACertificate(caCrt))
    else if !(caKey in s.files && s.files[caKey].KeyFile?) then Failed(s, NotAKey(caKey))
    else if s.files[caCrt].cert.key != s.files[caKey].key then Failed(s, CaKeyMismatch(caKey))
    else
      var req := s.files[csr];
      var ca := s.files[caCrt].cert;
      var c := Cert(req.subject, ca.subject, req.key, s.files[caKey].key);
      Done(s.(files := s.files[SerialFor(caCrt) := SerialFile][out := CertFile(c)]))
  }

  /** `keytool -genkeypair -alias alias -keystore store -dname CN=cn`: a
      fresh key entry carrying a self-signed certificate; the store is
      created when missing, and an alias already in use is refused. */
  function KeytoolGenKeyPair(s: State, store: Path, alias: string, cn: string): (r: Outcome)
    ensures r.Done? <==> StoreUsable(s, store) && !HasAlias(s, store, alias)
    ensures r.Failed? ==> r.fs == s
    ensures r.Done? ==> r.fs.dirs == s.dirs && r.fs.nextKey == s.nextKey + 1 && Frame(s, r.fs, {store})
    ensures r.Done? ==>
              var e := Entries(r.fs, store);
              && store in r.fs.files && r.fs.files[store].Keystore?
              && e.Keys == Entries(s, store).Keys + {alias}
              && (forall a | a in Entries(s, store) :: e[a] == Entries(s, store)[a])
              && e[alias].KeyEntry? && e[alias].key == s.nextKey
              && e[alias].cert.key == s.nextKey && e[alias].cert.subject == cn
  {
    if !StoreUsable(s, store) then Failed(s, NotAKeystore(store))
    else if HasAlias(s, store, alias) then Failed(s, AliasExists(store, alias))
    else
      var k := s.nextKey;
      var entry := KeyEntry(k, Cert(cn, cn, k, k));
      Done(s.(files := s.files[store := Keystore(Entries(s, store)[alias := entry])], nextKey := k + 1))
  }

  /** `keytool -certreq -alias alias -keystore store -file out`: a signing
      request for the key entry's key under its certificate's subject. */
  function KeytoolCertReq(s: State, store: Path, alias: string, out: Path): (r: Outcome)
    ensures r.Done? <==> HasAlias(s, store, alias) && Entries(s, store)[alias].KeyEntry?
    ensures r.Failed? ==> r.fs == s
    ensures r.Done? ==> r.fs.dirs == s.dirs && r.fs.nextKey == s.nextKey && Frame(s, r.fs, {out})
    ensures r.Done? ==>
              var e := Entries(s, store)[alias];
              out in r.fs.files && r.fs.files[out] == RequestFile(e.cert.subject, e.key)
  {
    if HasAlias(s, store, alias) && Entries(s, store)[alias].KeyEntry? then
      var e := Entries(s, store)[alias];
      Done(s.(files := s.files[out := RequestFile(e.cert.subject, e.key)]))
    else
      Failed(s, NoKeyEntry(store, alias))
  }

  /** Some certificate the store trusts issued `c`: keytool can then
      establish a chain for a certificate reply. */
  predicate Chained(entries: map<string, Entry>, c: Cert)
  {
    exists a | a in entries :: entries[a].TrustedCert? && Issues(entries[a].cert, c)
  }

  /** `keytool -importcert -keystore store -alias alias -file file
      -noprompt`. */
  function KeytoolImportCert(s: State, store: Path, alias: string, file: Path): (r: Outcome)
    ensures r.Failed? ==> r.fs == s
    ensures !HoldsCert(s, file) || !StoreUsable(s, store) ==> r.Failed?
    ensures r.Done? ==> r.fs.dirs == s.dirs && r.fs.nextKey == s.nextKey && Frame(s, r.fs, {store})
    ensures r.Done? ==>
              var e := Entries(r.fs, store);
              && store in r.fs.files && r.fs.files[store].Keystore?
              && e.Keys == Entries(s, store).Keys + {alias}
              && (forall a | a in Entries(s, store) && a != alias :: e[a] == Entries(s, store)[a])
    // an absent alias receives the certificate as trusted
    ensures HoldsCert(s, file) && StoreUsable(s, store) && !HasAlias(s, store, alias) ==>
              r.Done? && Entries(r.fs, store)[alias] == TrustedCert(s.files[file].cert)
    // a trusted certificate is never overwritten
    ensures HasAlias(s, store, alias) && Entries(s, store)[alias].TrustedCert? ==>
              r.Failed? && (HoldsCert(s, file) ==> r.error == AliasExists(store, alias))
    // a key entry takes the certificate as a reply, or the import fails
    ensures HoldsCert(s, file) && HasAlias(s, store, alias) && Entries(s, store)[alias].KeyEntry? ==>
              var held := Entries(s, store)[alias];
              var c := s.files[file].cert;
              && (r.Done? <==> c.key == held.key && Chained(Entries(s, store), c))
              && (r.Done? ==> Entries(r.fs, store)[alias] == KeyEntry(held.key, c))
  {
    if !HoldsCert(s, file) then Failed(s, NotACertificate(file))
    else if !StoreUsable(s, store) then Failed(s, NotAKeystore(store))
    else
      var e := Entries(s, store);
      var c := s.files[file].cert;
      if alias !in e then
        Done(s.(files := s.files[store := Keystore(e[alias := TrustedCert(c)])]))
      else
        match e[alias]
        case TrustedCert(_) => Failed(s, AliasExists(store, alias))
        case KeyEntry(k, _) =>
          if c.key != k then Failed(s, ReplyKeyMismatch(store, alias))
          else if !Chained(e, c) then Failed(s, NoChain(store, alias))
          else Done(s.(files := s.files[store := Keystore(e[alias := KeyEntry(k, c)])]))
  }

  /** `os.remove(p)`. */
  function RemoveFile(s: State, p: Path): (r: Outcome)
    ensures r.Done? <==> p in s.files
    ensures r.Failed? ==> r.fs == s
    ensures r.Done? ==> r.fs.dirs == s.dirs && r.fs.nextKey == s.nextKey
    ensures r.Done? ==> p !in r.fs.files && Frame(s, r.fs, {p})
  {
    if p in s.files then Done(s.(files := s.files - {p})) else Failed(s, NoSuchFile(p))
  }

  /** `os.makedirs(d)`: refuses the empty name and a name already taken by
      a directory or a file. Missing parent directories are not modelled. */
  function MakeDirs(s: State, d: Path): (r: Outcome)
    ensures r.Done? <==> d != [] && d !in s.dirs && d !in s.files
    ensures r.Failed? ==> r.fs == s
    ensures r.Done? ==> r.fs.dirs == s.dirs + {d} && r.fs.files == s.files && r.fs.nextKey == s.nextKey
  {
    if d == [] then Failed(s, EmptyDirectoryName)
    else if d in s.dirs then Failed(s, DirectoryExists(d))
    else if d in s.files then Failed(s, FileInTheWay(d))
    else Done(s.(dirs := s.dirs + {d}))
  }
}
