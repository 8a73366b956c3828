/** The provisioning steps of the script, each a transformer of the
    artifact state: the two root-CA `ensure` steps, the two truststore
    `ensure` steps. The certificate generators built from them live in
    the `Server` and `Client` modules.

    Every skip decision is an inspection of the state (a file exists, a
    truststore lists an alias); nothing else remembers what was done.
 */
module Provision {
  import opened Paths
  import opened Artifacts
  import opened Tools

  /** The state after a root-CA step together with the paths it returns. */
  datatype Authority = Authority(fs: State, key: Path, crt: Path)

  /** Both CA files can serve `openssl x509 -CA -CAkey`, or at least one of
      them is missing so that both are created afresh. */
  predicate CaReady(s: State, key: Path, crt: Path)
  {
    !(key in s.files && crt in s.files) || CaPair(s, key, crt)
  }

  /** Node `n` counts as provisioned: the script's skip test. */
  predicate KeystoreDone(s: State, n: string)
  {
    n in s.dirs && JksPath(n) in s.files
  }

  /** The truststore holds node `n`'s root CA. */
  predicate Anchored(s: State, n: string)
  {
    HasAlias(s, TruststorePath, NodeCaAlias(n))
  }

  /** The keystore of node `n` holds exactly its own key entry, whose
      certificate validates against `ca`, and `ca` itself as trusted. */
  predicate NodeKeystore(s: State, n: string, ca: Cert)
  {
    var e := Entries(s, JksPath(n));
    && e.Keys == {n, NodeCaAlias(n)}
    && e[NodeCaAlias(n)] == TrustedCert(ca)
    && e[n].KeyEntry?
    && e[n].cert.key == e[n].key
    && e[n].cert.subject == n
    && Issues(ca, e[n].cert)
  }

  /** Node `n`'s keystore is built around the CA certificate on disk. */
  predicate NodeTrustsOwnCa(s: State, n: string)
  {
    HoldsCert(s, NodeCaCrt(n)) && NodeKeystore(s, n, s.files[NodeCaCrt(n)].cert)
  }

  /** Nothing of node `n` exists yet: no file under its directory and no
      file in the way of the directory itself. */
  ghost predicate Unprovisioned(s: State, n: string)
  {
    n != [] && n !in s.files && forall p | p in s.files :: !InDir(p, n)
  }

  lemma UnprovisionedLacksNodeFiles(s: State, n: string)
    ensures Unprovisioned(s, n) ==> JksPath(n) !in s.files && NodeCaKey(n) !in s.files
  {
    NodePathShapes(n);
  }

  /** The truststore grew by at most the aliases in `added`, and every
      entry it held is still there, unchanged. */
  ghost predicate TrustGrows(s: State, t: State, added: set<string>)
  {
    var before := Entries(s, TruststorePath);
    var after := Entries(t, TruststorePath);
    && before.Keys <= after.Keys <= before.Keys + added
    && (forall a | a in before :: after[a] == before[a])
    && (StoreUsable(s, TruststorePath) ==> StoreUsable(t, TruststorePath))
  }

  lemma TrustUntouched(s: State, t: State)
    requires At(t, TruststorePath) == At(s, TruststorePath)
    ensures TrustGrows(s, t, {})
  {
    assert Entries(t, TruststorePath) == Entries(s, TruststorePath);
  }

  lemma TrustGrowsSub(s: State, t: State, a: set<string>, b: set<string>)
    requires TrustGrows(s, t, a) && a <= b
    ensures TrustGrows(s, t, b)
  {
  }

  lemma TrustGrowsTrans(s: State, t: State, u: State, a: set<string>, b: set<string>)
    requires TrustGrows(s, t, a) && TrustGrows(t, u, b)
    ensures TrustGrows(s, u, a + b)
  {
  }

  // ---------------------------------------------------------------------
  // Root CAs (generate_tls.py:12-52)

  /** The body both `ensure_*_root_ca` functions share. */
  function EnsureCa(s: State, key: Path, crt: Path, cn: string): (r: Authority)
    ensures r.key == key && r.crt == crt
    ensures key in s.files && crt in s.files ==> r.fs == s
    ensures r.fs.dirs == s.dirs && Frame(s, r.fs, {key, crt})
    ensures r.fs.files.Keys == s.files.Keys + {key, crt}
    ensures r.fs.nextKey == s.nextKey || r.fs.nextKey == s.nextKey + 1
    ensures !(key in s.files && crt in s.files) ==>
              && HoldsCert(r.fs, crt) && SelfSigned(r.fs.files[crt].cert) && r.fs.files[crt].cert.subject == cn
              && (key != crt ==> CaPair(r.fs, key, crt) && r.fs.files[key] == KeyFile(s.nextKey))
  {
    if key in s.files && crt in s.files then Authority(s, key, crt)
    else Authority(OpensslSelfSigned(s, key, crt, cn), key, crt)
  }

  /** `ensure_node_root_ca`: node `n`'s own root CA at fixed paths, created
      unless both files already exist. */
  function EnsureNodeRootCa(s: State, n: string): (r: Authority)
    ensures r.key == NodeCaKey(n) && r.crt == NodeCaCrt(n)
    ensures r.key in s.files && r.crt in s.files ==> r.fs == s
    ensures r.fs.files.Keys == s.files.Keys + {r.key, r.crt}
    ensures r.fs.dirs == s.dirs && Frame(s, r.fs, {r.key, r.crt})
    ensures r.fs.nextKey == s.nextKey || r.fs.nextKey == s.nextKey + 1
    ensures !(r.key in s.files && r.crt in s.files) ==>
              && CaPair(r.fs, r.key, r.crt) && r.fs.files[r.key] == KeyFile(s.nextKey)
              && SelfSigned(r.fs.files[r.crt].cert) && r.fs.files[r.crt].cert.subject == NodeCaAlias(n)
    ensures CaReady(s, r.key, r.crt) ==> CaPair(r.fs, r.key, r.crt)
  {
    NodePaths(n);
    EnsureCa(s, NodeCaKey(n), NodeCaCrt(n), NodeCaAlias(n))
  }

  /** `ensure_client_root_ca`: the client's own root CA under `client/`. */
  function EnsureClientRootCa(s: State): (r: Authority)
    ensures r.key == ClientCaKey() && r.crt == ClientCaCrt()
    ensures r.key in s.files && r.crt in s.files ==> r.fs == s
    ensures r.fs.files.Keys == s.files.Keys + {r.key, r.crt}
    ensures r.fs.dirs == s.dirs && Frame(s, r.fs, {r.key, r.crt})
    ensures r.fs.nextKey == s.nextKey || r.fs.nextKey == s.nextKey + 1
    ensures !(r.key in s.files && r.crt in s.files) ==>
              && CaPair(r.fs, r.key, r.crt) && r.fs.files[r.key] == KeyFile(s.nextKey)
              && SelfSigned(r.fs.files[r.crt].cert) && r.fs.files[r.crt].cert.subject == ClientCaAlias
    ensures CaReady(s, r.key, r.crt) ==> CaPair(r.fs, r.key, r.crt)
  {
    ClientPaths();
    EnsureCa(s, ClientCaKey(), ClientCaCrt(), ClientCaAlias)
  }

  // ---------------------------------------------------------------------
  // Truststore anchors (generate_tls.py:55-94)

  /** The check-then-import pair both `ensure_truststore_with_*_ca`
      functions share: `keytool -list -alias` decides, an import follows
      only when the alias is missing. */
  function EnsureTrustEntry(s: State, alias: string, crt: Path): (r: Outcome)
    ensures HasAlias(s, TruststorePath, alias) ==> r == Done(s)
    ensures r.Done? ==> HasAlias(r.fs, TruststorePath, alias)
    ensures r.Failed? ==> r.fs == s
    ensures r.fs.dirs == s.dirs && r.fs.nextKey == s.nextKey && Frame(s, r.fs, {TruststorePath})
    ensures TrustGrows(s, r.fs, {alias})
    ensures !HasAlias(s, TruststorePath, alias) && HoldsCert(s, crt) && StoreUsable(s, TruststorePath) ==>
              r.Done? && Entries(r.fs, TruststorePath)[alias] == TrustedCert(s.files[crt].cert)
    ensures r.Done? && !HasAlias(s, TruststorePath, alias) ==>
              HoldsCert(s, crt) && Entries(r.fs, TruststorePath)[alias] == TrustedCert(s.files[crt].cert)
    ensures !StoreUsable(s, TruststorePath) ==> r.Failed?
  {
    if HasAlias(s, TruststorePath, alias) then Done(s)
    else KeytoolImportCert(s, TruststorePath, alias, crt)
  }

  /** `ensure_truststore_with_node_ca`: afterwards the truststore lists
      `rootCa-<n>`; if it already did, nothing changes, so the anchor is
      never imported twice; no other file is touched. */
  function EnsureTruststoreWithNodeCa(s: State, n: string, caCrt: Path): (r: Outcome)
    ensures Anchored(s, n) ==> r == Done(s)
    ensures r.Done? ==> Anchored(r.fs, n)
    ensures r.Failed? ==> r.fs == s
    ensures r.fs.dirs == s.dirs && r.fs.nextKey == s.nextKey && Frame(s, r.fs, {TruststorePath})
    ensures TrustGrows(s, r.fs, {NodeCaAlias(n)})
    ensures !Anchored(s, n) && HoldsCert(s, caCrt) && StoreUsable(s, TruststorePath) ==>
              r.Done? && Entries(r.fs, TruststorePath)[NodeCaAlias(n)] == TrustedCert(s.files[caCrt].cert)
    ensures r.Done? && !Anchored(s, n) ==>
              HoldsCert(s, caCrt) && Entries(r.fs, TruststorePath)[NodeCaAlias(n)] == TrustedCert(s.files[caCrt].cert)
    ensures !StoreUsable(s, TruststorePath) ==> r.Failed?
  {
    EnsureTrustEntry(s, NodeCaAlias(n), caCrt)
  }

  /** `ensure_truststore_with_client_ca`: the same for `rootCa-client`. */
  function EnsureTruststoreWithClientCa(s: State, caCrt: Path): (r: Outcome)
    ensures HasAlias(s, TruststorePath, ClientCaAlias) ==> r == Done(s)
    ensures r.Done? ==> HasAlias(r.fs, TruststorePath, ClientCaAlias)
    ensures r.Failed? ==> r.fs == s
    ensures r.fs.dirs == s.dirs && r.fs.nextKey == s.nextKey && Frame(s, r.fs, {TruststorePath})
    ensures TrustGrows(s, r.fs, {ClientCaAlias})
    ensures !HasAlias(s, TruststorePath, ClientCaAlias) && HoldsCert(s, caCrt) && StoreUsable(s, TruststorePath) ==>
              r.Done? && Entries(r.fs, TruststorePath)[ClientCaAlias] == TrustedCert(s.files[caCrt].cert)
    ensures r.Done? && !HasAlias(s, TruststorePath, ClientCaAlias) ==>
              HoldsCert(s, caCrt) && Entries(r.fs, TruststorePath)[ClientCaAlias] == TrustedCert(s.files[caCrt].cert)
    ensures !StoreUsable(s, TruststorePath) ==> r.Failed?
  {
    EnsureTrustEntry(s, ClientCaAlias, caCrt)
  }
}
