/** Client provisioning: `generate_client_cert`.

    Unlike the server path this is not idempotent: the client key, request
    and certificate are regenerated on every run, and the final import of
    alias `client` into the truststore is not guarded by a presence check,
    so once a run has succeeded every later run fails at that import.
 */
module Client {
  import opened Paths
  import opened Artifacts
  import opened Tools
  import opened Provision

  /** The client's key was drawn during the step from `s` to `t`. */
  predicate FreshClientKey(s: State, t: State)
  {
    && ClientKey() in t.files && t.files[ClientKey()].KeyFile?
    && s.nextKey <= t.files[ClientKey()].key < t.nextKey
  }

  /** The certificate at `client/client.crt` was issued by the client CA for
      the key at `client/client.key`, under the request's subject. */
  predicate ClientCertIssued(s: State)
  {
    && CaPair(s, ClientCaKey(), ClientCaCrt())
    && ClientKey() in s.files && s.files[ClientKey()].KeyFile?
    && HoldsCert(s, ClientCrt())
    && Issues(s.files[ClientCaCrt()].cert, s.files[ClientCrt()].cert)
    && s.files[ClientCrt()].cert.key == s.files[ClientKey()].key
    && s.files[ClientCrt()].cert.subject == ClientSubject
  }

  /** What a successful client setup leaves behind: the issued
      certificate, both aliases in the truststore, no request. */
  predicate ClientComplete(s: State)
  {
    && ClientCertIssued(s)
    && HasAlias(s, TruststorePath, ClientCaAlias) && HasAlias(s, TruststorePath, ClientAlias)
    && ClientCsr() !in s.files
  }

  /** The truststore already trusts a certificate under alias `client`. */
  predicate ClientTrusted(s: State)
  {
    HasAlias(s, TruststorePath, ClientAlias) && Entries(s, TruststorePath)[ClientAlias].TrustedCert?
  }

  /** generate_tls.py:103-122: the client CA, a fresh key, a request for it
      and the certificate the CA signs. Everything but the signature always
      succeeds, so the key is replaced even when the run goes on to fail. */
  function ClientKeyAndCert(s: State): (r: Outcome)
    ensures r.fs.dirs == s.dirs
    ensures FreshClientKey(s, r.fs)
    ensures ClientCsr() in r.fs.files
    ensures r.Done? <==> CaReady(s, ClientCaKey(), ClientCaCrt())
    ensures r.Done? ==> ClientCertIssued(r.fs)
  {
    ClientPaths();
    ClientSerial();
    var ca := EnsureClientRootCa(s);
    var s1 := OpensslGenRsa(ca.fs, ClientKey());
    assert At(s1, ClientCaKey()) == At(ca.fs, ClientCaKey()) && At(s1, ClientCaCrt()) == At(ca.fs, ClientCaCrt());
    var r2 := OpensslNewRequest(s1, ClientKey(), ClientCsr(), ClientSubject);
    if r2.Failed? then r2 else
    var s2 := r2.fs;
    assert At(s2, ClientCaKey()) == At(ca.fs, ClientCaKey()) && At(s2, ClientCaCrt()) == At(ca.fs, ClientCaCrt());
    assert At(s2, ClientKey()) == At(s1, ClientKey());
    var r3 := OpensslSignRequest(s2, ClientCsr(), ClientCaCrt(), ClientCaKey(), ClientCrt());
    assert At(r3.fs, ClientKey()) == At(s2, ClientKey()) && At(r3.fs, ClientCsr()) == At(s2, ClientCsr());
    assert At(r3.fs, ClientCaKey()) == At(s2, ClientCaKey()) && At(r3.fs, ClientCaCrt()) == At(s2, ClientCaCrt());
    r3
  }

  /** generate_tls.py:124-134: the client CA anchored in the truststore if
      it is not yet, the client certificate imported under alias `client`
      without any check, then the request removed. */
  function TrustClient(s: State): (r: Outcome)
    ensures r.fs.dirs == s.dirs && r.fs.nextKey == s.nextKey
    ensures Frame(s, r.fs, {TruststorePath, ClientCsr()})
    ensures forall a | a in Entries(s, TruststorePath) && a != ClientAlias ::
              a in Entries(r.fs, TruststorePath) && Entries(r.fs, TruststorePath)[a] == Entries(s, TruststorePath)[a]
    ensures r.Done? ==>
              && HasAlias(r.fs, TruststorePath, ClientCaAlias) && HasAlias(r.fs, TruststorePath, ClientAlias)
              && ClientCsr() !in r.fs.files
    ensures !HasAlias(s, TruststorePath, ClientAlias) && StoreUsable(s, TruststorePath)
            && HoldsCert(s, ClientCaCrt()) && HoldsCert(s, ClientCrt()) && ClientCsr() in s.files ==>
              r.Done? && Entries(r.fs, TruststorePath)[ClientAlias] == TrustedCert(s.files[ClientCrt()].cert)
    // a certificate already trusted as `client` makes the import fail,
    // before the request is removed
    ensures HasAlias(s, TruststorePath, ClientAlias) && Entries(s, TruststorePath)[ClientAlias].TrustedCert? ==>
              && r.Failed?
              && (ClientCsr() in s.files ==> ClientCsr() in r.fs.files)
              && (HoldsCert(s, ClientCaCrt()) && HoldsCert(s, ClientCrt()) ==>
                    r.error == AliasExists(TruststorePath, ClientAlias))
  {
    ClientPaths();
    var r4 := EnsureTruststoreWithClientCa(s, ClientCaCrt());
    if r4.Failed? then r4 else
    assert At(r4.fs, ClientCrt()) == At(s, ClientCrt()) && At(r4.fs, ClientCsr()) == At(s, ClientCsr());
    var r5 := KeytoolImportCert(r4.fs, TruststorePath, ClientAlias, ClientCrt());
    if r5.Failed? then r5 else
    assert At(r5.fs, ClientCsr()) == At(s, ClientCsr());
    var r6 := RemoveFile(r5.fs, ClientCsr());
    assert At(r6.fs, TruststorePath) == At(r5.fs, TruststorePath);
    r6
  }

  /** The key and certificate step writes only the client's own files. */
  lemma KeyAndCertScope(s: State)
    ensures Frame(s, ClientKeyAndCert(s).fs, ClientFiles())
  {
    ClientPaths();
    ClientSerial();
    var ca := EnsureClientRootCa(s);
    var s1 := OpensslGenRsa(ca.fs, ClientKey());
    var r2 := OpensslNewRequest(s1, ClientKey(), ClientCsr(), ClientSubject);
    var r3 := OpensslSignRequest(r2.fs, ClientCsr(), ClientCaCrt(), ClientCaKey(), ClientCrt());
    FrameTrans(s, ca.fs, s1, {ClientCaKey(), ClientCaCrt()}, {ClientKey()});
    FrameTrans(s, s1, r2.fs, {ClientCaKey(), ClientCaCrt(), ClientKey()}, {ClientCsr()});
    FrameTrans(s, r2.fs, r3.fs, {ClientCaKey(), ClientCaCrt(), ClientKey(), ClientCsr()}, {ClientCrt(), ClientSrl()});
  }

  /** The key and certificate step leaves the truststore alone. */
  lemma KeyAndCertKeepTrust(s: State)
    ensures At(ClientKeyAndCert(s).fs, TruststorePath) == At(s, TruststorePath)
  {
    KeyAndCertScope(s);
    ClientTrustPaths();
  }

  /** The truststore step leaves the client's key, certificate and CA alone. */
  lemma TrustClientKeepsCerts(s: State)
    ensures var t := TrustClient(s).fs;
            && At(t, ClientKey()) == At(s, ClientKey()) && At(t, ClientCrt()) == At(s, ClientCrt())
            && At(t, ClientCaKey()) == At(s, ClientCaKey()) && At(t, ClientCaCrt()) == At(s, ClientCaCrt())
  {
    ClientTrustPaths();
  }

  /** generate_tls.py:103-135 once the client directory exists. */
  function ClientSetup(s: State): (r: Outcome)
    ensures r.fs.dirs == s.dirs
    ensures FreshClientKey(s, r.fs)
    ensures r.Done? ==> ClientComplete(r.fs)
  {
    var r1 := ClientKeyAndCert(s);
    if r1.Failed? then r1 else
    TrustClientKeepsCerts(r1.fs);
    TrustClient(r1.fs)
  }

  /** The setup writes only the client's own files and the truststore. */
  lemma ClientSetupScope(s: State)
    ensures Frame(s, ClientSetup(s).fs, ClientFiles() + {TruststorePath})
  {
    ClientTrustPaths();
    KeyAndCertScope(s);
    var r1 := ClientKeyAndCert(s);
    if r1.Done? {
      var r := TrustClient(r1.fs);
      FrameTrans(s, r1.fs, r.fs, ClientFiles(), {TruststorePath, ClientCsr()});
      FrameSub(s, r.fs, ClientFiles() + {TruststorePath, ClientCsr()}, ClientFiles() + {TruststorePath});
    } else {
      FrameSub(s, r1.fs, ClientFiles(), ClientFiles() + {TruststorePath});
    }
  }

  /** A first client setup (no alias `client` in the truststore yet)
      succeeds whenever the client CA and the truststore are usable, and
      leaves the new certificate trusted under `client`. */
  lemma ClientSetupFirstTime(s: State)
    ensures var r := ClientSetup(s);
            !HasAlias(s, TruststorePath, ClientAlias) ==>
            && (r.Done? ==> Entries(r.fs, TruststorePath)[ClientAlias] == TrustedCert(r.fs.files[ClientCrt()].cert))
            && (CaReady(s, ClientCaKey(), ClientCaCrt()) && StoreUsable(s, TruststorePath) ==> r.Done?)
  {
    var r1 := ClientKeyAndCert(s);
    KeyAndCertKeepTrust(s);
    if r1.Done? {
      TrustClientKeepsCerts(r1.fs);
    }
  }

  /** With a certificate already trusted as `client`, the setup fails; when
      the client CA is usable it gets as far as the import, which is refused,
      and the signing request stays on disk. */
  lemma ClientSetupRefusesTrusted(s: State)
    ensures var r := ClientSetup(s);
            ClientTrusted(s) ==>
            && r.Failed?
            && (CaReady(s, ClientCaKey(), ClientCaCrt()) ==>
                  r.error == AliasExists(TruststorePath, ClientAlias) && ClientCsr() in r.fs.files)
  {
    KeyAndCertKeepTrust(s);
  }

  /** The client directory exists or `os.makedirs` can create it. */
  predicate ClientDirUsable(s: State)
  {
    ClientDir in s.dirs || ClientDir !in s.files
  }

  /** generate_client_cert (generate_tls.py:97-135): the directory is
      created when missing, then everything is generated anew. */
  function GenerateClientCert(s: State): (r: Outcome)
    ensures !ClientDirUsable(s) ==> r == Failed(s, FileInTheWay(ClientDir))
    ensures ClientDirUsable(s) ==> FreshClientKey(s, r.fs)
    ensures r.Done? ==> ClientDir in r.fs.dirs && ClientComplete(r.fs)
  {
    var r0 := if ClientDir in s.dirs then Done(s) else MakeDirs(s, ClientDir);
    if r0.Failed? then r0 else ClientSetup(r0.fs)
  }

  /** The client run creates no directory but `client` and writes only the
      client's files and the truststore. */
  lemma ClientCertScope(s: State)
    ensures var r := GenerateClientCert(s);
            s.dirs <= r.fs.dirs <= s.dirs + {ClientDir} && Frame(s, r.fs, ClientFiles() + {TruststorePath})
  {
    var r0 := if ClientDir in s.dirs then Done(s) else MakeDirs(s, ClientDir);
    if r0.Done? {
      ClientSetupScope(r0.fs);
    }
  }

  /** A first client run succeeds when the directory, the client CA and
      the truststore are usable, and leaves the new certificate trusted
      under `client`. */
  lemma ClientCertFirstTime(s: State)
    requires !HasAlias(s, TruststorePath, ClientAlias)
    ensures var r := GenerateClientCert(s);
            && (r.Done? ==> Entries(r.fs, TruststorePath)[ClientAlias] == TrustedCert(r.fs.files[ClientCrt()].cert))
            && (ClientDirUsable(s) && CaReady(s, ClientCaKey(), ClientCaCrt()) && StoreUsable(s, TruststorePath) ==>
                  r.Done?)
  {
    var r0 := if ClientDir in s.dirs then Done(s) else MakeDirs(s, ClientDir);
    if r0.Done? {
      ClientSetupFirstTime(r0.fs);
    }
  }

  /** With a certificate already trusted as `client` the run fails; once
      the directory and the client CA are usable it fails at that import,
      after regenerating the key, and leaves the signing request behind. */
  lemma ClientCertRefusesTrusted(s: State)
    requires ClientTrusted(s)
    ensures var r := GenerateClientCert(s);
            && r.Failed?
            && (ClientDirUsable(s) && CaReady(s, ClientCaKey(), ClientCaCrt()) ==>
                  r.error == AliasExists(TruststorePath, ClientAlias) && ClientCsr() in r.fs.files)
  {
    var r0 := if ClientDir in s.dirs then Done(s) else MakeDirs(s, ClientDir);
    if r0.Done? {
      ClientSetupRefusesTrusted(r0.fs);
    }
  }

  /** After a complete setup with `client` trusted, a second setup fails at
      that import having written a certificate for a newly drawn key, while
      the truststore still trusts the old certificate under `client`. */
  lemma SetupAgainKeepsOldTrust(t: State)
    requires ClientComplete(t) && ClientTrusted(t)
    ensures var u := ClientSetup(t);
            && u.Failed?
            && HoldsCert(u.fs, ClientCrt()) && t.nextKey <= u.fs.files[ClientCrt()].cert.key
            && HasAlias(u.fs, TruststorePath, ClientAlias)
            && Entries(u.fs, TruststorePath)[ClientAlias] == Entries(t, TruststorePath)[ClientAlias]
  {
    ClientPaths();
    var r1 := ClientKeyAndCert(t);
    KeyAndCertKeepTrust(t);
    assert r1.Done?;
    var r4 := EnsureTruststoreWithClientCa(r1.fs, ClientCaCrt());
    assert r4 == Done(r1.fs);
    assert ClientSetup(t) == KeytoolImportCert(r1.fs, TruststorePath, ClientAlias, ClientCrt());
  }

  /** Once a first client setup has succeeded, running it again fails at
      the unguarded import of alias `client`: the key has been replaced by
      a new one, the new certificate is not the one trusted as `client`,
      and the signing request is left behind. */
  lemma ClientRerunFails(s: State)
    requires GenerateClientCert(s).Done?
    requires !HasAlias(s, TruststorePath, ClientAlias)
    ensures var t := GenerateClientCert(s).fs;
            var u := GenerateClientCert(t);
            && u.Failed? && u.error == AliasExists(TruststorePath, ClientAlias)
            && ClientCsr() in u.fs.files
            && u.fs.files[ClientKey()] != t.files[ClientKey()]
            && HoldsCert(u.fs, ClientCrt()) && HasAlias(u.fs, TruststorePath, ClientAlias)
            && Entries(u.fs, TruststorePath)[ClientAlias] != TrustedCert(u.fs.files[ClientCrt()].cert)
  {
    var t := GenerateClientCert(s).fs;
    ClientCertFirstTime(s);
    assert ClientDirUsable(t);
    assert CaReady(t, ClientCaKey(), ClientCaCrt());
    ClientCertRefusesTrusted(t);
    SetupAgainKeepsOldTrust(t);
    assert GenerateClientCert(t) == ClientSetup(t);
  }
}
