/** Server provisioning: `generate_server_cert` for one node and the loop
    over the node list in `main`.

    The skip test is `isdir(<n>) and isfile(<n>/<n>.jks)`: a node whose
    directory exists without its keystore is processed in full, and a node
    whose keystore exists is skipped entirely, whatever else is missing.
 */
module Server {
  import opened Paths
  import opened Artifacts
  import opened Tools
  import opened Provision

  /** generate_tls.py:157-171: a fresh key entry under alias `n` in the
      node keystore and a signing request for it. */
  function NodeKeyAndRequest(s: State, n: string): (r: Outcome)
    ensures r.fs.dirs == s.dirs
    ensures Frame(s, r.fs, {JksPath(n), CsrPath(n)})
    ensures s.files.Keys <= r.fs.files.Keys
    ensures r.Done? ==> r.fs.nextKey == s.nextKey + 1 && JksPath(n) in r.fs.files
    ensures r.Done? ==> CsrPath(n) in r.fs.files && r.fs.files[CsrPath(n)] == RequestFile(n, s.nextKey)
    ensures JksPath(n) !in s.files ==>
              && r.Done?
              && Entries(r.fs, JksPath(n)).Keys == {n}
              && Entries(r.fs, JksPath(n))[n].KeyEntry?
              && Entries(r.fs, JksPath(n))[n].key == s.nextKey
  {
    RequestIsNotJks(n);
    var s1 :- KeytoolGenKeyPair(s, JksPath(n), n, n);
    KeytoolCertReq(s1, JksPath(n), n, CsrPath(n))
  }

  /** generate_tls.py:180-192: the CA certificate imported as trusted under
      `rootCa-<n>`, then the signed certificate as the reply for the key
      entry `n`. */
  function ImportNodeCerts(s: State, n: string): (r: Outcome)
    ensures r.fs.dirs == s.dirs && r.fs.nextKey == s.nextKey
    ensures Frame(s, r.fs, {JksPath(n)})
    ensures s.files.Keys <= r.fs.files.Keys
    ensures r.Done? ==> JksPath(n) in r.fs.files
    ensures
      var e := Entries(s, JksPath(n));
      && e.Keys == {n} && e[n].KeyEntry?
      && HoldsCert(s, NodeCaCrt(n)) && HoldsCert(s, CrtSignedPath(n))
      && s.files[CrtSignedPath(n)].cert.key == e[n].key
      && s.files[CrtSignedPath(n)].cert.subject == n
      && Issues(s.files[NodeCaCrt(n)].cert, s.files[CrtSignedPath(n)].cert)
      ==> r.Done? && NodeKeystore(r.fs, n, s.files[NodeCaCrt(n)].cert)
  {
    ImportSourcesAreNotJks(n);
    var s4 :- KeytoolImportCert(s, JksPath(n), NodeCaAlias(n), NodeCaCrt(n));
    assert Entries(s4, JksPath(n)).Keys == Entries(s, JksPath(n)).Keys + {NodeCaAlias(n)};
    KeytoolImportCert(s4, JksPath(n), n, CrtSignedPath(n))
  }

  /** generate_tls.py:153-192: key entry, request, signature by the node's
      CA, then both imports, in that order (keytool needs the issuer in the
      store before it accepts the reply). */
  function BuildNodeKeystore(s: State, n: string): (r: Outcome)
    ensures r.fs.dirs == s.dirs
    ensures Frame(s, r.fs, {JksPath(n), CsrPath(n), CrtSignedPath(n), SerialFor(NodeCaCrt(n))})
    ensures s.files.Keys <= r.fs.files.Keys
    ensures r.Done? ==> r.fs.nextKey == s.nextKey + 1
    ensures r.Done? ==> JksPath(n) in r.fs.files && CsrPath(n) in r.fs.files
    ensures r.Done? ==> CaPair(s, NodeCaKey(n), NodeCaCrt(n))
    ensures JksPath(n) !in s.files && CaPair(s, NodeCaKey(n), NodeCaCrt(n)) ==>
              r.Done? && NodeKeystore(r.fs, n, s.files[NodeCaCrt(n)].cert)
  {
    BuildPaths(n);
    var r2 := NodeKeyAndRequest(s, n);
    if r2.Failed? then r2 else
    var s2 := r2.fs;
    assert At(s2, NodeCaCrt(n)) == At(s, NodeCaCrt(n)) && At(s2, NodeCaKey(n)) == At(s, NodeCaKey(n));
    var r3 := OpensslSignRequest(s2, CsrPath(n), NodeCaCrt(n), NodeCaKey(n), CrtSignedPath(n));
    if r3.Failed? then r3 else
    var s3 := r3.fs;
    assert At(s3, NodeCaCrt(n)) == At(s, NodeCaCrt(n));
    assert At(s3, JksPath(n)) == At(s2, JksPath(n)) && At(s3, CsrPath(n)) == At(s2, CsrPath(n));
    ImportNodeCerts(s3, n)
  }

  /** generate_tls.py:151-192: the node's root CA, then its keystore. */
  function NodeCaAndKeystore(s: State, n: string): (r: Outcome)
    ensures r.fs.dirs == s.dirs
    ensures Frame(s, r.fs, NodeFiles(n))
    ensures s.files.Keys <= r.fs.files.Keys
    ensures r.Done? ==> r.fs.nextKey > s.nextKey
    ensures r.Done? ==> JksPath(n) in r.fs.files && CsrPath(n) in r.fs.files && HoldsCert(r.fs, NodeCaCrt(n))
    ensures r.Done? && JksPath(n) !in s.files ==> NodeTrustsOwnCa(r.fs, n)
    ensures JksPath(n) !in s.files && CaReady(s, NodeCaKey(n), NodeCaCrt(n)) ==> r.Done?
    ensures r.Done? && !(NodeCaKey(n) in s.files && NodeCaCrt(n) in s.files) ==>
              r.fs.files[NodeCaCrt(n)].cert.key == s.nextKey
  {
    BuildPaths(n);
    var ca := EnsureNodeRootCa(s, n);
    var r1 := BuildNodeKeystore(ca.fs, n);
    assert At(r1.fs, NodeCaCrt(n)) == At(ca.fs, NodeCaCrt(n));
    r1
  }

  /** generate_tls.py:194-197: the node's CA anchored in the truststore,
      then the signing request removed. */
  function AnchorAndCleanUp(s: State, n: string): (r: Outcome)
    ensures r.fs.dirs == s.dirs && r.fs.nextKey == s.nextKey
    ensures Frame(s, r.fs, {TruststorePath, CsrPath(n)})
    ensures s.files.Keys - {CsrPath(n)} <= r.fs.files.Keys
    ensures TrustGrows(s, r.fs, {NodeCaAlias(n)})
    ensures r.Done? ==> CsrPath(n) !in r.fs.files && Anchored(r.fs, n)
    ensures CsrPath(n) in s.files && HoldsCert(s, NodeCaCrt(n)) && StoreUsable(s, TruststorePath) ==> r.Done?
  {
    AnchorPaths(n);
    var r1 := EnsureTruststoreWithNodeCa(s, n, NodeCaCrt(n));
    if r1.Failed? then r1 else
    var r2 := RemoveFile(r1.fs, CsrPath(n));
    assert At(r2.fs, TruststorePath) == At(r1.fs, TruststorePath);
    TrustUntouched(r1.fs, r2.fs);
    TrustGrowsTrans(s, r1.fs, r2.fs, {NodeCaAlias(n)}, {});
    assert {NodeCaAlias(n)} + {} == {NodeCaAlias(n)};
    r2
  }

  /** An anchor the step has to import is the node's CA certificate; a
      truststore file that is not a keystore fails the step before
      anything is written. */
  lemma AnchorIsNodeCa(s: State, n: string)
    ensures var r := AnchorAndCleanUp(s, n);
            && (r.Done? && !Anchored(s, n) ==>
                  HoldsCert(s, NodeCaCrt(n))
                  && Entries(r.fs, TruststorePath)[NodeCaAlias(n)] == TrustedCert(s.files[NodeCaCrt(n)].cert))
            && (!StoreUsable(s, TruststorePath) ==> r.Failed? && r.fs == s)
  {
    AnchorPaths(n);
    var r1 := EnsureTruststoreWithNodeCa(s, n, NodeCaCrt(n));
    if r1.Done? {
      var r2 := RemoveFile(r1.fs, CsrPath(n));
      assert At(r2.fs, TruststorePath) == At(r1.fs, TruststorePath);
    }
  }

  /** A step confined to node `n`'s files creates no other node's
      keystore. */
  lemma FrameKeepsOtherKeystores(s: State, t: State, n: string)
    requires Frame(s, t, NodeFiles(n) + {TruststorePath})
    ensures forall m | m != n :: JksPath(m) in t.files ==> JksPath(m) in s.files
  {
    forall m | m != n
      ensures JksPath(m) in t.files ==> JksPath(m) in s.files
    {
      OtherKeystore(n, m);
      assert At(t, JksPath(m)) == At(s, JksPath(m));
    }
  }

  /** generate_tls.py:150-198: root CA and keystore, the truststore
      anchor, and the signing request removed at the end. */
  function ProvisionNode(s: State, n: string): (r: Outcome)
    ensures r.fs.dirs == s.dirs
    ensures Frame(s, r.fs, NodeFiles(n) + {TruststorePath})
    ensures OnlyUnder(s, r.fs, n, TruststorePath)
    ensures s.files.Keys - {CsrPath(n)} <= r.fs.files.Keys
    ensures forall m :: KeystoreDone(s, m) ==> KeystoreDone(r.fs, m)
    ensures forall m | m != n :: JksPath(m) in r.fs.files ==> JksPath(m) in s.files
    ensures TrustGrows(s, r.fs, {NodeCaAlias(n)})
    ensures r.Done? ==> r.fs.nextKey > s.nextKey
    ensures r.Done? ==> JksPath(n) in r.fs.files && CsrPath(n) !in r.fs.files && Anchored(r.fs, n)
    ensures r.Done? && JksPath(n) !in s.files ==> NodeTrustsOwnCa(r.fs, n)
    ensures JksPath(n) !in s.files && CaReady(s, NodeCaKey(n), NodeCaCrt(n)) && StoreUsable(s, TruststorePath) ==>
              r.Done?
  {
    NodeFilesInDir(n);
    AnchorPaths(n);
    NoJksIsCsr(n);
    var r1 := NodeCaAndKeystore(s, n);
    assert At(r1.fs, TruststorePath) == At(s, TruststorePath);
    TrustUntouched(s, r1.fs);
    if r1.Failed? then
      FrameWithin(s, r1.fs, NodeFiles(n), n, TruststorePath);
      FrameKeepsOtherKeystores(s, r1.fs, n);
      r1
    else
      var r2 := AnchorAndCleanUp(r1.fs, n);
      TrustGrowsTrans(s, r1.fs, r2.fs, {}, {NodeCaAlias(n)});
      assert {} + {NodeCaAlias(n)} == {NodeCaAlias(n)};
      FrameTrans(s, r1.fs, r2.fs, NodeFiles(n), {TruststorePath, CsrPath(n)});
      FrameSub(s, r2.fs, NodeFiles(n) + {TruststorePath, CsrPath(n)}, NodeFiles(n) + {TruststorePath});
      FrameWithin(s, r2.fs, NodeFiles(n) + {TruststorePath}, n, TruststorePath);
      FrameKeepsOtherKeystores(s, r2.fs, n);
      assert At(r2.fs, JksPath(n)) == At(r1.fs, JksPath(n)) && At(r2.fs, NodeCaCrt(n)) == At(r1.fs, NodeCaCrt(n));
      r2
  }

  /** A missing anchor is imported from the CA certificate the keystore
      was built on, and a CA created by this run carries the key drawn
      first. */
  lemma ProvisionNodeAnchorsOwnCa(s: State, n: string)
    ensures var r := ProvisionNode(s, n);
            && (r.Done? ==> HoldsCert(r.fs, NodeCaCrt(n)))
            && (r.Done? && !Anchored(s, n) ==>
                  Entries(r.fs, TruststorePath)[NodeCaAlias(n)] == TrustedCert(r.fs.files[NodeCaCrt(n)].cert))
            && (r.Done? && !(NodeCaKey(n) in s.files && NodeCaCrt(n) in s.files) ==> r.fs.files[NodeCaCrt(n)].cert.key == s.nextKey)
  {
    NodeFilesInDir(n);
    AnchorPaths(n);
    var r1 := NodeCaAndKeystore(s, n);
    assert At(r1.fs, TruststorePath) == At(s, TruststorePath);
    if r1.Done? {
      var r2 := AnchorAndCleanUp(r1.fs, n);
      AnchorIsNodeCa(r1.fs, n);
      assert At(r2.fs, NodeCaCrt(n)) == At(r1.fs, NodeCaCrt(n));
    }
  }

  /** generate_server_cert (generate_tls.py:138-198). It succeeds without
      changing anything exactly when the node's directory and keystore both
      exist; a directory without the keystore is processed in full, and a
      file in the way of the directory fails `os.makedirs` with nothing
      written. A clean node with a simple name is provisioned whenever the
      truststore can be opened. A run that provisions the node and finds no
      anchor imports the CA certificate its keystore was built on. */
  function GenerateServerCert(s: State, n: string): (r: Outcome)
    ensures r == Done(s) <==> KeystoreDone(s, n)
    ensures r.Done? ==> KeystoreDone(r.fs, n)
    ensures r.Done? && !KeystoreDone(s, n) ==>
              Anchored(r.fs, n) && CsrPath(n) !in r.fs.files && s.nextKey < r.fs.nextKey
    ensures SimpleName(n) && Unprovisioned(s, n) && StoreUsable(s, TruststorePath) ==> r.Done?
    ensures r.Done? && !KeystoreDone(s, n) && !Anchored(s, n) ==>
              HoldsCert(r.fs, NodeCaCrt(n))
              && Entries(r.fs, TruststorePath)[NodeCaAlias(n)] == TrustedCert(r.fs.files[NodeCaCrt(n)].cert)
    ensures n != [] && n !in s.dirs && n in s.files ==> r == Failed(s, FileInTheWay(n))
  {
    if n in s.dirs && JksPath(n) in s.files then Done(s)
    else
      var r0 := if n in s.dirs then Done(s) else MakeDirs(s, n);
      if r0.Failed? then r0
      else
        UnprovisionedLacksNodeFiles(s, n);
        ProvisionNodeAnchorsOwnCa(r0.fs, n);
        ProvisionNode(r0.fs, n)
  }

  /** A fresh keystore is built around the node's own CA certificate. */
  lemma ServerCertTrustsOwnCa(s: State, n: string)
    ensures var r := GenerateServerCert(s, n);
            r.Done? && JksPath(n) !in s.files ==> NodeTrustsOwnCa(r.fs, n)
  {
  }

  /** `os.makedirs` followed by a step confined to `<n>/` and the
      truststore is itself so confined. */
  lemma MakeDirsThenScope(s: State, t: State, u: State, n: string)
    requires s.dirs <= t.dirs <= s.dirs + {n} && t.files == s.files
    requires u.dirs == t.dirs && OnlyUnder(t, u, n, TruststorePath)
    requires t.files.Keys - {CsrPath(n)} <= u.files.Keys && TrustGrows(t, u, {NodeCaAlias(n)})
    ensures s.dirs <= u.dirs <= s.dirs + {n}
    ensures OnlyUnder(s, u, n, TruststorePath)
    ensures s.files.Keys - {CsrPath(n)} <= u.files.Keys
    ensures TrustGrows(s, u, {NodeCaAlias(n)})
  {
    OnlyUnderSameFiles(s, t, n, TruststorePath);
    TrustUntouched(s, t);
    OnlyUnderTrans(s, t, u, n, TruststorePath);
    TrustGrowsTrans(s, t, u, {}, {NodeCaAlias(n)});
    assert {} + {NodeCaAlias(n)} == {NodeCaAlias(n)};
  }

  /** generate_server_cert writes only inside `<n>/` and the shared
      truststore, creates no directory but `<n>`, removes nothing but the
      signing request, and only ever adds `rootCa-<n>` to the truststore. */
  lemma ServerCertScope(s: State, n: string)
    ensures var r := GenerateServerCert(s, n);
            && s.dirs <= r.fs.dirs <= s.dirs + {n}
            && OnlyUnder(s, r.fs, n, TruststorePath)
            && s.files.Keys - {CsrPath(n)} <= r.fs.files.Keys
            && TrustGrows(s, r.fs, {NodeCaAlias(n)})
  {
    var r0 := if n in s.dirs then Done(s) else MakeDirs(s, n);
    if KeystoreDone(s, n) || r0.Failed? {
      OnlyUnderSameFiles(s, s, n, TruststorePath);
      TrustUntouched(s, s);
    } else {
      MakeDirsThenScope(s, r0.fs, ProvisionNode(r0.fs, n).fs, n);
    }
  }

  /** Nodes that counted as provisioned still do, no other node starts to
      count as provisioned, and key material is only ever drawn. */
  lemma ServerCertKeystores(s: State, n: string)
    ensures var r := GenerateServerCert(s, n);
            && (forall m :: KeystoreDone(s, m) ==> KeystoreDone(r.fs, m))
            && (forall m | m != n :: KeystoreDone(r.fs, m) ==> KeystoreDone(s, m))
            && (r.Done? ==> s.nextKey <= r.fs.nextKey)
  {
  }

  // ---------------------------------------------------------------------
  // The server loop of `main` (generate_tls.py:221-222)

  /** The truststore aliases the nodes in `nodes` may add. */
  function NodeAnchors(nodes: seq<string>): set<string>
  {
    if nodes == [] then {} else {NodeCaAlias(nodes[0])} + NodeAnchors(nodes[1..])
  }

  /** `p` lies in none of the node directories. */
  ghost predicate OutsideAll(p: Path, nodes: seq<string>)
  {
    forall i | 0 <= i < |nodes| :: !InDir(p, nodes[i])
  }

  predicate AllDone(s: State, nodes: seq<string>)
  {
    forall i | 0 <= i < |nodes| :: KeystoreDone(s, nodes[i])
  }

  lemma AnchorsPersist(s: State, t: State, added: set<string>, n: string)
    requires TrustGrows(s, t, added)
    ensures Anchored(s, n) ==> Anchored(t, n)
  {
  }

  /** `for ip in args.node_ips: generate_server_cert(ip, ...)`: the nodes
      in order, stopping at the first failure. After a complete run every
      node counts as provisioned, and no node that did before stops
      counting. */
  function GenerateServers(s: State, nodes: seq<string>): (r: Outcome)
    ensures r.Done? ==> AllDone(r.fs, nodes)
    ensures forall m :: KeystoreDone(s, m) ==> KeystoreDone(r.fs, m)
    decreases |nodes|
  {
    if nodes == [] then Done(s)
    else
      var r1 := GenerateServerCert(s, nodes[0]);
      ServerCertKeystores(s, nodes[0]);
      if r1.Failed? then r1
      else
        var r := GenerateServers(r1.fs, nodes[1..]);
        assert forall i | 1 <= i < |nodes| :: nodes[i] == nodes[1..][i - 1];
        r
  }

  /** Key material is only ever drawn, never returned. */
  lemma {:induction false} ServersDrawKeys(s: State, nodes: seq<string>)
    ensures var r := GenerateServers(s, nodes); r.Done? ==> s.nextKey <= r.fs.nextKey
    decreases |nodes|
  {
    if nodes != [] {
      var r1 := GenerateServerCert(s, nodes[0]);
      ServerCertKeystores(s, nodes[0]);
      if r1.Done? {
        ServersDrawKeys(r1.fs, nodes[1..]);
      }
    }
  }

  /** The loop succeeds without changing anything exactly when every
      listed node already has its directory and keystore. */
  lemma {:induction false} ServersNoOpIff(s: State, nodes: seq<string>)
    ensures GenerateServers(s, nodes) == Done(s) <==> AllDone(s, nodes)
    decreases |nodes|
  {
    if nodes != [] {
      var r1 := GenerateServerCert(s, nodes[0]);
      assert forall i | 1 <= i < |nodes| :: nodes[i] == nodes[1..][i - 1];
      if r1.Done? {
        ServersNoOpIff(r1.fs, nodes[1..]);
        ServersDrawKeys(r1.fs, nodes[1..]);
      }
    }
  }

  /** The truststore gains at most the listed nodes' anchors and keeps
      every entry it had. */
  lemma {:induction false} ServersGrowTrust(s: State, nodes: seq<string>)
    ensures TrustGrows(s, GenerateServers(s, nodes).fs, NodeAnchors(nodes))
    decreases |nodes|
  {
    if nodes == [] {
      TrustUntouched(s, s);
    } else {
      var r1 := GenerateServerCert(s, nodes[0]);
      ServerCertScope(s, nodes[0]);
      var a := {NodeCaAlias(nodes[0])};
      assert NodeAnchors(nodes) == a + NodeAnchors(nodes[1..]);
      if r1.Failed? {
        TrustGrowsSub(s, r1.fs, a, NodeAnchors(nodes));
      } else {
        ServersGrowTrust(r1.fs, nodes[1..]);
        TrustGrowsTrans(s, r1.fs, GenerateServers(r1.fs, nodes[1..]).fs, a, NodeAnchors(nodes[1..]));
      }
    }
  }

  /** Every node a complete run provisioned is anchored in the truststore
      at the end of the run. */
  lemma {:induction false} ServersAnchor(s: State, nodes: seq<string>)
    ensures var r := GenerateServers(s, nodes);
            r.Done? ==> forall i | 0 <= i < |nodes| :: KeystoreDone(s, nodes[i]) || Anchored(r.fs, nodes[i])
    decreases |nodes|
  {
    if nodes != [] {
      var r1 := GenerateServerCert(s, nodes[0]);
      ServerCertKeystores(s, nodes[0]);
      if r1.Done? {
        var r := GenerateServers(r1.fs, nodes[1..]);
        ServersAnchor(r1.fs, nodes[1..]);
        ServersGrowTrust(r1.fs, nodes[1..]);
        forall i | 0 <= i < |nodes|
          ensures r.Done? ==> KeystoreDone(s, nodes[i]) || Anchored(r.fs, nodes[i])
        {
          if i == 0 {
            AnchorsPersist(r1.fs, r.fs, NodeAnchors(nodes[1..]), nodes[0]);
          } else {
            assert nodes[i] == nodes[1..][i - 1];
            if nodes[i] == nodes[0] {
              AnchorsPersist(r1.fs, r.fs, NodeAnchors(nodes[1..]), nodes[0]);
            }
          }
        }
      }
    }
  }

  /** Nothing outside the node directories changes except the shared
      truststore. */
  lemma {:induction false} ServersStayInNodeDirs(s: State, nodes: seq<string>, p: Path)
    requires OutsideAll(p, nodes) && p != TruststorePath
    ensures At(GenerateServers(s, nodes).fs, p) == At(s, p)
    decreases |nodes|
  {
    if nodes != [] {
      var r1 := GenerateServerCert(s, nodes[0]);
      ServerCertScope(s, nodes[0]);
      assert !InDir(p, nodes[0]);
      if r1.Done? {
        assert forall i | 0 <= i < |nodes| - 1 :: nodes[1..][i] == nodes[i + 1];
        ServersStayInNodeDirs(r1.fs, nodes[1..], p);
      }
    }
  }

  /** Provisioning simple node `n` leaves another simple node `m` as
      untouched as it found it. */
  lemma StaysUnprovisioned(s: State, t: State, n: string, m: string)
    requires SimpleName(n) && SimpleName(m) && n != m
    requires OnlyUnder(s, t, n, TruststorePath)
    requires Unprovisioned(s, m)
    ensures Unprovisioned(t, m)
  {
    OutsideSimpleDir(n, m);
    OutsideSimpleDir(m, m);
    assert At(t, m) == At(s, m);
    forall p | p in t.files
      ensures !InDir(p, m)
    {
      if InDir(p, n) {
        DisjointDirs(n, m, p);
      } else if p != TruststorePath {
        assert At(t, p) == At(s, p);
      }
    }
  }

  /** Every node is either provisioned already or has nothing of its own
      on disk yet. */
  ghost predicate Provisionable(s: State, nodes: seq<string>)
  {
    forall i | 0 <= i < |nodes| :: SimpleName(nodes[i]) && (KeystoreDone(s, nodes[i]) || Unprovisioned(s, nodes[i]))
  }

  /** On a clean working directory (or one where some nodes are complete)
      with simple node names and a usable truststore, the server run
      succeeds; repeated names are skipped the second time. */
  lemma {:induction false} ProvisionableSucceeds(s: State, nodes: seq<string>)
    requires Provisionable(s, nodes) && StoreUsable(s, TruststorePath)
    ensures GenerateServers(s, nodes).Done?
    decreases |nodes|
  {
    if nodes != [] {
      var n := nodes[0];
      var r1 := GenerateServerCert(s, n);
      ServerCertScope(s, n);
      ServerCertKeystores(s, n);
      assert r1.Done?;
      forall i | 0 <= i < |nodes| - 1
        ensures SimpleName(nodes[1..][i]) && (KeystoreDone(r1.fs, nodes[1..][i]) || Unprovisioned(r1.fs, nodes[1..][i]))
      {
        var m := nodes[1..][i];
        assert m == nodes[i + 1];
        if !KeystoreDone(s, m) && m != n {
          StaysUnprovisioned(s, r1.fs, n, m);
        }
      }
      ProvisionableSucceeds(r1.fs, nodes[1..]);
    }
  }

  /** A run that dies at the truststore import (here because the
      truststore file is not a keystore) leaves the node's directory and
      keystore behind without its anchor. Every later run skips the node on
      its keystore, so no rerun repairs the missing anchor. */
  lemma InterruptedNodeStaysUnanchored(s: State, n: string)
    requires SimpleName(n) && Unprovisioned(s, n) && !StoreUsable(s, TruststorePath)
    ensures var r := GenerateServerCert(s, n);
            && r.Failed? && KeystoreDone(r.fs, n) && !Anchored(r.fs, n)
            && GenerateServerCert(r.fs, n) == Done(r.fs)
  {
    NodeFilesInDir(n);
    AnchorPaths(n);
    UnprovisionedLacksNodeFiles(s, n);
    var r0 := if n in s.dirs then Done(s) else MakeDirs(s, n);
    assert r0.Done? && n in r0.fs.dirs;
    var r1 := NodeCaAndKeystore(r0.fs, n);
    assert r1.Done?;
    assert At(r1.fs, TruststorePath) == At(s, TruststorePath);
    AnchorIsNodeCa(r1.fs, n);
  }

  /** The anchor test looks at the alias only: when the truststore still
      holds `rootCa-<n>` from an earlier CA (the node's directory was
      deleted and the node provisioned again), the run succeeds and keeps
      the old anchor, which did not issue the node's new certificate. */
  lemma StaleAnchorSurvives(s: State, n: string)
    requires SimpleName(n) && Unprovisioned(s, n) && StoreUsable(s, TruststorePath) && Anchored(s, n)
    requires Entries(s, TruststorePath)[NodeCaAlias(n)].cert.key < s.nextKey
    ensures var r := GenerateServerCert(s, n);
            && r.Done? && NodeTrustsOwnCa(r.fs, n)
            && Entries(r.fs, TruststorePath)[NodeCaAlias(n)] == Entries(s, TruststorePath)[NodeCaAlias(n)]
            && !Issues(Entries(r.fs, TruststorePath)[NodeCaAlias(n)].cert, Entries(r.fs, JksPath(n))[n].cert)
  {
    UnprovisionedLacksNodeFiles(s, n);
    ServerCertScope(s, n);
    var r0 := if n in s.dirs then Done(s) else MakeDirs(s, n);
    ProvisionNodeAnchorsOwnCa(r0.fs, n);
  }
}
