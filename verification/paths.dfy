/** Path and alias naming of the provisioning script.

    Every artifact the script touches has a name derived deterministically
    from the node address (or from the fixed client directory); this module
    defines those names once and proves the facts about them that the
    idempotency arguments need: which directory a path lies in, and that
    artifacts of different kinds never share a path.
 */
module Paths {

  datatype Option<+T> = None | Some(value: T)

  type Path = string

  /** `os.path.join(dir, name)` for a relative `name`: a separator is
      inserted unless `dir` is empty or already ends with one. */
  function Join(dir: Path, name: Path): Path
  {
    if dir == [] || dir[|dir| - 1] == '/' then dir + name else dir + "/" + name
  }

  /** The prefix every path joined onto `dir` starts with. */
  function DirPrefix(dir: Path): Path
  {
    Join(dir, "")
  }

  predicate InDir(p: Path, dir: Path)
  {
    DirPrefix(dir) <= p
  }

  predicate EndsWith(p: Path, suffix: string)
  {
    |suffix| <= |p| && p[|p| - |suffix|..] == suffix
  }

  /** A node address the script can provision from scratch: `os.makedirs`
      refuses the empty name, and a separator or the truststore's own name
      would make the node's directory collide with other artifacts. */
  predicate SimpleName(n: string)
  {
    n != [] && '/' !in n && n != TruststorePath
  }

  // ---------------------------------------------------------------------
  // Names used by the script

  const TruststorePath: Path := "generic-server-truststore.jks"
  const ClientDir: Path := "client"

  function NodeCaAlias(n: string): string { "rootCa-" + n }
  const ClientCaAlias: string := "rootCa-client"
  const ClientAlias: string := "client"
  /** Common name on the client's signing request. */
  const ClientSubject: string := "cqlsh-client"

  function NodeCaKey(n: string): Path { Join(n, NodeCaAlias(n) + ".key") }
  function NodeCaCrt(n: string): Path { Join(n, NodeCaAlias(n) + ".crt") }
  function JksPath(n: string): Path { Join(n, n + ".jks") }
  function CsrPath(n: string): Path { Join(n, n + ".csr") }
  function CrtSignedPath(n: string): Path { Join(n, n + ".crt_signed") }

  function ClientCaKey(): Path { Join(ClientDir, ClientCaAlias + ".key") }
  function ClientCaCrt(): Path { Join(ClientDir, ClientCaAlias + ".crt") }
  function ClientKey(): Path { Join(ClientDir, "client.key") }
  function ClientCsr(): Path { Join(ClientDir, "client.csr") }
  function ClientCrt(): Path { Join(ClientDir, "client.crt") }
  /** Where `-CAcreateserial` keeps the client CA's serial number. */
  function ClientSrl(): Path { Join(ClientDir, ClientCaAlias + ".srl") }

  // ---------------------------------------------------------------------
  // The serial file written by `openssl x509 -CAcreateserial`

  /** Position of the last occurrence of `c` in `s`, if any. */
  function LastIndexOf(s: string, c: char): (r: Option<nat>)
    ensures r.Some? ==> r.value < |s| && s[r.value] == c
    ensures r.Some? ==> forall j | r.value < j < |s| :: s[j] != c
    ensures r.None? ==> forall j | 0 <= j < |s| :: s[j] != c
    decreases |s|
  {
    if |s| == 0 then None
    else if s[|s| - 1] == c then Some(|s| - 1)
    else LastIndexOf(s[..|s| - 1], c)
  }

  /** OpenSSL names the serial file after the CA certificate: the text
      after the last '.' is replaced by "srl" (or ".srl" is appended when
      there is no dot). */
  function SerialFor(caCrt: Path): Path
  {
    match LastIndexOf(caCrt, '.')
    case Some(i) => caCrt[..i] + ".srl"
    case None => caCrt + ".srl"
  }

  /** For a certificate named `<stem>.crt` the serial file is `<stem>.srl`,
      whatever dots the stem itself contains (node addresses have three). */
  lemma SerialForCrt(stem: Path)
    ensures SerialFor(stem + ".crt") == stem + ".srl"
  {
    var p := stem + ".crt";
    assert p[|stem|] == '.';
    assert p[|stem| + 1] == 'c' && p[|stem| + 2] == 'r' && p[|stem| + 3] == 't';
    var r := LastIndexOf(p, '.');
    assert r.Some?;
    assert r.value == |stem|;
    assert p[..|stem|] == stem;
  }

  // ---------------------------------------------------------------------
  // Facts about joined paths

  lemma JoinFacts(dir: Path, name: Path)
    ensures Join(dir, name) == DirPrefix(dir) + name
    ensures InDir(Join(dir, name), dir)
    ensures EndsWith(Join(dir, name), name)
  {
    assert Join(dir, name) == DirPrefix(dir) + name;
    assert Join(dir, name)[|Join(dir, name)| - |name|..] == name;
  }

  /** A non-empty directory name contributes a separator to every path
      joined onto it. */
  lemma {:induction false} SeparatorInPrefix(dir: Path)
    requires dir != []
    ensures '/' in DirPrefix(dir)
  {
    if dir[|dir| - 1] == '/' {
      assert DirPrefix(dir)[|dir| - 1] == '/';
    } else {
      assert DirPrefix(dir)[|dir|] == '/';
    }
  }

  lemma PrefixKeepsMember(a: Path, b: Path, c: char)
    requires a <= b
    requires c in a
    ensures c in b
  {
    var i :| 0 <= i < |a| && a[i] == c;
    assert b[i] == c;
  }

  lemma DifferentSuffixes(p: Path, q: Path, x: string, y: string)
    requires |x| == |y| && x != y
    requires EndsWith(p, x) && EndsWith(q, y)
    ensures p != q
  {
  }

  /** A file named `<base><ext>` inside `dir`. */
  lemma JoinedFile(dir: Path, base: string, ext: string)
    ensures InDir(Join(dir, base + ext), dir)
    ensures EndsWith(Join(dir, base + ext), ext)
  {
    JoinFacts(dir, base + ext);
    var p := Join(dir, base + ext);
    assert p == DirPrefix(dir) + base + ext;
    assert p[|p| - |ext|..] == ext;
  }

  lemma JoinSplit(dir: Path, a: string, b: string)
    ensures Join(dir, a + b) == (DirPrefix(dir) + a) + b
  {
    JoinFacts(dir, a + b);
    assert DirPrefix(dir) + (a + b) == (DirPrefix(dir) + a) + b;
  }

  lemma NodeSerial(n: string)
    ensures SerialFor(NodeCaCrt(n)) == Join(n, NodeCaAlias(n) + ".srl")
  {
    var stem := DirPrefix(n) + NodeCaAlias(n);
    JoinSplit(n, NodeCaAlias(n), ".crt");
    JoinSplit(n, NodeCaAlias(n), ".srl");
    SerialForCrt(stem);
  }

  /** Every file the provisioning of node `n` may write or remove. */
  function NodeFiles(n: string): set<Path>
  {
    {NodeCaKey(n), NodeCaCrt(n), JksPath(n), CsrPath(n), CrtSignedPath(n), SerialFor(NodeCaCrt(n))}
  }

  lemma NodeFilesInDir(n: string)
    ensures forall q | q in NodeFiles(n) :: InDir(q, n) && q != TruststorePath
  {
    NodePaths(n);
  }

  /** Where the artifacts of node `n` live and how their names end; the
      CA's serial file sits next to the CA certificate. */
  lemma NodePathShapes(n: string)
    ensures InDir(NodeCaKey(n), n) && InDir(NodeCaCrt(n), n) && InDir(JksPath(n), n)
    ensures InDir(CsrPath(n), n) && InDir(CrtSignedPath(n), n)
    ensures SerialFor(NodeCaCrt(n)) == Join(n, NodeCaAlias(n) + ".srl")
    ensures InDir(SerialFor(NodeCaCrt(n)), n)
    ensures EndsWith(NodeCaKey(n), ".key") && EndsWith(NodeCaCrt(n), ".crt")
    ensures EndsWith(JksPath(n), ".jks") && EndsWith(CsrPath(n), ".csr")
    // "gned" is the last four characters of ".crt_signed", so that every
    // artifact is told apart by a four-character suffix (DifferentSuffixes)
    ensures EndsWith(CrtSignedPath(n), "gned") && EndsWith(SerialFor(NodeCaCrt(n)), ".srl")
  {
    JoinedFile(n, NodeCaAlias(n), ".key");
    JoinedFile(n, NodeCaAlias(n), ".crt");
    JoinedFile(n, NodeCaAlias(n), ".srl");
    JoinedFile(n, n, ".jks");
    JoinedFile(n, n, ".csr");
    assert n + ".crt_signed" == (n + ".crt_si") + "gned";
    JoinedFile(n, n + ".crt_si", "gned");
    NodeSerial(n);
  }

  /** The artifacts of node `n` are pairwise distinct and none of them is
      the shared truststore. */
  lemma NodePaths(n: string)
    ensures InDir(NodeCaKey(n), n) && InDir(NodeCaCrt(n), n) && InDir(JksPath(n), n)
    ensures InDir(CsrPath(n), n) && InDir(CrtSignedPath(n), n)
    ensures InDir(SerialFor(NodeCaCrt(n)), n)
    ensures NodeCaKey(n) != NodeCaCrt(n) && NodeCaKey(n) != JksPath(n) && NodeCaKey(n) != CsrPath(n)
    ensures NodeCaKey(n) != CrtSignedPath(n) && NodeCaKey(n) != SerialFor(NodeCaCrt(n))
    ensures NodeCaCrt(n) != JksPath(n) && NodeCaCrt(n) != CsrPath(n)
    ensures NodeCaCrt(n) != CrtSignedPath(n) && NodeCaCrt(n) != SerialFor(NodeCaCrt(n))
    ensures JksPath(n) != CsrPath(n) && JksPath(n) != CrtSignedPath(n) && JksPath(n) != SerialFor(NodeCaCrt(n))
    ensures CsrPath(n) != CrtSignedPath(n) && CsrPath(n) != SerialFor(NodeCaCrt(n))
    ensures CrtSignedPath(n) != SerialFor(NodeCaCrt(n))
    ensures TruststorePath != NodeCaKey(n) && TruststorePath != NodeCaCrt(n) && TruststorePath != JksPath(n)
    ensures TruststorePath != CsrPath(n) && TruststorePath != CrtSignedPath(n)
    ensures TruststorePath != SerialFor(NodeCaCrt(n))
  {
    NodePathShapes(n);
    var key, crt, jks, csr, signed, srl := NodeCaKey(n), NodeCaCrt(n), JksPath(n), CsrPath(n), CrtSignedPath(n), SerialFor(NodeCaCrt(n));
    var t := TruststorePath;
    assert EndsWith(t, ".jks");
    DifferentSuffixes(key, crt, ".key", ".crt");
    DifferentSuffixes(key, jks, ".key", ".jks");
    DifferentSuffixes(key, csr, ".key", ".csr");
    DifferentSuffixes(key, signed, ".key", "gned");
    DifferentSuffixes(key, srl, ".key", ".srl");
    DifferentSuffixes(crt, jks, ".crt", ".jks");
    DifferentSuffixes(crt, csr, ".crt", ".csr");
    DifferentSuffixes(crt, signed, ".crt", "gned");
    DifferentSuffixes(crt, srl, ".crt", ".srl");
    DifferentSuffixes(jks, csr, ".jks", ".csr");
    DifferentSuffixes(jks, signed, ".jks", "gned");
    DifferentSuffixes(jks, srl, ".jks", ".srl");
    DifferentSuffixes(csr, signed, ".csr", "gned");
    DifferentSuffixes(csr, srl, ".csr", ".srl");
    DifferentSuffixes(signed, srl, "gned", ".srl");
    DifferentSuffixes(t, key, ".jks", ".key");
    DifferentSuffixes(t, crt, ".jks", ".crt");
    DifferentSuffixes(t, csr, ".jks", ".csr");
    DifferentSuffixes(t, signed, ".jks", "gned");
    DifferentSuffixes(t, srl, ".jks", ".srl");
    JksIsNotTruststore(n);
  }

  // Narrow distinctness facts, one per provisioning stage, so that each
  // stage's proof sees only the path facts it needs.

  lemma RequestIsNotJks(n: string)
    ensures JksPath(n) != CsrPath(n)
  {
    NodePaths(n);
  }

  lemma BuildPaths(n: string)
    ensures NodeCaCrt(n) !in {JksPath(n), CsrPath(n), CrtSignedPath(n), SerialFor(NodeCaCrt(n))}
    ensures NodeCaKey(n) !in {JksPath(n), CsrPath(n)}
    ensures JksPath(n) !in {NodeCaKey(n), NodeCaCrt(n), CrtSignedPath(n), SerialFor(NodeCaCrt(n))}
    ensures CsrPath(n) !in {CrtSignedPath(n), SerialFor(NodeCaCrt(n))}
  {
    NodePaths(n);
  }

  lemma AnchorPaths(n: string)
    ensures TruststorePath !in {CsrPath(n), JksPath(n), NodeCaCrt(n)}
    ensures CsrPath(n) !in {JksPath(n), NodeCaCrt(n)}
  {
    NodePaths(n);
  }

  /** The files a node keystore import reads are not the keystore. */
  lemma ImportSourcesAreNotJks(n: string)
    ensures NodeCaCrt(n) != JksPath(n) && CrtSignedPath(n) != JksPath(n)
  {
    NodePathShapes(n);
    DifferentSuffixes(NodeCaCrt(n), JksPath(n), ".crt", ".jks");
    DifferentSuffixes(CrtSignedPath(n), JksPath(n), "gned", ".jks");
  }

  lemma JksIsNotTruststore(n: string)
    ensures JksPath(n) != TruststorePath
  {
    JoinFacts(n, n + ".jks");
    assert '/' !in TruststorePath;
    if n == [] {
      assert JksPath(n) == ".jks";
    } else {
      SeparatorInPrefix(n);
      PrefixKeepsMember(DirPrefix(n), JksPath(n), '/');
    }
  }

  /** The file that marks a node as provisioned is never the signing
      request any node's provisioning removes. */
  lemma JksIsNotCsr(n: string, m: string)
    ensures JksPath(n) != CsrPath(m)
  {
    NodePathShapes(n);
    NodePathShapes(m);
    DifferentSuffixes(JksPath(n), CsrPath(m), ".jks", ".csr");
  }

  lemma NoJksIsCsr(n: string)
    ensures forall m :: JksPath(m) != CsrPath(n)
  {
    forall m
      ensures JksPath(m) != CsrPath(n)
    {
      JksIsNotCsr(m, n);
    }
  }

  /** Different nodes never share a keystore path. */
  lemma JksInjective(m: string, n: string)
    requires JksPath(m) == JksPath(n)
    ensures m == n
  {
    JoinFacts(m, m + ".jks");
    JoinFacts(n, n + ".jks");
    assert |DirPrefix(m)| == |m| || |DirPrefix(m)| == |m| + 1;
    assert |DirPrefix(n)| == |n| || |DirPrefix(n)| == |n| + 1;
    assert |m| == |n|;
    assert DirPrefix(m)[..|m|] == m;
    assert DirPrefix(n)[..|n|] == n;
    assert JksPath(m)[..|m|] == m;
  }

  /** A keystore is none of the non-keystore files of a node. */
  lemma KeystoreIsNoOtherFile(n: string, m: string)
    ensures JksPath(m) != NodeCaKey(n) && JksPath(m) != NodeCaCrt(n) && JksPath(m) != CsrPath(n)
    ensures JksPath(m) != CrtSignedPath(n) && JksPath(m) != SerialFor(NodeCaCrt(n))
  {
    NodePathShapes(n);
    JoinedFile(m, m, ".jks");
    DifferentSuffixes(JksPath(m), NodeCaKey(n), ".jks", ".key");
    DifferentSuffixes(JksPath(m), NodeCaCrt(n), ".jks", ".crt");
    DifferentSuffixes(JksPath(m), CsrPath(n), ".jks", ".csr");
    DifferentSuffixes(JksPath(m), CrtSignedPath(n), ".jks", "gned");
    DifferentSuffixes(JksPath(m), SerialFor(NodeCaCrt(n)), ".jks", ".srl");
  }

  /** The keystore of node `m` is none of the files node `n` writes. */
  lemma OtherKeystore(n: string, m: string)
    requires m != n
    ensures JksPath(m) !in NodeFiles(n) && JksPath(m) != TruststorePath
  {
    KeystoreIsNoOtherFile(n, m);
    if JksPath(m) == JksPath(n) {
      JksInjective(m, n);
    }
    JksIsNotTruststore(m);
  }

  /** Two different simple node names have disjoint directories. */
  lemma DisjointDirs(n: string, m: string, p: Path)
    requires SimpleName(n) && SimpleName(m) && n != m
    requires InDir(p, n)
    ensures !InDir(p, m)
  {
    var k := |n|;
    assert DirPrefix(n) == n + "/";
    assert DirPrefix(m) == m + "/";
    assert p[k] == '/' && p[..k] == n;
    if |m| < k {
      assert p[|m|] == n[|m|] != '/';
      assert DirPrefix(m)[|m|] == '/';
    } else if |m| > k {
      assert m[k] != '/';
      assert DirPrefix(m)[k] == m[k];
    } else {
      var i :| 0 <= i < k && m[i] != n[i];
      assert DirPrefix(m)[i] == m[i] != p[i];
    }
  }

  /** The truststore lies outside every simple node directory, and so
      does every simple node name. */
  lemma OutsideSimpleDir(n: string, m: string)
    requires SimpleName(n)
    ensures !InDir(TruststorePath, n)
    ensures SimpleName(m) ==> !InDir(m, n)
  {
    assert DirPrefix(n) == n + "/";
    assert DirPrefix(n)[|n|] == '/';
    assert '/' !in TruststorePath;
    if |DirPrefix(n)| <= |TruststorePath| {
      assert TruststorePath[|n|] != '/';
    }
    if SimpleName(m) && |DirPrefix(n)| <= |m| {
      assert m[|n|] != '/';
    }
  }

  /** Different names joined onto the same directory give different
      paths. */
  lemma JoinInjective(dir: Path, a: Path, b: Path)
    requires a != b
    ensures Join(dir, a) != Join(dir, b)
  {
    JoinFacts(dir, a);
    JoinFacts(dir, b);
    assert Join(dir, a)[|DirPrefix(dir)|..] == a;
    assert Join(dir, b)[|DirPrefix(dir)|..] == b;
  }

  /** Nothing inside a named directory is the truststore, which sits at
      the top of the working directory. */
  lemma JoinedIsNotTruststore(dir: Path, name: Path)
    requires dir != []
    ensures Join(dir, name) != TruststorePath
  {
    JoinFacts(dir, name);
    SeparatorInPrefix(dir);
    PrefixKeepsMember(DirPrefix(dir), Join(dir, name), '/');
    assert '/' !in TruststorePath;
  }

  /** Every file of the client's setup. */
  function ClientFiles(): set<Path>
  {
    {ClientCaKey(), ClientCaCrt(), ClientKey(), ClientCsr(), ClientCrt(), ClientSrl()}
  }

  lemma ClientSerial()
    ensures SerialFor(ClientCaCrt()) == ClientSrl()
  {
    JoinSplit(ClientDir, ClientCaAlias, ".crt");
    JoinSplit(ClientDir, ClientCaAlias, ".srl");
    SerialForCrt(DirPrefix(ClientDir) + ClientCaAlias);
  }

  /** The client's artifacts are pairwise distinct and none of them is the
      truststore. */
  lemma ClientPaths()
    ensures ClientCaKey() != ClientCaCrt() && ClientCaKey() != ClientKey() && ClientCaKey() != ClientCsr()
    ensures ClientCaKey() != ClientCrt() && ClientCaKey() != ClientSrl()
    ensures ClientCaCrt() != ClientKey() && ClientCaCrt() != ClientCsr() && ClientCaCrt() != ClientCrt()
    ensures ClientCaCrt() != ClientSrl()
    ensures ClientKey() != ClientCsr() && ClientKey() != ClientCrt() && ClientKey() != ClientSrl()
    ensures ClientCsr() != ClientCrt() && ClientCsr() != ClientSrl()
    ensures ClientCrt() != ClientSrl()
    ensures TruststorePath !in ClientFiles()
  {
    var k, c, l := ClientCaAlias + ".key", ClientCaAlias + ".crt", ClientCaAlias + ".srl";
    var ck, cs, cc := "client.key", "client.csr", "client.crt";
    assert k[14] != c[14] && k[14] != l[14] && c[14] != l[14];
    assert ck[7] != cs[7] && ck[7] != cc[7] && cs[8] != cc[8];
    JoinInjective(ClientDir, k, c);
    JoinInjective(ClientDir, k, ck);
    JoinInjective(ClientDir, k, cs);
    JoinInjective(ClientDir, k, cc);
    JoinInjective(ClientDir, k, l);
    JoinInjective(ClientDir, c, ck);
    JoinInjective(ClientDir, c, cs);
    JoinInjective(ClientDir, c, cc);
    JoinInjective(ClientDir, c, l);
    JoinInjective(ClientDir, ck, cs);
    JoinInjective(ClientDir, ck, cc);
    JoinInjective(ClientDir, ck, l);
    JoinInjective(ClientDir, cs, cc);
    JoinInjective(ClientDir, cs, l);
    JoinInjective(ClientDir, cc, l);
    JoinedIsNotTruststore(ClientDir, k);
    JoinedIsNotTruststore(ClientDir, c);
    JoinedIsNotTruststore(ClientDir, l);
    JoinedIsNotTruststore(ClientDir, ck);
    JoinedIsNotTruststore(ClientDir, cs);
    JoinedIsNotTruststore(ClientDir, cc);
  }

  /** What the last two client steps need: the truststore and the request
      are neither of them a file the client setup keeps. */
  lemma ClientTrustPaths()
    ensures TruststorePath != ClientCaKey() && TruststorePath != ClientCaCrt() && TruststorePath != ClientKey()
    ensures TruststorePath != ClientCsr() && TruststorePath != ClientCrt() && TruststorePath != ClientSrl()
    ensures ClientCsr() != ClientCaKey() && ClientCsr() != ClientCaCrt()
    ensures ClientCsr() != ClientKey() && ClientCsr() != ClientCrt()
  {
    ClientPaths();
  }
}
