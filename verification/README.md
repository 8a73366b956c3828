# TLS provisioning for Cassandra nodes and clients, as a state machine

`generate_tls.py` provisions TLS material for a Cassandra test cluster.
In server mode, each node gets:

- its own root CA;
- a Java keystore holding the node's key and a certificate signed by that CA;
- an entry for the CA in a shared truststore, `generic-server-truststore.jks`.

In client mode it creates a client root CA and a client certificate, and adds both to the truststore.
Every real step is an `openssl` or `keytool` subprocess.
The script's own logic decides which steps to skip by looking at the working directory. It has three such tests:

- a root-CA test: do both CA files exist?
- a truststore test: does `keytool -list` find the alias?
- a node test: do the node's directory and keystore exist?

Before `os.makedirs`, both `generate_server_cert` and `generate_client_cert` also test whether the directory already exists. These tests are modelled as well.

This project models that logic. It treats the working directory as an immutable artifact state (`Artifacts.State`), which holds:

- a set of directories;
- a map from path to file content (key, certificate, signing request, serial file, or keystore);
- a counter that hands out fresh key material.

Each tool invocation is a pure transition, `Tools.*`. It reads its effect off its arguments (`-out`, `-keyout`, `-keystore`, `-alias`, `-file`). A failing tool writes nothing.

Each `ensure_*` and `generate_*` function of the script is a transition built from the tool transitions, in the script's order. An `Outcome` carries the state reached and, on failure, the reason. An uncaught failure ends the process with status 1 and leaves behind whatever the earlier steps wrote.

Modules:

- `Paths`: every artifact name the script derives from a node address or from the fixed `client` directory. It also proves the facts about those names that the arguments need: which files lie in which directory, and which files can never coincide.
- `Artifacts`: the state, the keystore entries, the outcomes, and the frame predicates ("nothing outside these paths changed").
- `Tools`: the `openssl` and `keytool` invocations, plus `os.makedirs` and `os.remove`.
- `Provision`: the two root-CA steps and the two truststore steps.
- `Server`: `generate_server_cert`, and the loop over the nodes in `main`.
- `Client`: `generate_client_cert`.
- `Cli`: `main`, with its dispatch and exit status.

Two keytool behaviours are modelling assumptions; the script only relies on them:

- Importing a certificate under an alias that already holds a trusted certificate fails.
- Importing a certificate under an alias that holds a key entry is a certificate reply. The certificate must certify that entry's key and be issued by a certificate the store already trusts. It then replaces the entry's certificate instead of adding an entry.

The skip test in `generate_server_cert` is modelled exactly as the code writes it: `isdir(<n>)` and `isfile(<n>/<n>.jks)`.

- A directory without the keystore is processed in full.
- A node whose keystore exists is skipped even if other parts of its setup are missing. `Server.InterruptedNodeStaysUnanchored` shows a run that fails at the truststore import; it leaves exactly such a node, whose CA never reaches the truststore.
- The truststore test looks at the alias only. `Server.StaleAnchorSurvives` shows a node provisioned again after its directory was deleted: it keeps an old `rootCa-<n>` entry that did not issue its new certificate.

The client path is not re-run safe, and the model states precisely where:

- the client key is regenerated on every run;
- the import of alias `client` is unguarded, so once a client run has succeeded, every later run fails at that import and leaves the signing request behind.

## Model

| member | source | states |
|---|---|---|
| Paths.JoinFacts | generate_tls.py:143 | `os.path.join(dir, name)` for a relative name is the directory prefix followed by the name, so it lies in `dir` and ends with `name` |
| Paths.SerialForCrt | generate_tls.py:174-178 | `-CAcreateserial` keeps the serial of CA certificate `<stem>.crt` in `<stem>.srl`, even when the stem itself contains dots, as node addresses do |
| Paths.NodePaths | generate_tls.py:153-155 | a node's CA key, CA certificate, keystore, signing request, signed certificate and serial file all lie in the node's directory, are pairwise distinct, and none of them is the shared truststore |
| Paths.JksInjective | generate_tls.py:143 | two different node names never share a keystore path, so one node's skip test never sees another node's keystore |
| Paths.DisjointDirs | generate_tls.py:140 | the directories of two different simple node names share no path |
| Paths.ClientPaths | generate_tls.py:106-108 | the client CA key and certificate, the client key, request and certificate, and the CA serial file are six different files, none of which is the truststore |
| Tools.OpensslSelfSigned | generate_tls.py:22-28 | `openssl req -x509 -newkey` writes a fresh key and a self-signed certificate for it under the given subject, and touches no other file |
| Tools.OpensslGenRsa | generate_tls.py:111 | `openssl genrsa` replaces the output with a freshly drawn key and touches nothing else |
| Tools.OpensslNewRequest | generate_tls.py:114 | `openssl req -new` succeeds exactly when the key file holds a key, and the request carries that key and the subject |
| Tools.OpensslSignRequest | generate_tls.py:174-178 | `openssl x509 -req` succeeds exactly when the request exists and the CA key matches the CA certificate; the new certificate is issued by the CA for the request's key and subject; only the output and the serial file change |
| Tools.KeytoolGenKeyPair | generate_tls.py:158-164 | `keytool -genkeypair` succeeds exactly when the store can be opened and the alias is free; it adds one key entry with fresh key material and keeps every other entry |
| Tools.KeytoolCertReq | generate_tls.py:167-171 | `keytool -certreq` succeeds exactly when the alias is a key entry, and the request carries that entry's key and subject |
| Tools.KeytoolImportCert | generate_tls.py:181-192 | `keytool -importcert` adds a missing alias as trusted and never overwrites a trusted entry. At a key entry it succeeds exactly when the certificate matches the key and is chained to a trusted certificate, and it then replaces that entry's certificate; other entries are kept |
| Tools.RemoveFile | generate_tls.py:197 | `os.remove` succeeds exactly when the file exists, and removes only that file |
| Tools.MakeDirs | generate_tls.py:148 | `os.makedirs` succeeds exactly when the name is non-empty and taken neither by a directory nor by a file, and it adds just that directory |
| Provision.EnsureCa | generate_tls.py:17-28 | when both CA files exist nothing changes; otherwise a matching key and self-signed certificate are written; only the two CA files are ever added or changed |
| Provision.EnsureNodeRootCa | generate_tls.py:12-30 | returns `<n>/rootCa-<n>.key` and `.crt`; leaves the state unchanged when both exist; afterwards both exist and no other file was added or changed; a new CA is self-signed with subject `rootCa-<n>` |
| Provision.EnsureClientRootCa | generate_tls.py:33-52 | the same for `client/rootCa-client.key` and `.crt`, with subject `rootCa-client` |
| Provision.EnsureTrustEntry | generate_tls.py:80-94 | the alias is present afterwards on success; a present alias leaves the state unchanged, so nothing is imported twice; only the truststore changes and it only gains that alias; an alias it had to import holds the certificate file's contents; a truststore file that is not a keystore makes it fail |
| Provision.EnsureTruststoreWithNodeCa | generate_tls.py:75-94 | `rootCa-<n>` is in the truststore after success; if it was already there nothing changes; no other file changes; a missing anchor is imported as a trusted copy of the CA certificate, and a success that had to import holds exactly that; a truststore file that is not a keystore makes it fail |
| Provision.EnsureTruststoreWithClientCa | generate_tls.py:55-74 | `rootCa-client` is in the truststore after success; if it was already there nothing changes; no other file changes; a missing anchor is imported as a trusted copy of the client CA certificate, and a success that had to import holds exactly that; a truststore file that is not a keystore makes it fail |
| Server.NodeKeyAndRequest | generate_tls.py:157-171 | on a missing keystore, it creates one holding exactly the key entry `<n>` with fresh key material, and a signing request for that key; only the keystore and the request change |
| Server.ImportNodeCerts | generate_tls.py:180-192 | for a keystore holding only the key entry, and a signed certificate issued by the node CA for that key, both imports succeed and leave exactly the two aliases: `rootCa-<n>` trusted and `<n>` carrying the signed certificate |
| Server.BuildNodeKeystore | generate_tls.py:153-192 | with a usable CA pair and no keystore yet, the keystore ends with exactly the node's key entry and its CA as trusted; only the keystore, request, signed certificate and serial file change |
| Server.NodeCaAndKeystore | generate_tls.py:151-192 | writes only the node's own files; for a node without a keystore whose CA files are usable it succeeds, and the new keystore is built around the CA certificate on disk; a CA it creates, because either CA file was missing, carries the first key drawn |
| Server.AnchorAndCleanUp | generate_tls.py:194-197 | on success the node's CA is anchored in the truststore and the signing request is gone; only the truststore and the request change, and the truststore only gains `rootCa-<n>` |
| Server.AnchorIsNodeCa | generate_tls.py:194-197 | an anchor the step has to import is the node's CA certificate; a truststore file that is not a keystore fails the step with nothing written |
| Server.ProvisionNode | generate_tls.py:150-198 | nothing changes outside `<n>/` except the truststore; no file other than the request disappears; no other node starts to count as provisioned; on success the keystore exists, the request is gone and the anchor is present |
| Server.ProvisionNodeAnchorsOwnCa | generate_tls.py:150-198 | after success the CA certificate is on disk, a missing anchor was imported from that certificate, and a CA created by the run, because either CA file was missing, carries the first key it drew |
| Server.GenerateServerCert | generate_tls.py:138-198 | the run succeeds with the state unchanged exactly when the node's directory and keystore both exist; a file in the way of the directory fails with nothing written; any other success leaves the keystore, the anchor and no request, and an anchor it had to import is the CA certificate on disk; on a clean node with a simple name and a usable truststore it succeeds |
| Server.ServerCertTrustsOwnCa | generate_tls.py:158-192 | a node provisioned from scratch has a keystore with exactly the aliases `<n>` and `rootCa-<n>`, the key entry certified by the node's own CA on disk |
| Server.ServerCertScope | generate_tls.py:146-197 | the server path creates no directory but `<n>`, writes nothing outside `<n>/` except the truststore, removes nothing but the request, and only ever adds `rootCa-<n>` to the truststore |
| Server.ServerCertKeystores | generate_tls.py:141-146 | nodes that counted as provisioned still do, and no other node starts to |
| Server.GenerateServers | generate_tls.py:221-222 | after a complete loop every listed node has its directory and keystore; no node stops counting as provisioned |
| Server.ServersDrawKeys | generate_tls.py:221-222 | the loop only ever draws fresh key material |
| Server.ServersNoOpIff | generate_tls.py:221-222 | the loop succeeds with the state unchanged exactly when every listed node already has its directory and keystore |
| Server.ServersGrowTrust | generate_tls.py:221-222 | the loop keeps every truststore entry and adds at most the listed nodes' anchors |
| Server.ServersAnchor | generate_tls.py:221-222 | after a complete loop, every listed node that was not already provisioned is anchored in the truststore |
| Server.ServersStayInNodeDirs | generate_tls.py:221-222 | the loop changes nothing outside the listed node directories except the truststore |
| Server.StaysUnprovisioned | generate_tls.py:140-148 | provisioning one simple node leaves another simple node with nothing on disk |
| Server.ProvisionableSucceeds | generate_tls.py:221-222 | with simple node names, each already provisioned or untouched, and a usable truststore, the loop succeeds; repeated names are skipped the second time |
| Server.InterruptedNodeStaysUnanchored | generate_tls.py:141-197 | for every clean node with a simple name, a run against a truststore file that is not a keystore fails at the anchor step after writing the keystore; the node then counts as provisioned without an anchor, and a rerun skips it without any change |
| Server.StaleAnchorSurvives | generate_tls.py:80-87 | a clean node with a simple name whose alias `rootCa-<n>` is already in the truststore from an older CA is provisioned successfully, keeps the old entry, and that entry did not issue the node's new certificate |
| Client.ClientKeyAndCert | generate_tls.py:103-122 | a fresh client key is always drawn and a request always written; the signature succeeds exactly when the client CA files are usable, and then the certificate is issued by the client CA for the new key with subject `cqlsh-client` |
| Client.KeyAndCertScope | generate_tls.py:103-122 | the CA, key and signing steps write only the six client files |
| Client.TrustClient | generate_tls.py:124-134 | on success both client aliases are in the truststore and the request is gone; the first import of `client` adds the client certificate as trusted; an alias `client` already trusted makes the import fail before the request is removed |
| Client.ClientSetup | generate_tls.py:103-135 | a fresh client key is drawn, and on success the client certificate is issued, both aliases are present and the request is gone |
| Client.ClientSetupScope | generate_tls.py:103-134 | the setup writes only the client files and the truststore |
| Client.ClientSetupFirstTime | generate_tls.py:125-134 | without alias `client` in the truststore, the setup succeeds whenever the client CA and the truststore are usable, and the new certificate ends up trusted under `client` |
| Client.ClientSetupRefusesTrusted | generate_tls.py:127-132 | with alias `client` already trusted, the setup fails; with a usable CA it fails at that import with the request left behind |
| Client.GenerateClientCert | generate_tls.py:97-135 | a file named `client` in the way fails `os.makedirs`; otherwise the client key is regenerated unconditionally; success leaves the directory, an issued certificate, both aliases and no request |
| Client.ClientCertScope | generate_tls.py:97-134 | the client path creates no directory but `client` and writes only the client files and the truststore |
| Client.ClientCertFirstTime | generate_tls.py:97-134 | a first client run succeeds when the directory, the client CA and the truststore are usable, and leaves the certificate trusted under `client` |
| Client.ClientCertRefusesTrusted | generate_tls.py:127-132 | with alias `client` already trusted, the client run fails; once it reaches the import, the error is the existing alias and the request stays |
| Client.SetupAgainKeepsOldTrust | generate_tls.py:110-132 | after a complete setup with `client` trusted, setting up again fails, leaving a certificate for a newly drawn key on disk while the truststore keeps its old `client` entry |
| Client.ClientRerunFails | generate_tls.py:110-132 | after a successful first client run, a second run fails at the import of `client` with the request left on disk, having already replaced the client key; the certificate now on disk is not the one trusted as `client` |
| Cli.ExitWith | generate_tls.py:228-229 | the exit status is 0 exactly when every step completed, and 1 when a step's failure propagated out of `main` |
| Cli.Run | generate_tls.py:211-225 | server mode with no nodes exits 1 and changes nothing; a server run with status 0 leaves every node provisioned; a client run with status 0 leaves the client material complete and touches only client files and the truststore |
| Cli.ServerRunNoOpIff | generate_tls.py:216-222 | a server run is a no-op with status 0 exactly when every listed node already has its directory and keystore |
| Cli.ServerRunIdempotent | generate_tls.py:216-222 | after a successful server run, the same invocation changes nothing and succeeds again |
| Cli.ServerRunAnchors | generate_tls.py:221-225 | a server run keeps every truststore entry and adds only the listed nodes' anchors; after success every node it provisioned is anchored |
| Cli.ClientRunNotIdempotent | generate_tls.py:214-215 | after a first successful client run, the same invocation exits 1 |

## Left out

- Cryptography (RSA key generation, X.509 contents, SHA-256, 365-day validity) is not modelled, because it happens inside the tools. Keys are opaque numbers and certificates are (subject, issuer, key, signing key) tuples. Only the common name of a distinguished name is kept.
- Passwords (`--rootPass`, `--clientPass`, `--storePass`) are not modelled, because they only pass through to the tools' command lines and decide nothing in the script. A wrong password is not modelled as a failure.
- `run_cmd` logging and every `print` are left out, because they have no effect on the state (generate_tls.py:7-9).
- `subprocess` mechanics are left out. A tool either succeeds with the effect described, or fails and writes nothing. A real tool might leave a partial output file behind.
- `argparse` is not modelled (generate_tls.py:201-208). `Cli.Args` holds the two parsed fields that decide anything: `--client` and the node list.
- The serial file's contents are not modelled; only its existence next to the CA certificate is recorded.
- The filesystem is a set of directories plus a map of files. `os.makedirs` does not create missing parents. `os.path.join` is modelled for a relative second argument.
- Concurrency is not modelled, because the script is strictly sequential.
- Cli.ServerRunAnchors: the anchor is proved only for nodes that the run itself provisioned, not for every listed node. This is because the skip test (generate_tls.py:141-146) looks only at the directory and the keystore. `Server.InterruptedNodeStaysUnanchored` shows how an earlier failed run leaves such a node, which later runs then skip without an anchor.
- Server.ServersAnchor: weaker in the same way, and for the same reason, as `Cli.ServerRunAnchors`.
- Server.GenerateServerCert: success for a clean node is claimed only for a simple name. The model's tools write a file without checking that its parent directory exists or that the path is not itself a directory. A node named `a/b` therefore succeeds in the model, although the real `openssl req -keyout a/b/rootCa-a/b.key` fails for want of the directory `a/b/rootCa-a` (generate_tls.py:22-28).
- Server.InterruptedNodeStaysUnanchored: stated only for simple names, for the same reason as `Server.GenerateServerCert`. For a name like `a/b` the real run fails at CA creation, before any keystore exists.
- Server.StaleAnchorSurvives: stated only for simple names, for the same reason as `Server.GenerateServerCert`.
- Server.ProvisionableSucceeds: assumes simple node names, meaning names that are non-empty, contain no `/`, and are not the truststore's name. For other names the node directories can overlap each other or the truststore, and success is not claimed.
- A node address equal to `client` would share its directory with the client material. The model allows it, but no property is claimed about mixing the two modes.
- Artifacts.HasAlias: aliases are compared exactly. keytool's JKS and PKCS12 stores compare aliases without regard to letter case. Node names that differ only in case (`Node1` and `node1`) therefore share an anchor in reality, where the model keeps two. A node named `CLIENT` likewise collides with `rootCa-client`. So `Server.ServersAnchor`, `Server.ProvisionNodeAnchorsOwnCa` and `Cli.ServerRunAnchors` are claimed only for node lists whose names differ by more than letter case. IPv4 addresses are unaffected.
