/** The entry point `main`: client mode or server mode, and the process
    exit status. Passwords and the other options only reach the tools'
    command lines and do not influence any decision, so they are not
    modelled. An uncaught failure of a step ends the process with status 1,
    as does the missing node list in server mode.
 */
module Cli {
  import opened Paths
  import opened Artifacts
  import opened Provision
  import opened Server
  import opened Client

  /** The parsed command line: `--client` and the positional node
      addresses. */
  datatype Args = Args(client: bool, nodeIps: seq<string>)

  datatype Exit = Exit(code: nat, fs: State)

  /** A completed run exits 0; a failed step propagates out of `main` and
      the interpreter exits 1, leaving whatever was written so far. */
  function ExitWith(r: Outcome): (e: Exit)
    ensures e.fs == r.fs
    ensures e.code <= 1 && (e.code == 0 <==> r.Done?)
  {
    if r.Done? then Exit(0, r.fs) else Exit(1, r.fs)
  }

  /** `main` (generate_tls.py:211-225). */
  function Run(s: State, args: Args): (e: Exit)
    ensures e.code <= 1
    ensures !args.client && args.nodeIps == [] ==> e == Exit(1, s)
    ensures !args.client && e.code == 0 ==> AllDone(e.fs, args.nodeIps)
    ensures !args.client ==> forall m :: KeystoreDone(s, m) ==> KeystoreDone(e.fs, m)
    ensures args.client && e.code == 0 ==> ClientDir in e.fs.dirs && ClientComplete(e.fs)
    ensures args.client ==> Frame(s, e.fs, ClientFiles() + {TruststorePath})
  {
    if args.client then
      ClientCertScope(s);
      ExitWith(GenerateClientCert(s))
    else if args.nodeIps == [] then Exit(1, s)
    else ExitWith(GenerateServers(s, args.nodeIps))
  }

  /** In server mode a run with nodes leaves the working directory as it
      found it, with status 0, exactly when every listed node already has
      its directory and keystore. */
  lemma ServerRunNoOpIff(s: State, args: Args)
    requires !args.client && args.nodeIps != []
    ensures Run(s, args) == Exit(0, s) <==> AllDone(s, args.nodeIps)
  {
    ServersNoOpIff(s, args.nodeIps);
  }

  /** A second server run after a successful one changes nothing and
      succeeds again. */
  lemma ServerRunIdempotent(s: State, args: Args)
    requires !args.client && Run(s, args).code == 0
    ensures var t := Run(s, args).fs; Run(t, args) == Exit(0, t)
  {
    var t := Run(s, args).fs;
    ServersNoOpIff(t, args.nodeIps);
  }

  /** After a successful server run, every listed node that was not
      provisioned before has its CA anchored in the truststore, and the
      truststore gained nothing but the listed nodes' anchors. */
  lemma ServerRunAnchors(s: State, args: Args)
    requires !args.client && args.nodeIps != []
    ensures var e := Run(s, args);
            && TrustGrows(s, e.fs, NodeAnchors(args.nodeIps))
            && (e.code == 0 ==> forall i | 0 <= i < |args.nodeIps| ::
                  KeystoreDone(s, args.nodeIps[i]) || Anchored(e.fs, args.nodeIps[i]))
  {
    ServersGrowTrust(s, args.nodeIps);
    ServersAnchor(s, args.nodeIps);
  }

  /** The client mode is not idempotent: after a first successful run, the
      next run exits 1 at the import of alias `client`. */
  lemma ClientRunNotIdempotent(s: State, args: Args)
    requires args.client && Run(s, args).code == 0
    requires !HasAlias(s, TruststorePath, ClientAlias)
    ensures var t := Run(s, args).fs; Run(t, args).code == 1
  {
    ClientRerunFails(s);
  }
}
