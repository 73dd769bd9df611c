/** The pure decisions of the command runner: how a command line becomes an
    argument vector (split on single spaces, with `cat`, `add` and `get`
    routed to `files`), which api address the backend is acquired with, and
    how long the resolution of the result is delayed. */
module Routing {
  import opened Tokens

  /** The loopback api address the backend listens on for `daemon`. */
  const DaemonApiAddress: string := "/ip4/127.0.0.1/tcp/5002"

  /** The resolution delay, in milliseconds, applied after `shutdown`. */
  const ShutdownDelay: nat := 1000

  /** The `api` option passed to backend acquisition: `false`, or an address. */
  datatype ApiOption = NoApi | ApiAt(address: string)

  /** The first tokens that are aliases of a `files` subcommand. */
  predicate IsAlias(token: string)
  {
    token == "cat" || token == "add" || token == "get"
  }

  /** Alias routing: an argument vector whose first token is an alias gets
      `files` put in front of it; any other vector is left as it is. */
  function Rewrite(argv: seq<string>): (r: seq<string>)
    ensures |r| == |argv| + 1 <==> |argv| > 0 && IsAlias(argv[0])
    ensures |r| == |argv| || |r| == |argv| + 1
    ensures r[|r| - |argv|..] == argv
    ensures |r| == |argv| + 1 ==> r[0] == "files"
    ensures |argv| > 0 ==> !IsAlias(r[0])
  {
    if |argv| > 0 && IsAlias(argv[0]) then ["files"] + argv else argv
  }

  /** The rewrite happens once: a routed vector is never rewritten again, so
      `files` itself is not an alias of anything. */
  lemma RewriteOnce(argv: seq<string>)
    ensures Rewrite(Rewrite(argv)) == Rewrite(argv)
  {
  }

  /** The argument vector of a command line: `args.split(' ')`, then alias
      routing. */
  function Route(args: string): (argv: seq<string>)
    ensures |argv| >= 1
  {
    Rewrite(Split(args, ' '))
  }

  /** A command line that is one word, without spaces and not an alias, is
      routed to that word alone. */
  lemma RoutePlain(c: string)
    requires ' ' !in c && !IsAlias(c)
    ensures Route(c) == [c]
  {
    SplitAfterToken(c, "", ' ');
    assert c + "" == c;
  }

  /** A command line whose first token is an alias is routed exactly as the
      same line with `files ` written in front of it. */
  lemma AliasRoutesAsFiles(args: string)
    requires IsAlias(Split(args, ' ')[0])
    ensures Route(args) == Route("files " + args)
  {
    assert "files " + args == "files" + ([' '] + args);
    SplitAfterToken("files", [' '] + args, ' ');
    SplitAfterSeparator(args, ' ');
    assert ([""] + Split(args, ' '))[1..] == Split(args, ' ');
    assert "files" + "" == "files";
    assert Split("files " + args, ' ') == ["files"] + Split(args, ' ');
  }

  /** For a command name `c` that is neither an alias nor `files` and has no
      space, the routed command is `c` exactly when the command line is `c`
      alone or `c` followed by a space. */
  lemma RoutedCommand(args: string, c: string)
    requires ' ' !in c && !IsAlias(c) && c != "files"
    ensures Route(args)[0] == c <==> args == c || c + " " <= args
  {
    FirstToken(args, c, ' ');
  }

  /** The `api` option for a command: the daemon address for `daemon`,
      `false` for everything else. */
  function ApiFor(command: string): (api: ApiOption)
    ensures api.ApiAt? <==> command == "daemon"
    ensures api.ApiAt? ==> api.address == DaemonApiAddress
  {
    if command == "daemon" then ApiAt(DaemonApiAddress) else NoApi
  }

  /** The options an invocation acquires its backend with: `init` takes its
      own branch, which always asks for `{api: false}`; every other command
      asks for `ApiFor` of its routed name. */
  function AcquireOptions(argv: seq<string>): (api: ApiOption)
    requires |argv| >= 1
    ensures argv[0] == "init" ==> api == NoApi
    ensures api == ApiAt(DaemonApiAddress) <==> argv[0] == "daemon"
    ensures api.ApiAt? ==> api == ApiAt(DaemonApiAddress)
  {
    if argv[0] == "init" then NoApi else ApiFor(argv[0])
  }

  /** The delay, in milliseconds, between a successful cleanup and the
      resolution of the result: `ShutdownDelay` for `shutdown`, none for
      every other command. */
  function DelayFor(command: string): (ms: nat)
    ensures ms == ShutdownDelay <==> command == "shutdown"
    ensures ms != ShutdownDelay ==> ms == 0
  {
    if command == "shutdown" then ShutdownDelay else 0
  }

  /** The backend exposes its api exactly when the command line is `daemon`,
      alone or followed by a space. */
  lemma DaemonApiOnlyForDaemon(args: string)
    ensures AcquireOptions(Route(args)) == ApiAt(DaemonApiAddress)
            <==> args == "daemon" || "daemon " <= args
  {
    RoutedCommand(args, "daemon");
  }

  /** The resolution is delayed exactly when the command line is `shutdown`,
      alone or followed by a space. */
  lemma DelayOnlyForShutdown(args: string)
    ensures DelayFor(Route(args)[0]) == ShutdownDelay
            <==> args == "shutdown" || "shutdown " <= args
  {
    RoutedCommand(args, "shutdown");
  }

  /** The `init` branch is taken exactly when the command line is `init`,
      alone or followed by a space; an extra leading space (an empty first
      token) does not take it. */
  lemma InitBranchOnlyForInit(args: string)
    ensures Route(args)[0] == "init" <==> args == "init" || "init " <= args
  {
    RoutedCommand(args, "init");
  }
}
