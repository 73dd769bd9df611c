/** Runs of the command runner from start to settlement, driven through the
    event methods of `Runner.Invocation`. Each `Run...` method drives an
    invocation in a given starting state through one sequence of events and
    states what its caller observes; each method without that prefix starts
    an invocation for a concrete command line and runs it. */
module Scenarios {
  import opened Tokens
  import opened Routing
  import opened Runner

  /** An invocation that has been created and has received no event yet. */
  ghost predicate Fresh(run: Invocation)
    reads run
  {
    && run.Valid() && run.output == [] && run.thrown == None && run.settled == None
    && !run.acquireAnswered && !run.cleanupReady && !run.initSubscribed
    && run.cleanupCalls == 0 && run.placeholderCalls == 0
    && run.pending == [] && run.timers == []
  }

  /** The handler writes two ordinary chunks and calls `onComplete()`; the
      cleanup succeeds and the timer fires: the result is the two chunks
      joined, after the command's delay, with one cleanup. */
  method RunTwoChunks(run: Invocation, first: string, second: string) returns (waited: nat)
    requires Fresh(run) && !run.IsInit()
    requires first != ReadySentinel && second != ReadySentinel
    modifies run
    ensures run.settled == Some(Resolved(Text(first + second)))
    ensures run.cleanupCalls == 1 && waited == DelayFor(run.argv[0])
  {
    assert Concat([first, second]) == first + second;
    run.Acquired(None);
    run.Write(first);
    run.Write(second);
    run.OnComplete(None);
    run.CleanupDone(0, None);
    assert run.output == [first, second];
    waited := run.TimerFired();
  }

  /** `files get QmHash`: the handler writes `hello` and `world`; the result
      is `helloworld`, with no delay and one cleanup. */
  method HelloWorld() returns (result: Option<Settlement>, calls: nat, waited: nat)
    ensures result == Some(Resolved(Text("helloworld")))
    ensures calls == 1 && waited == 0
  {
    assert "hello" != ReadySentinel && "world" != ReadySentinel;
    assert "hello" + "world" == "helloworld";
    SplitOfJoin(["files", "get", "QmHash"], ' ');
    assert Join(["files", "get", "QmHash"], ' ') == "files get QmHash";
    var run := new Invocation("files get QmHash");
    waited := RunTwoChunks(run, "hello", "world");
    result, calls := run.settled, run.cleanupCalls;
  }

  /** `get QmHash` is routed to `files get`, and runs the same way. */
  method AliasedHelloWorld() returns (argv: seq<string>, result: Option<Settlement>)
    ensures argv == ["files", "get", "QmHash"]
    ensures result == Some(Resolved(Text("helloworld")))
  {
    assert "hello" != ReadySentinel && "world" != ReadySentinel;
    assert "hello" + "world" == "helloworld";
    SplitOfJoin(["get", "QmHash"], ' ');
    assert Join(["get", "QmHash"], ' ') == "get QmHash";
    assert Rewrite(["get", "QmHash"]) == ["files", "get", "QmHash"];
    var run := new Invocation("get QmHash");
    var _ := RunTwoChunks(run, "hello", "world");
    argv, result := run.argv, run.settled;
  }

  /** `shutdown`: the result waits `ShutdownDelay` after the cleanup. */
  method ShutdownWaits() returns (waited: nat, result: Option<Settlement>)
    ensures waited == ShutdownDelay
    ensures result == Some(Resolved(Text("stopped")))
  {
    RoutePlain("shutdown");
    assert "stop" != ReadySentinel && "ped" != ReadySentinel;
    assert "stop" + "ped" == "stopped";
    var run := new Invocation("shutdown");
    waited := RunTwoChunks(run, "stop", "ped");
    result := run.settled;
  }

  /** A daemon writes a chunk, announces readiness (which completes the run
      without an explicit `onComplete`) and writes again before the timer
      fires: the result holds all three chunks in arrival order, so it
      contains the sentinel. */
  method RunDaemon(run: Invocation, before: string, after: string)
    requires Fresh(run) && !run.IsInit()
    modifies run
    ensures run.settled == Some(Resolved(Text(before + ReadySentinel + after)))
  {
    JoinedAround(before, ReadySentinel, after);
    run.Acquired(None);
    run.Write(before);
    run.Write(ReadySentinel);
    assert run.pending != [];
    run.CleanupDone(0, None);
    run.Write(after);
    assert run.output == [before, ReadySentinel, after];
    var _ := run.TimerFired();
  }

  /** Three chunks join to their texts one after another. */
  lemma JoinedAround(before: string, middle: string, after: string)
    ensures Concat([before, middle, after]) == before + middle + after
  {
    var cs := [before, middle, after];
    ConcatAt(cs, 1);
    assert cs[..1] == [before] && cs[2..] == [after];
    assert Concat([before]) == before && Concat([after]) == after;
  }

  /** `daemon`: the backend is acquired with the api address and the result
      contains the sentinel between the chunks around it. */
  method DaemonReady(before: string, after: string) returns (api: ApiOption, result: Option<Settlement>)
    ensures api == ApiAt(DaemonApiAddress)
    ensures result == Some(Resolved(Text(before + ReadySentinel + after)))
  {
    RoutePlain("daemon");
    var run := new Invocation("daemon");
    RunDaemon(run, before, after);
    api, result := run.api, run.settled;
  }

  /** The handler throws once the backend is acquired: the result is a
      rejection with the thrown text, whatever the cleanup reports, and the
      backend was cleaned up exactly once. */
  method RunHandlerFault(run: Invocation, message: string, cleanupError: Option<string>)
    requires Fresh(run) && !run.IsInit()
    modifies run
    ensures run.settled == Some(Rejected(Text(message)))
    ensures run.cleanupCalls == 1
  {
    run.Acquired(None);
    run.HandlerThrew(message);
    run.CleanupDone(0, cleanupError);
  }

  /** `files add ./missing` whose handler throws. */
  method HandlerFault(message: string, cleanupError: Option<string>)
      returns (result: Option<Settlement>, calls: nat)
    ensures result == Some(Rejected(Text(message)))
    ensures calls == 1
  {
    SplitOfJoin(["files", "add", "./missing"], ' ');
    assert Join(["files", "add", "./missing"], ' ') == "files add ./missing";
    var run := new Invocation("files add ./missing");
    RunHandlerFault(run, message, cleanupError);
    result, calls := run.settled, run.cleanupCalls;
  }

  /** The handler writes a chunk, completes and then throws, so the real
      cleanup holds both the completion's and the throw's continuation. The
      throw leaves the chunk list alone, so the completion still schedules
      its timer. Which settlement wins depends on the order of the
      callbacks: if the timer fires before the throw's continuation runs,
      the result is the chunk; if the throw's continuation runs first, it is
      a rejection with the thrown text. Either way the backend was cleaned up
      twice and no timer is left. */
  method RunCompleteThenThrow(run: Invocation, chunk: string, message: string, timerFirst: bool)
    requires Fresh(run) && !run.IsInit() && chunk != ReadySentinel
    modifies run
    ensures run.settled == Some(if timerFirst then Resolved(Text(chunk)) else Rejected(Text(message)))
    ensures run.timers == [] && run.pending == [] && run.cleanupCalls == 2
  {
    run.Acquired(None);
    run.Write(chunk);
    run.OnComplete(None);
    run.HandlerThrew(message);
    assert run.pending == [AfterCompletion, AfterThrow];
    if timerFirst {
      FinishTimerFirst(run, chunk, message);
    } else {
      FinishThrowFirst(run, chunk, message);
    }
  }

  /** The state after a chunk, a clean completion and a throw: the real
      cleanup holds both continuations and nothing has settled. */
  ghost predicate CompletedThenThrew(run: Invocation, chunk: string, message: string)
    reads run
  {
    && run.Valid() && !run.IsInit()
    && run.output == [chunk] && run.thrown == Some(message) && run.settled == None
    && run.pending == [AfterCompletion, AfterThrow] && run.timers == []
    && run.cleanupCalls == 2
  }

  /** The completion's cleanup calls back and its timer fires before the
      throw's continuation runs: the chunk wins. */
  method FinishTimerFirst(run: Invocation, chunk: string, message: string)
    requires CompletedThenThrew(run, chunk, message)
    modifies run
    ensures run.settled == Some(Resolved(Text(chunk)))
    ensures run.timers == [] && run.pending == [] && run.cleanupCalls == 2
  {
    assert Concat([chunk]) == chunk;
    run.CleanupDone(0, None);
    assert run.pending == [AfterThrow];
    var _ := run.TimerFired();
    run.CleanupDone(0, None);
  }

  /** The throw's continuation runs first: the thrown text wins, and the
      completion's timer fires later without effect. */
  method FinishThrowFirst(run: Invocation, chunk: string, message: string)
    requires CompletedThenThrew(run, chunk, message)
    modifies run
    ensures run.settled == Some(Rejected(Text(message)))
    ensures run.timers == [] && run.pending == [] && run.cleanupCalls == 2
  {
    run.CleanupDone(1, None);
    assert run.pending == [AfterCompletion];
    run.CleanupDone(0, None);
    var _ := run.TimerFired();
  }

  /** `files cat QmHash` whose handler writes `partial`, completes and then
      throws. */
  method CompleteThenThrow(message: string, timerFirst: bool) returns (result: Option<Settlement>)
    ensures result == Some(if timerFirst then Resolved(Text("partial")) else Rejected(Text(message)))
  {
    SplitOfJoin(["files", "cat", "QmHash"], ' ');
    assert Join(["files", "cat", "QmHash"], ' ') == "files cat QmHash";
    assert "partial" != ReadySentinel;
    var run := new Invocation("files cat QmHash");
    RunCompleteThenThrow(run, "partial", message, timerFirst);
    result := run.settled;
  }

  /** After a throw the sink still works: a later chunk is still collected,
      and a readiness sentinel still completes the run and calls the real
      cleanup a second time. */
  method RunThrowThenSentinel(run: Invocation, message: string)
    requires Fresh(run) && !run.IsInit()
    modifies run
    ensures run.output == [ReadySentinel] && run.thrown == Some(message)
    ensures run.cleanupCalls == 2 && run.pending == [AfterThrow, AfterCompletion]
    ensures run.settled == None
  {
    run.Acquired(None);
    run.HandlerThrew(message);
    run.Write(ReadySentinel);
  }

  /** `onComplete(err)` rejects with `err` without calling cleanup; a second
      completion cannot change the settlement. */
  method RunCompletionError(run: Invocation, e: string, later: string)
    requires Fresh(run) && !run.IsInit()
    modifies run
    ensures run.settled == Some(Rejected(ErrorObject(e)))
    ensures run.cleanupCalls == 0
  {
    run.Acquired(None);
    run.OnComplete(Some(e));
    run.OnComplete(Some(later));
  }

  /** `files get QmHash` whose handler reports an error twice. */
  method CompletionError(e: string, later: string) returns (result: Option<Settlement>, calls: nat)
    ensures result == Some(Rejected(ErrorObject(e)))
    ensures calls == 0
  {
    SplitOfJoin(["files", "get", "QmHash"], ' ');
    assert Join(["files", "get", "QmHash"], ' ') == "files get QmHash";
    var run := new Invocation("files get QmHash");
    RunCompletionError(run, e, later);
    result, calls := run.settled, run.cleanupCalls;
  }

  /** A cleanup error after a clean completion rejects with that error. */
  method RunCleanupError(run: Invocation, e: string)
    requires Fresh(run) && !run.IsInit()
    modifies run
    ensures run.settled == Some(Rejected(ErrorObject(e)))
    ensures run.timers == []
  {
    run.Acquired(None);
    run.OnComplete(None);
    run.CleanupDone(0, Some(e));
  }

  /** `version` whose cleanup fails. */
  method CleanupError(e: string) returns (result: Option<Settlement>)
    ensures result == Some(Rejected(ErrorObject(e)))
  {
    RoutePlain("version");
    var run := new Invocation("version");
    RunCleanupError(run, e);
    result := run.settled;
  }

  /** The sentinel arriving before the backend is acquired reaches only the
      placeholder cleanup: after acquisition nothing is pending, no timer is
      scheduled and the run is still unsettled. */
  method RunEarlySentinel(run: Invocation)
    requires Fresh(run) && !run.IsInit()
    modifies run
    ensures run.settled == None && run.cleanupCalls == 0 && run.placeholderCalls == 1
    ensures run.pending == [] && run.timers == []
  {
    run.Write(ReadySentinel);
    run.Acquired(None);
  }

  /** `daemon` whose sentinel comes before acquisition. */
  method EarlySentinel() returns (result: Option<Settlement>, calls: nat, pendingCount: nat)
    ensures result == None && calls == 0 && pendingCount == 0
  {
    RoutePlain("daemon");
    var run := new Invocation("daemon");
    RunEarlySentinel(run);
    result, calls, pendingCount := run.settled, run.cleanupCalls, |run.pending|;
  }

  /** The `init` branch: after acquisition and the backend's `init` event the
      cleanup runs once (a repeated event finds no listener) and the result
      resolves with what the cleanup passed to its continuation. */
  method RunInit(run: Invocation, cleanupArgument: Option<string>)
    requires Fresh(run) && run.IsInit()
    modifies run
    ensures run.settled == Some(Resolved(
              if cleanupArgument.Some? then ErrorObject(cleanupArgument.value) else Undefined))
    ensures run.cleanupCalls == 1
  {
    run.Acquired(None);
    run.InitEvent();
    run.InitEvent();
    run.CleanupDone(0, cleanupArgument);
  }

  /** `init`: acquired without api; resolves with `undefined`. */
  method InitRun() returns (api: ApiOption, result: Option<Settlement>, calls: nat)
    ensures api == NoApi
    ensures result == Some(Resolved(Undefined))
    ensures calls == 1
  {
    RoutePlain("init");
    var run := new Invocation("init");
    RunInit(run, None);
    api, result, calls := run.api, run.settled, run.cleanupCalls;
  }

  /** In the `init` branch an acquisition error is thrown out of the
      callback, which runs after the promise's executor has returned: the
      run never subscribes to `init` and never settles. */
  method RunInitAcquireError(run: Invocation, e: string)
    requires Fresh(run) && run.IsInit()
    modifies run
    ensures run.settled == None && run.cleanupCalls == 0 && run.pending == []
  {
    run.Acquired(Some(e));
    run.InitEvent();
  }

  /** `init` whose acquisition fails. */
  method InitAcquireError(e: string) returns (result: Option<Settlement>)
    ensures result == None
  {
    RoutePlain("init");
    var run := new Invocation("init");
    RunInitAcquireError(run, e);
    result := run.settled;
  }
}
