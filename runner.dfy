/** One invocation of the in-process command runner (`ipfsExec(args)`): the
    output sink, the completion callback, the placeholder and real cleanup,
    the throw path, the `init` branch and the write-once promise they settle.

    Every callback the runner receives from the outside world is an event
    method of `Invocation`; the outside world may call them in any order
    their preconditions allow. An error argument is `Some(e)` when the
    JavaScript value is truthy and `None` when it is absent or falsy. */
module Runner {
  import opened Tokens
  import opened Routing

  /** The exact chunk by which the `daemon` command announces readiness. */
  const ReadySentinel: string := "Daemon is ready\n"

  datatype Option<T> = None | Some(value: T)

  /** The JavaScript values a settlement can carry: `undefined`, a string, or
      an error object (known by its description). */
  datatype JsValue = Undefined | Text(text: string) | ErrorObject(description: string)

  /** How the invocation's promise settled. */
  datatype Settlement = Resolved(value: JsValue) | Rejected(reason: JsValue)

  /** The continuations handed to the real cleanup procedure:
      after a successful completion (resolve after the delay), after a throw
      (reject with the output), and in the `init` branch (`resolve` itself). */
  datatype Continuation = AfterCompletion | AfterThrow | AfterInit

  /** Promise semantics: the first settlement wins, later ones are ignored. */
  function SettleOnce(prev: Option<Settlement>, s: Settlement): (r: Option<Settlement>)
    ensures r.Some?
    ensures prev.Some? ==> r == prev
    ensures prev.None? ==> r.value == s
  {
    if prev.None? then Some(s) else prev
  }

  /** `output.push(chunk)` on the chunk list: the list grows by that chunk at
      its end, the earlier chunks untouched, and its concatenation grows by
      the chunk's text. */
  function Push(chunks: seq<string>, chunk: string): (r: seq<string>)
    ensures |r| == |chunks| + 1
    ensures r[..|chunks|] == chunks && r[|chunks|] == chunk
    ensures Concat(r) == Concat(chunks) + chunk
  {
    ConcatAppend(chunks, chunk);
    assert (chunks + [chunk])[..|chunks|] == chunks;
    chunks + [chunk]
  }

  /** `ipfsExec.fail(args)`: a stub that resolves with `'sure'` whatever the
      command is, without running it. */
  function Fail(args: string): Settlement
  {
    Resolved(Text("sure"))
  }

  class Invocation {
    /** The routed argument vector. */
    const argv: seq<string>
    /** The `api` option the backend is acquired with. */
    const api: ApiOption

    /** The closure's `output`: the chunks the sink has received, in order. */
    var output: seq<string>
    /** The parse callback's own `output` parameter, which shadows the chunk
        list: the string form of what the handler threw, once it has thrown. */
    var thrown: Option<string>
    /** Whether `cleanup` is the backend's real cleanup (it starts as the
        placeholder, which ignores its continuation). */
    var cleanupReady: bool
    /** The promise: `None` while pending. */
    var settled: Option<Settlement>
    /** Calls of the backend's real cleanup procedure. */
    var cleanupCalls: nat
    /** Calls of the placeholder cleanup. */
    var placeholderCalls: nat
    /** Continuations given to the real cleanup that it has not called yet. */
    var pending: seq<Continuation>
    /** Delays of the resolution timers that are scheduled and have not fired. */
    var timers: seq<nat>
    /** Whether backend acquisition has called back. */
    var acquireAnswered: bool
    /** Whether the `init` branch is waiting for the backend's `init` event. */
    var initSubscribed: bool

    /** Whether this invocation takes the `init` branch. */
    predicate IsInit()
    {
      |argv| > 0 && argv[0] == "init"
    }

    ghost predicate Valid()
      reads this
    {
      && |argv| >= 1
      && api == AcquireOptions(argv)
      // every scheduled timer waits the delay of this command
      && (forall i :: 0 <= i < |timers| ==> timers[i] == DelayFor(argv[0]))
      // every pending continuation was handed over by a real cleanup call
      && |pending| <= cleanupCalls
      && (cleanupReady || initSubscribed ==> acquireAnswered)
      && (!acquireAnswered ==> cleanupCalls == 0)
      // before acquisition only the placeholder can be called
      && (!IsInit() && !cleanupReady ==> cleanupCalls == 0)
      && (IsInit() ==>
            && output == [] && thrown == None && timers == [] && !cleanupReady && placeholderCalls == 0
            && (forall i :: 0 <= i < |pending| ==> pending[i] == AfterInit)
            && (settled.Some? ==> settled.value.Resolved?))
      && (!IsInit() ==>
            && !initSubscribed
            && (forall i :: 0 <= i < |pending| ==> pending[i] != AfterInit)
            && (settled.Some? && settled.value.Resolved? ==> settled.value.value.Text?))
      // the handler can only throw once the real cleanup is in place
      && (thrown.Some? ==> cleanupReady)
      && (AfterThrow in pending ==> thrown.Some?)
    }

    /** `ipfsExec(args)` up to the creation of the promise. */
    constructor (args: string)
      ensures Valid()
      ensures argv == Route(args) && api == AcquireOptions(argv)
      ensures output == [] && thrown == None && settled == None
      ensures !cleanupReady && !acquireAnswered && !initSubscribed
      ensures cleanupCalls == 0 && placeholderCalls == 0 && pending == [] && timers == []
    {
      argv := Route(args);
      api := AcquireOptions(Route(args));
      output := [];
      thrown := None;
      cleanupReady := false;
      settled := None;
      cleanupCalls := 0;
      placeholderCalls := 0;
      pending := [];
      timers := [];
      acquireAnswered := false;
      initSubscribed := false;
    }

    /** What a call `cleanup(k)` does: the real cleanup is counted and holds
        on to `k` until it is done; the placeholder ignores `k`. */
    twostate predicate CleanupInvoked(k: Continuation)
      reads this
    {
      if old(cleanupReady) then
        cleanupCalls == old(cleanupCalls) + 1 && pending == old(pending) + [k]
        && placeholderCalls == old(placeholderCalls)
      else
        cleanupCalls == old(cleanupCalls) && pending == old(pending)
        && placeholderCalls == old(placeholderCalls) + 1
    }

    /** Nothing about cleanup changed. */
    twostate predicate CleanupUntouched()
      reads this
    {
      cleanupCalls == old(cleanupCalls) && pending == old(pending)
      && placeholderCalls == old(placeholderCalls)
    }

    /** Neither acquisition nor the cleanup slot changed. */
    twostate predicate AcquisitionUntouched()
      reads this
    {
      cleanupReady == old(cleanupReady) && acquireAnswered == old(acquireAnswered)
      && initSubscribed == old(initSubscribed)
    }

    /** `cleanup(k)`, with whichever procedure `cleanup` currently holds. */
    method CallCleanup(k: Continuation)
      requires Valid() && !IsInit() && k != AfterInit
      requires k == AfterThrow ==> thrown.Some?
      modifies this
      ensures Valid()
      ensures CleanupInvoked(k) && AcquisitionUntouched()
      ensures output == old(output) && thrown == old(thrown) && settled == old(settled) && timers == old(timers)
    {
      if cleanupReady {
        cleanupCalls := cleanupCalls + 1;
        pending := pending + [k];
      } else {
        placeholderCalls := placeholderCalls + 1;
      }
    }

    /** The `onComplete(err)` callback given to the handler: an error rejects
        at once and leaves cleanup alone; otherwise cleanup is called, once
        per call of `onComplete`, with the resolving continuation. */
    method OnComplete(err: Option<string>)
      requires Valid() && !IsInit()
      modifies this
      ensures Valid()
      ensures AcquisitionUntouched()
      ensures output == old(output) && thrown == old(thrown) && timers == old(timers)
      ensures err.Some? ==>
                settled == SettleOnce(old(settled), Rejected(ErrorObject(err.value)))
                && CleanupUntouched()
      ensures err.None? ==> settled == old(settled) && CleanupInvoked(AfterCompletion)
    {
      if err.Some? {
        settled := SettleOnce(settled, Rejected(ErrorObject(err.value)));
      } else {
        CallCleanup(AfterCompletion);
      }
    }

    /** The sink's `write(chunk)`: the chunk is appended to `output` first,
        and only then, if it is exactly the readiness sentinel, `onComplete`
        is called without error. A throw does not stop either: it changes
        only the parse callback's own `output`. */
    method Write(chunk: string)
      requires Valid() && !IsInit()
      modifies this
      ensures Valid()
      ensures AcquisitionUntouched()
      ensures output == Push(old(output), chunk) && thrown == old(thrown)
      ensures settled == old(settled) && timers == old(timers)
      ensures chunk == ReadySentinel ==> CleanupInvoked(AfterCompletion)
      ensures chunk != ReadySentinel ==> CleanupUntouched()
    {
      output := Push(output, chunk);
      if chunk == ReadySentinel {
        OnComplete(None);
      }
    }

    /** The acquisition callback `(err, ipfs, _cleanup)`. Outside `init`, an
        error rejects and success installs the real cleanup. In the `init`
        branch an error is thrown out of the callback, which runs after the
        promise's executor has returned, so nothing settles; success
        subscribes to the backend's `init` event. */
    method Acquired(err: Option<string>)
      requires Valid() && !acquireAnswered
      modifies this
      ensures Valid()
      ensures acquireAnswered
      ensures output == old(output) && thrown == old(thrown)
      ensures timers == old(timers) && CleanupUntouched()
      ensures IsInit() ==>
                settled == old(settled) && !cleanupReady && initSubscribed == err.None?
      ensures !IsInit() ==> !initSubscribed && cleanupReady == err.None?
      ensures !IsInit() && err.Some? ==>
                settled == SettleOnce(old(settled), Rejected(ErrorObject(err.value)))
      ensures !IsInit() && err.None? ==> settled == old(settled)
    {
      acquireAnswered := true;
      if IsInit() {
        if err.None? {
          initSubscribed := true;
        }
      } else if err.Some? {
        settled := SettleOnce(settled, Rejected(ErrorObject(err.value)));
      } else {
        cleanupReady := true;
      }
    }

    /** The handler threw synchronously (once: the `try` runs once per
        acquisition). The string form of what it threw is stored in the parse
        callback's `output` parameter, not in the chunk list, and cleanup is
        called with a continuation that rejects with that string. */
    method HandlerThrew(text: string)
      requires Valid() && !IsInit() && cleanupReady && thrown.None?
      modifies this
      ensures Valid()
      ensures AcquisitionUntouched()
      ensures thrown == Some(text) && output == old(output)
      ensures cleanupCalls == old(cleanupCalls) + 1 && pending == old(pending) + [AfterThrow]
      ensures placeholderCalls == old(placeholderCalls)
      ensures settled == old(settled) && timers == old(timers)
    {
      thrown := Some(text);
      CallCleanup(AfterThrow);
    }

    /** The command parser's own callback reported an error: reject with it. */
    method ParserFailed(err: string)
      requires Valid() && !IsInit() && cleanupReady
      modifies this
      ensures Valid()
      ensures AcquisitionUntouched() && CleanupUntouched()
      ensures output == old(output) && thrown == old(thrown) && timers == old(timers)
      ensures settled == SettleOnce(old(settled), Rejected(ErrorObject(err)))
    {
      settled := SettleOnce(settled, Rejected(ErrorObject(err)));
    }

    /** The backend emitted its `init` event. The subscription is a `once`:
        the first event calls the real cleanup with `resolve` as its
        continuation, later events find no listener. */
    method InitEvent()
      requires Valid() && IsInit()
      modifies this
      ensures Valid()
      ensures !initSubscribed
      ensures cleanupReady == old(cleanupReady) && acquireAnswered == old(acquireAnswered)
      ensures output == old(output) && thrown == old(thrown)
      ensures settled == old(settled) && timers == old(timers)
      ensures placeholderCalls == old(placeholderCalls)
      ensures old(initSubscribed) ==>
                cleanupCalls == old(cleanupCalls) + 1 && pending == old(pending) + [AfterInit]
      ensures !old(initSubscribed) ==> cleanupCalls == old(cleanupCalls) && pending == old(pending)
    {
      if initSubscribed {
        initSubscribed := false;
        cleanupCalls := cleanupCalls + 1;
        pending := pending + [AfterInit];
      }
    }

    /** The real cleanup calls back the `i`-th pending continuation with `err`.
      - after a completion: an error rejects; otherwise a timer is scheduled
        with the command's delay, whether or not the handler has thrown;
      - after a throw: the continuation ignores `err` and rejects with the
        string form of what was thrown;
      - in the `init` branch the continuation is `resolve`: the result
        resolves with whatever the cleanup passed, even an error. */
    method CleanupDone(i: nat, err: Option<string>)
      requires Valid() && i < |pending|
      modifies this
      ensures Valid()
      ensures AcquisitionUntouched()
      ensures pending == old(pending)[..i] + old(pending)[i + 1..]
      ensures cleanupCalls == old(cleanupCalls) && placeholderCalls == old(placeholderCalls)
      ensures output == old(output) && thrown == old(thrown)
      ensures old(pending)[i] == AfterCompletion ==>
                settled == (if err.Some? then SettleOnce(old(settled), Rejected(ErrorObject(err.value)))
                            else old(settled))
                && timers == (if err.None? then old(timers) + [DelayFor(argv[0])] else old(timers))
      ensures old(pending)[i] == AfterThrow ==>
                thrown.Some? && settled == SettleOnce(old(settled), Rejected(Text(thrown.value)))
                && timers == old(timers)
      ensures old(pending)[i] == AfterInit ==>
                settled == SettleOnce(old(settled),
                                      Resolved(if err.Some? then ErrorObject(err.value) else Undefined))
                && timers == old(timers)
    {
      var k := pending[i];
      PendingRemoved(pending, i);
      pending := pending[..i] + pending[i + 1..];
      match k
      case AfterCompletion =>
        if err.Some? {
          settled := SettleOnce(settled, Rejected(ErrorObject(err.value)));
        } else {
          timers := timers + [DelayFor(argv[0])];
        }
      case AfterThrow =>
        settled := SettleOnce(settled, Rejected(Text(thrown.value)));
      case AfterInit =>
        settled := SettleOnce(settled, Resolved(if err.Some? then ErrorObject(err.value) else Undefined));
    }

    /** The oldest resolution timer fires (all of them wait the same delay,
        so they fire in the order they were scheduled) and resolves with the
        concatenation of every chunk received so far, whether or not the
        handler has thrown. Returns the delay it waited. */
    method TimerFired() returns (waited: nat)
      requires Valid() && |timers| > 0
      modifies this
      ensures Valid()
      ensures AcquisitionUntouched() && CleanupUntouched()
      ensures waited == DelayFor(argv[0])
      ensures timers == old(timers)[1..] && output == old(output) && thrown == old(thrown)
      ensures settled == SettleOnce(old(settled), Resolved(Text(Concat(output))))
    {
      waited := timers[0];
      timers := timers[1..];
      settled := SettleOnce(settled, Resolved(Text(Concat(output))));
    }
  }

  /** Removing one continuation keeps only continuations that were there. */
  lemma PendingRemoved(pending: seq<Continuation>, i: nat)
    requires i < |pending|
    ensures forall k :: k in pending[..i] + pending[i + 1..] ==> k in pending
  {
  }
}
