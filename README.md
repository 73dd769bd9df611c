# In-process command runner of js-ipfs's CLI tests, in Dafny

js-ipfs tests its command-line interface without spawning processes:
`ipfsExec(repoPath)` returns a function that takes a command line such as
`"files get <hash>"`, runs that command's handler in the test process
against a backend node, collects what the handler prints, and returns a
promise that settles once the command signals completion and the node has
been cleaned up. This project models that runner and proves properties of
the model.

- `tokens.dfy` (module `Tokens`): `args.split(' ')` as `Split`, its inverse
  `Join`, and `output.join('')` as `Concat`, with the round trips and the
  order facts about them.
- `routing.dfy` (module `Routing`): alias routing (`cat`, `add`, `get` go to
  `files`), the `api` option (`/ip4/127.0.0.1/tcp/5002` for `daemon`,
  `false` otherwise and always in the `init` branch), and the resolution
  delay (1000 ms for `shutdown`, 0 otherwise), each tied back to the raw
  command line.
- `runner.dfy` (module `Runner`): class `Invocation`, one call of the
  runner. Its fields are the closure's state: `output` (the chunk list),
  `thrown` (the string form of what the handler threw, if it threw), whether `cleanup` is the real
  procedure yet, the write-once settlement, the count of real and of
  placeholder cleanup calls, the continuations the real cleanup still holds
  and the scheduled timers. Every callback is an event method (`Write`,
  `OnComplete`, `Acquired`, `HandlerThrew`, `ParserFailed`, `InitEvent`,
  `CleanupDone`, `TimerFired`); each one states its whole new state and
  keeps the invariant `Valid()`. The `.fail` stub is the constant function
  `Fail`: it resolves with `'sure'` whatever the command line, and runs
  nothing.
- `scenarios.dfy` (module `Scenarios`): complete runs driven through the
  event methods. Each `Run...` method takes a just-created invocation and
  states what its caller observes. The other methods run a concrete
  command line.

How the model reads the code:

- The command line is split on the single space character, as `split(' ')`
  does, not on whitespace in general. Two spaces in a row give an empty
  token. A leading space makes the first token empty, so no alias, `init`,
  `daemon` or `shutdown` is recognised.
- `onComplete()` calls `cleanup` each time it is called; nothing limits it
  to once. A completion error rejects and does not call cleanup at all.
- The option parse callback at line 97 has a third parameter named
  `output`, which shadows the closure's chunk list of line 46. The
  assignment `output = err.toString()` at line 113 and `reject(output)` at
  line 115 use that parameter, so a throw leaves the chunk list alone. In
  the model the thrown text is the separate field `thrown`. After a throw
  the sink still collects chunks, a sentinel still completes the run, and
  a completion's continuation still schedules its timer. That timer still
  resolves with the joined chunks. So when the handler completes and then
  throws, the order of the callbacks decides the result: the joined
  chunks or the thrown text.
- The continuation given to cleanup after a throw takes no argument, so it
  rejects with the thrown text even when the cleanup reports an error.
- The `init` branch passes `resolve` itself to the cleanup. The result
  therefore resolves with whatever the cleanup passes, an error included.
  An acquisition error in that branch is thrown out of the callback. The
  model assumes that `utils.getIPFS` calls back after the promise's executor
  (line 45) has returned, so the throw does not become a rejection and the
  promise never settles. A throw during the executor would reject instead.
  Everywhere else an acquisition error rejects.
- An error argument is `Some(e)` when the JavaScript value is truthy and
  `None` otherwise. What a handler throws enters the model as its string
  form (`err.toString()`).
- Callbacks arrive as event-method calls in any order the preconditions
  allow. Any continuation the real cleanup holds may be called back next
  (`CleanupDone(i, err)`). All timers of one invocation wait the same
  delay, so they fire in the order they were scheduled.

## Model

| member | source | states |
|---|---|---|
| `Tokens.Split` | test/utils/ipfs-exec.js:28 | splitting a command line always gives at least one token, and no token contains the separator |
| `Tokens.JoinOfSplit` | test/utils/ipfs-exec.js:28 | joining the tokens with the separator gives back the original command line, repeated spaces included |
| `Tokens.SplitOfJoin` | test/utils/ipfs-exec.js:28 | splitting the join of space-free tokens gives back exactly those tokens, so split and join are inverse |
| `Tokens.FirstToken` | test/utils/ipfs-exec.js:28 | the first token is `t` iff `t` has no space and the line is `t` alone or `t` followed by a space |
| `Tokens.Concat` | test/utils/ipfs-exec.js:59-65 | the joined output starts with the first chunk, is at least as long as every chunk, and is empty when every chunk is |
| `Tokens.ConcatOfAppend` | test/utils/ipfs-exec.js:65 | joining two chunk lists one after the other gives their joined texts one after the other |
| `Tokens.ConcatAppend` | test/utils/ipfs-exec.js:88 | pushing a chunk extends the joined output by exactly that chunk's text |
| `Tokens.ConcatAt` | test/utils/ipfs-exec.js:65 | the joined output is the earlier chunks, then chunk `i`, then the later chunks, with no separator |
| `Routing.Rewrite` | test/utils/ipfs-exec.js:29-32 | `files` is prepended exactly when the first token is `cat`, `add` or `get`; the original tokens follow in their order; the routed first token is never an alias (`IsAlias` is the test at line 30) |
| `Routing.RewriteOnce` | test/utils/ipfs-exec.js:30-32 | rewriting a routed vector again changes nothing, so `files` is never rewritten |
| `Routing.Route` | test/utils/ipfs-exec.js:28-32 | the routed argument vector is never empty |
| `Routing.RoutePlain` | test/utils/ipfs-exec.js:28-32 | a one-word line without spaces that is not an alias is routed to that word alone |
| `Routing.AliasRoutesAsFiles` | test/utils/ipfs-exec.js:29-32 | a line starting with an alias routes exactly as the same line with `files ` in front |
| `Routing.RoutedCommand` | test/utils/ipfs-exec.js:28-34 | for a command name other than an alias or `files`, the routed command is that name iff the line is the name alone or the name and a space |
| `Routing.ApiFor` | test/utils/ipfs-exec.js:100 | the api option is the daemon address exactly for `daemon`, otherwise `false` |
| `Routing.AcquireOptions` | test/utils/ipfs-exec.js:72-100 | the `init` branch asks for `{api: false}`; the daemon address is asked for exactly when the routed command is `daemon` |
| `Routing.DelayFor` | test/utils/ipfs-exec.js:63 | the delay is 1000 exactly for `shutdown`, otherwise 0 |
| `Routing.DaemonApiOnlyForDaemon` | test/utils/ipfs-exec.js:100 | the backend gets the api address iff the command line is `daemon` alone or followed by a space |
| `Routing.DelayOnlyForShutdown` | test/utils/ipfs-exec.js:63 | resolution is delayed by 1000 iff the command line is `shutdown` alone or followed by a space |
| `Routing.InitBranchOnlyForInit` | test/utils/ipfs-exec.js:72 | the `init` branch is taken iff the command line is `init` alone or followed by a space |
| `Runner.SettleOnce` | test/utils/ipfs-exec.js:45 | a promise settles once: the first settlement stays, later ones are ignored |
| `Runner.Push` | test/utils/ipfs-exec.js:88 | pushing appends the chunk at the end, keeps earlier chunks, and extends the joined text by the chunk |
| `Runner.Invocation.constructor` | test/utils/ipfs-exec.js:27-51 | the argument vector is the routed command line; output is empty; `cleanup` is the placeholder; nothing is settled, pending or scheduled |
| `Runner.Invocation.CallCleanup` | test/utils/ipfs-exec.js:49-57 | the real cleanup is counted and keeps its continuation; the placeholder ignores the continuation |
| `Runner.Invocation.OnComplete` | test/utils/ipfs-exec.js:54-57 | an error rejects with it and leaves cleanup untouched; no error calls cleanup once per call with the resolving continuation |
| `Runner.Invocation.Write` | test/utils/ipfs-exec.js:86-93 | the chunk is appended first; only the exact sentinel then completes without error; a throw before does not stop either |
| `Runner.Invocation.Acquired` | test/utils/ipfs-exec.js:74-103 | outside `init`, an error rejects and success installs the real cleanup; in `init` (`IsInit`, the test at line 72), an error settles nothing and success subscribes to `init` |
| `Runner.Invocation.HandlerThrew` | test/utils/ipfs-exec.js:112-116 | the thrown text goes to the parse callback's own `output`, the chunk list is unchanged; the real cleanup is called once, with the rejecting continuation; nothing settles yet |
| `Runner.Invocation.ParserFailed` | test/utils/ipfs-exec.js:109-110 | a parser error rejects with that error |
| `Runner.Invocation.InitEvent` | test/utils/ipfs-exec.js:76-79 | the first `init` event calls the real cleanup with `resolve`; later events do nothing |
| `Runner.Invocation.CleanupDone` | test/utils/ipfs-exec.js:57-66 | after a completion, an error rejects, otherwise a timer with the command's delay is scheduled, thrown or not; after a throw, always a rejection with the thrown text; in `init`, a resolution with the cleanup's argument |
| `Runner.Invocation.TimerFired` | test/utils/ipfs-exec.js:63-66 | the timer waited the command's delay and resolves with the concatenation of all chunks received so far, thrown or not |
| `Scenarios.RunTwoChunks` | test/utils/ipfs-exec.js:54-93 | two ordinary chunks and a clean completion resolve to the two chunks joined, after the command's delay, with one cleanup |
| `Scenarios.HelloWorld` | test/utils/ipfs-exec.js:28-93 | `files get QmHash` writing `hello` and `world` resolves to `helloworld` with no delay and one cleanup |
| `Scenarios.AliasedHelloWorld` | test/utils/ipfs-exec.js:28-32 | `get QmHash` is routed to `files get QmHash` and resolves the same way |
| `Scenarios.ShutdownWaits` | test/utils/ipfs-exec.js:63-66 | a `shutdown` run waits 1000 before resolving |
| `Scenarios.RunDaemon` | test/utils/ipfs-exec.js:86-93 | the sentinel completes the run without `onComplete`, and the result holds every chunk in arrival order, the sentinel included |
| `Scenarios.DaemonReady` | test/utils/ipfs-exec.js:89-100 | `daemon` gets the api address and resolves to text that contains the sentinel |
| `Scenarios.RunHandlerFault` | test/utils/ipfs-exec.js:112-116 | a throw rejects with the thrown text, whatever the cleanup reports, after exactly one cleanup |
| `Scenarios.HandlerFault` | test/utils/ipfs-exec.js:112-116 | `files add ./missing` whose handler throws rejects with the thrown text after one cleanup |
| `Scenarios.RunCompleteThenThrow` | test/utils/ipfs-exec.js:57-116 | a completion followed by a throw still schedules the timer; the run resolves with the chunk if the timer fires before the throw's continuation runs, and rejects with the thrown text otherwise; two cleanups, no timer left |
| `Scenarios.CompleteThenThrow` | test/utils/ipfs-exec.js:57-116 | the same for `files cat QmHash` writing `partial`: `partial` or the thrown text, by callback order |
| `Scenarios.RunThrowThenSentinel` | test/utils/ipfs-exec.js:86-116 | after a throw the sink still collects a chunk, and a sentinel still completes and calls the real cleanup a second time; nothing settles yet |
| `Scenarios.RunCompletionError` | test/utils/ipfs-exec.js:55 | a completion error rejects with it, without any cleanup; a second completion does not change that |
| `Scenarios.CompletionError` | test/utils/ipfs-exec.js:55 | the same for `files get QmHash` |
| `Scenarios.RunCleanupError` | test/utils/ipfs-exec.js:57-58 | a cleanup error after a clean completion rejects with it and schedules no timer |
| `Scenarios.CleanupError` | test/utils/ipfs-exec.js:57-58 | the same for `version` |
| `Scenarios.RunEarlySentinel` | test/utils/ipfs-exec.js:49-51 | a sentinel before acquisition reaches only the placeholder: nothing pending, nothing scheduled, nothing settled |
| `Scenarios.EarlySentinel` | test/utils/ipfs-exec.js:89-91 | the same for `daemon` |
| `Scenarios.RunInit` | test/utils/ipfs-exec.js:72-82 | `init` cleans up once after its `init` event and resolves with the cleanup's argument |
| `Scenarios.InitRun` | test/utils/ipfs-exec.js:72-82 | `init` is acquired without api and resolves with `undefined` after one cleanup |
| `Scenarios.RunInitAcquireError` | test/utils/ipfs-exec.js:74-75 | an acquisition error in `init` leaves the run unsettled and never cleaned up |
| `Scenarios.InitAcquireError` | test/utils/ipfs-exec.js:74-75 | the same for the line `init` |

## Left out

- Loading the command module by name with a dynamic `require`, and the yargs command builder (lines 35-43). Both are outside code with behaviour the runner cannot see. An unknown command throws from `require` before any promise exists; the model does not include that.
- The option parse by `yargs().option('api')` (lines 97-98), including the `throw err` in its callback. yargs calls that callback synchronously, inside the promise's executor, so such a throw would reject the promise. The model has no event for it. The parsed options are opaque. Only the `api` field the runner adds is modelled.
- How `parser.parse` runs the handler (line 105). The handler is an outside event source that calls `Write` and `OnComplete`, throws (`HandlerThrew`), or makes the parser report an error (`ParserFailed`).
- The internals of `utils.getIPFS`, `utils.setPrintStream`, `ipfs.once`/`ipfs.init` and the real cleanup (lines 74, 76-81, 95, 101). They are foreign calls. Acquisition is an event that may carry an error, the `init` event is another event, and the cleanup calling back is `CleanupDone`.
- The `stream.Writable` mechanics and the `next()` acknowledgement (lines 84-94). This is Node I/O; only the append-and-sentinel logic is kept. A chunk is treated as its text (`chunk.toString()`).
- Real time (line 64). A timer records its delay, and `TimerFired` reports the delay it waited.
- The model does not tell synchronous calls apart from later callbacks. It admits every order of events that the preconditions allow, which includes all the orders the real runner can produce.
- JavaScript truthiness is reduced to present/absent error arguments. A `null` passed by a cleanup to `resolve` in the `init` branch counts as `undefined`.
- `debug` logging, `console.log` in `.fail`, the `process.env.IPFS_PATH` assignment (line 25), `ipfsExec.repoPath` (line 123) and the commented-out execa version (lines 132-190). They do not affect the runner's results.
- `Fail` carries no contract. It is a constant stub that does not run the command, so there is nothing beyond its value to promise about it.
- Acquired: in the `init` branch an acquisition error settles nothing. This assumes that `utils.getIPFS` calls back after the promise's executor has returned. A synchronous callback would turn the `throw err` at line 75 into a rejection.
