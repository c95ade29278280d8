# Build-queue coordinator

A model of the daemon in `docker/files/build-queue.js`. It starts the site's
build script when an HTTP request arrives. If a build is already running, the
request is coalesced into at most one follow-up build. The daemon's state is
two module-level variables:

- `inProgress`: a build is running.
- `anotherAfter`: one more build is owed after the current one.

Two events change that state: a request to the HTTP handler, and the exit of
the running build process (the `exec` completion callback).

`build_queue.dfy` holds one module, `BuildQueue`, in two layers:

- **Step functions and runs.** `OnRequest` and `OnExit` give the effect of one
  event on the two flags. `Run` gives the effect of a whole sequence of events
  delivered one at a time. The lemmas about `Run` state the queue's guarantees:
  - at most one build is in flight;
  - requests during a build cause at most one follow-up;
  - a build is owed only while one is running;
  - build outcomes never matter.
- **The coordinator object.** The class `Coordinator` keeps `inProgress` and
  `anotherAfter` as mutable fields, as the daemon does. Its methods `Trigger`
  and `Complete` update them step by step, in the source's order. Ghost fields
  record the event history and count builds launched, requests received and
  builds completed. The invariant `Valid()` ties the fields and counters to
  `Run` of the history from the initial state. Each method is proved to
  perform exactly the step function's transition.

In JavaScript, `inProgress` holds the `ChildProcess` returned by `exec`
(truthy), `false`, or `undefined` before the first build. Only its truthiness
is ever read, so it is modelled as a `bool`. Both variables start `undefined`,
so the initial state is `Idle` (both false).

## Model

| member | source | states |
|---|---|---|
| BuildQueue.OnRequest | docker/files/build-queue.js:24-33 | every request is answered 200 `text/plain`; a build is launched iff none is running; the body is "Build started.\n" when one was launched and "Build in process, placed in queue.\n" otherwise; afterwards a build is running, and a request during a build leaves a build owed |
| BuildQueue.OnExit | docker/files/build-queue.js:16-20 | on exit of the running build a new build is launched iff one was owed; afterwards nothing is owed, and a build is running iff the owed one was launched |
| BuildQueue.TriggerWhileIdle | docker/files/build-queue.js:30-32 | a request while idle launches exactly one build, leaves it running with nothing owed, and answers "Build started.\n" |
| BuildQueue.TriggerWhileBuilding | docker/files/build-queue.js:27-29 | a request while building sets `anotherAfter`, launches nothing, and answers "Build in process, placed in queue.\n" |
| BuildQueue.TriggerIsIdempotent | docker/files/build-queue.js:27-29 | a repeated request during the same build gives the same state, reply and (no) launch as the first; with a build already owed the state is unchanged |
| BuildQueue.ExitIgnoresOutcome | docker/files/build-queue.js:10-20 | the exit transition is the same whatever `error`, `stdout` and `stderr` the callback receives |
| BuildQueue.RunAccounting | docker/files/build-queue.js:6-33 | over any event sequence from a consistent state: `anotherAfter` implies `inProgress` at the end; launches plus builds running at the start equal exits plus builds running at the end; every reply is 200 `text/plain` |
| BuildQueue.AtMostOneBuildInFlight | docker/files/build-queue.js:6-33 | from the initial idle state, after any events, builds launched minus builds exited is 0 or 1, and 1 exactly when `inProgress` |
| BuildQueue.RequestsDuringBuild | docker/files/build-queue.js:27-29 | n requests during a build launch nothing, get n queued replies, and leave a build owed iff one was owed before or n > 0 |
| BuildQueue.Coalescing | docker/files/build-queue.js:16-29 | n requests during one build, then that build's exit, launch exactly one further build when a build was owed or n > 0, and none otherwise; nothing is owed afterwards |
| BuildQueue.RunIgnoresOutcomes | docker/files/build-queue.js:10-20 | two event sequences that differ only in the outcomes of their build exits produce the same run |
| BuildQueue.Coordinator.constructor | docker/files/build-queue.js:6 | the coordinator starts idle with nothing owed, an empty history and zero counters |
| BuildQueue.Coordinator.RunBuild | docker/files/build-queue.js:8-10 | launching sets `inProgress` and counts one launch; it may be called only with nothing running and nothing owed, and both call sites are proved to meet that |
| BuildQueue.Coordinator.Trigger | docker/files/build-queue.js:24-33 | the request handler performs exactly `OnRequest` on the fields, returns its reply and launch flag, appends the request to the history and keeps `Valid()` |
| BuildQueue.Coordinator.Complete | docker/files/build-queue.js:10-21 | the completion callback clears `inProgress`, then clears `anotherAfter` before relaunching; together this is exactly `OnExit`; it appends the exit to the history and keeps `Valid()` |
| BuildQueue.TwoRequestsDuringOneBuild | docker/files/build-queue.js:6-33 | a first request, then two requests during that build, then two exits give the replies started, queued, queued; two builds run in all, and the coordinator ends idle |

## Left out

- HTTP server setup is not modelled: listening on `127.0.0.1:8002`, `res.writeHead` and `res.end` are I/O. Only the status, the Content-Type and the body are modelled, as a `Response` value.
- The child-process launch `exec("/root/build-site.sh", ...)` is a foreign call. A launch is modelled as setting `inProgress` and counting it. The process's exit is a separate event: `Complete`, or `BuildExit` in a run.
- Asynchrony is not modelled. The daemon handles requests and exits one at a time on its event loop, so each event is a discrete step.
- A build exit delivered while no build is running cannot occur in the daemon. `Run` returns `None` for it, and `Complete` requires `inProgress`.
- `console.log` output is not modelled, including the error, stdout and stderr logging in the callback. The outcome is carried as `BuildOutcome` only to show that it does not matter.
- The startup check of `/var/www/site/live` and its messages are not modelled. They are filesystem I/O and logging, with no effect on the state.
- The unused `sys` require is not modelled.
- The daemon has no timeout. A build that never exits keeps `inProgress` set forever, and the model has no event for that case either.
