/**
 The build coordinator of the site daemon: an HTTP request either starts the
 external build script or, when a build is already running, records that one
 more build is owed; when the running build exits, the coordinator goes idle
 or starts the owed build. This is a coalescing queue of depth one.

 The module has two layers. The first describes one event at a time as pure
 functions over the two flags (OnRequest, OnExit) and a whole run of events
 (Run); the lemmas about Run state the queue's guarantees over any sequence
 of events. The second is the class Coordinator, which keeps the two flags as
 mutable fields, as the daemon does, and whose methods are proved against the
 step functions.
 */
module BuildQueue {

  datatype Option<T> = None | Some(value: T)

  /** What the HTTP handler writes back: status, Content-Type header and body. */
  datatype Response = Response(status: nat, contentType: string, body: string)

  const StartedBody: string := "Build started.\n"
  const QueuedBody: string := "Build in process, placed in queue.\n"

  const StartedResponse: Response := Response(200, "text/plain", StartedBody)
  const QueuedResponse: Response := Response(200, "text/plain", QueuedBody)

  /** The two module-level variables of the daemon, read by truthiness. */
  datatype Flags = Flags(inProgress: bool, anotherAfter: bool)

  /** Both variables start out undefined, which reads as false. */
  const Idle: Flags := Flags(false, false)

  /** A build is owed only while one is running. */
  predicate Consistent(f: Flags) {
    f.anotherAfter ==> f.inProgress
  }

  /** Number of builds running in a given state. */
  function InFlight(f: Flags): nat {
    if f.inProgress then 1 else 0
  }

  /** The arguments the exec completion callback receives. */
  datatype BuildOutcome = BuildOutcome(error: Option<string>, stdout: string, stderr: string)

  /** What one request does: the new flags, the reply, and whether a build was launched. */
  datatype Triggered = Triggered(next: Flags, response: Response, launched: bool)

  /** What one build exit does: the new flags and whether the owed build was launched. */
  datatype Completed = Completed(next: Flags, relaunched: bool)

  /** The request handler: queue when busy, otherwise start a build. */
  function OnRequest(f: Flags): (r: Triggered)
    ensures r.response.status == 200 && r.response.contentType == "text/plain"
    ensures r.launched <==> !f.inProgress
    ensures r.response.body == (if r.launched then StartedBody else QueuedBody)
    ensures r.next.inProgress && Consistent(r.next)
    ensures f.inProgress ==> r.next.anotherAfter
    ensures !f.inProgress ==> r.next.anotherAfter == f.anotherAfter
  {
    if f.inProgress then
      Triggered(Flags(true, true), QueuedResponse, false)
    else
      Triggered(Flags(true, f.anotherAfter), StartedResponse, true)
  }

  /**
   The exec completion callback: the running build is over; if a build is
   owed, the debt is cleared and exactly one new build is started. The
   outcome is only logged, so it takes no part in the decision.
   */
  function OnExit(f: Flags, outcome: BuildOutcome): (r: Completed)
    requires f.inProgress
    ensures r.relaunched <==> f.anotherAfter
    ensures r.next.inProgress <==> r.relaunched
    ensures !r.next.anotherAfter && Consistent(r.next)
  {
    if f.anotherAfter then Completed(Flags(true, false), true)
    else Completed(Flags(false, false), false)
  }

  /** An event delivered to the coordinator's single event loop. */
  datatype Event = Request | BuildExit(outcome: BuildOutcome)

  /** Summary of a run: final flags, builds launched, builds that exited, replies sent. */
  datatype Trace = Trace(final: Flags, launches: nat, exits: nat, responses: seq<Response>)

  /**
   One event applied to a trace; None when a build exit is delivered while
   no build is running, which the daemon never sees (there is no child
   process whose callback could fire).
   */
  function Apply(t: Trace, e: Event): Option<Trace> {
    match e
    case Request =>
      var r := OnRequest(t.final);
      Some(Trace(r.next, t.launches + (if r.launched then 1 else 0), t.exits, t.responses + [r.response]))
    case BuildExit(o) =>
      if !t.final.inProgress then None
      else
        var c := OnExit(t.final, o);
        Some(Trace(c.next, t.launches + (if c.relaunched then 1 else 0), t.exits + 1, t.responses))
  }

  /** The effect of a sequence of events, delivered one at a time from `start`. */
  function Run(start: Flags, evs: seq<Event>): Option<Trace>
    decreases |evs|
  {
    if evs == [] then Some(Trace(start, 0, 0, []))
    else match Run(start, evs[..|evs| - 1])
      case None => None
      case Some(t) => Apply(t, evs[|evs| - 1])
  }

  /** A trigger while idle starts one build and answers "Build started.". */
  lemma TriggerWhileIdle(f: Flags)
    requires Consistent(f) && !f.inProgress
    ensures OnRequest(f) == Triggered(Flags(true, false), StartedResponse, true)
  {
  }

  /** A trigger while building owes one build, starts none and answers with the queued reply. */
  lemma TriggerWhileBuilding(f: Flags)
    requires f.inProgress
    ensures OnRequest(f) == Triggered(Flags(true, true), QueuedResponse, false)
  {
  }

  /** A second trigger during the same build changes nothing and gives the same answer. */
  lemma TriggerIsIdempotent(f: Flags)
    requires f.inProgress
    ensures OnRequest(OnRequest(f).next) == OnRequest(f)
    ensures OnRequest(Flags(true, true)).next == Flags(true, true)
  {
  }

  /** The exit's error, stdout and stderr never change what the coordinator does. */
  lemma ExitIgnoresOutcome(f: Flags, o1: BuildOutcome, o2: BuildOutcome)
    requires f.inProgress
    ensures OnExit(f, o1) == OnExit(f, o2)
  {
  }

  /**
   Over any run from a consistent state: the state stays consistent, every
   launch is matched by an exit except for the build still running (so at
   most one build is ever in flight), and every reply is 200 text/plain.
   */
  lemma {:induction false} RunAccounting(start: Flags, evs: seq<Event>)
    requires Consistent(start)
    ensures Run(start, evs).Some? ==>
      var t := Run(start, evs).value;
      Consistent(t.final) &&
      t.launches + InFlight(start) == t.exits + InFlight(t.final) &&
      |t.responses| <= |evs| &&
      forall i :: 0 <= i < |t.responses| ==>
        t.responses[i].status == 200 && t.responses[i].contentType == "text/plain"
  {
    if evs != [] {
      RunAccounting(start, evs[..|evs| - 1]);
    }
  }

  /**
   From the daemon's initial state, after any sequence of events: builds
   launched minus builds exited is zero or one.
   */
  lemma {:induction false} AtMostOneBuildInFlight(evs: seq<Event>)
    ensures Run(Idle, evs).Some? ==>
      var t := Run(Idle, evs).value;
      t.exits <= t.launches <= t.exits + 1 &&
      (t.launches == t.exits + 1 <==> t.final.inProgress)
  {
    RunAccounting(Idle, evs);
  }

  /** n requests in a row. */
  function Requests(n: nat): (evs: seq<Event>)
    ensures |evs| == n && forall i :: 0 <= i < n ==> evs[i] == Request
  {
    seq(n, _ => Request)
  }

  /** n queued replies in a row. */
  function QueuedReplies(n: nat): (rs: seq<Response>)
    ensures |rs| == n && forall i :: 0 <= i < n ==> rs[i] == QueuedResponse
  {
    seq(n, _ => QueuedResponse)
  }

  /**
   Any number of requests while a build runs launch nothing, each gets the
   queued reply, and a build is owed afterwards exactly when one was owed
   before or at least one request came.
   */
  lemma {:induction false} RequestsDuringBuild(f: Flags, n: nat)
    requires f.inProgress
    ensures Run(f, Requests(n)) == Some(Trace(Flags(true, f.anotherAfter || n > 0), 0, 0, QueuedReplies(n)))
  {
    if n > 0 {
      RequestsDuringBuild(f, n - 1);
      assert Requests(n)[..n - 1] == Requests(n - 1);
      assert QueuedReplies(n - 1) + [QueuedResponse] == QueuedReplies(n);
    }
  }

  /**
   Coalescing: n requests during one build followed by that build's exit
   launch at most one more build, and exactly one when a build was owed or
   any request came in.
   */
  lemma Coalescing(f: Flags, n: nat, o: BuildOutcome)
    requires f.inProgress
    ensures var owed := f.anotherAfter || n > 0;
      Run(f, Requests(n) + [BuildExit(o)])
        == Some(Trace(Flags(owed, false), if owed then 1 else 0, 1, QueuedReplies(n)))
  {
    RequestsDuringBuild(f, n);
    var evs := Requests(n) + [BuildExit(o)];
    assert evs[..|evs| - 1] == Requests(n);
  }

  /** Two event sequences with requests and exits at the same positions. */
  predicate SameShape(a: seq<Event>, b: seq<Event>) {
    |a| == |b| && forall i :: 0 <= i < |a| ==> (a[i].Request? <==> b[i].Request?)
  }

  /**
   Success or failure of the builds never matters: runs that differ only in
   the outcomes their builds report end in the same trace.
   */
  lemma {:induction false} RunIgnoresOutcomes(start: Flags, a: seq<Event>, b: seq<Event>)
    requires SameShape(a, b)
    ensures Run(start, a) == Run(start, b)
  {
    if a != [] {
      var k := |a| - 1;
      assert SameShape(a[..k], b[..k]);
      RunIgnoresOutcomes(start, a[..k], b[..k]);
    }
  }

  /**
   The daemon's coordinator: `inProgress` and `anotherAfter` are its mutable
   state. The ghost fields record what has happened so far: every event
   delivered, and the number of builds launched, requests received and
   builds completed.
   */
  class Coordinator {
    var inProgress: bool
    var anotherAfter: bool

    ghost var history: seq<Event>
    ghost var launches: nat
    ghost var triggers: nat
    ghost var completions: nat

    function State(): Flags
      reads this
    {
      Flags(inProgress, anotherAfter)
    }

    /** The flags and counters are what the recorded history produces from the initial state. */
    ghost predicate Valid()
      reads this
    {
      Consistent(State()) &&
      launches == completions + InFlight(State()) &&
      Run(Idle, history).Some? &&
      var t := Run(Idle, history).value;
      t.final == State() && t.launches == launches && t.exits == completions &&
      |t.responses| == triggers
    }

    constructor ()
      ensures Valid()
      ensures State() == Idle && history == []
      ensures launches == 0 && triggers == 0 && completions == 0
    {
      inProgress, anotherAfter := false, false;
      history, launches, triggers, completions := [], 0, 0, 0;
    }

    /** Launches the build script; both callers do so only when nothing is running or owed. */
    method RunBuild()
      requires !inProgress && !anotherAfter
      modifies this`inProgress, this`launches
      ensures inProgress && launches == old(launches) + 1
    {
      inProgress := true;
      launches := launches + 1;
    }

    /** The HTTP request handler. */
    method Trigger() returns (response: Response, launched: bool)
      requires Valid()
      modifies this
      ensures Valid()
      ensures OnRequest(old(State())) == Triggered(State(), response, launched)
      ensures history == old(history) + [Request]
      ensures triggers == old(triggers) + 1 && completions == old(completions)
      ensures launches == old(launches) + (if launched then 1 else 0)
    {
      if inProgress {
        anotherAfter := true;
        response, launched := QueuedResponse, false;
      } else {
        RunBuild();
        response, launched := StartedResponse, true;
      }
      triggers := triggers + 1;
      history := history + [Request];
      assert history[..|history| - 1] == old(history);
    }

    /** The exec completion callback of the running build. */
    method Complete(outcome: BuildOutcome) returns (relaunched: bool)
      requires Valid() && inProgress
      modifies this
      ensures Valid()
      ensures OnExit(old(State()), outcome) == Completed(State(), relaunched)
      ensures history == old(history) + [BuildExit(outcome)]
      ensures completions == old(completions) + 1 && triggers == old(triggers)
      ensures launches == old(launches) + (if relaunched then 1 else 0)
    {
      completions := completions + 1;
      inProgress := false;
      relaunched := false;
      if anotherAfter {
        anotherAfter := false;
        RunBuild();
        relaunched := true;
      }
      history := history + [BuildExit(outcome)];
      assert history[..|history| - 1] == old(history);
    }
  }

  /**
   A build followed by two requests while it runs, then its exit and the
   exit of the one owed build: two builds, two queued replies, idle again.
   */
  method TwoRequestsDuringOneBuild(failure: BuildOutcome, success: BuildOutcome)
    returns (bodies: seq<string>, builds: nat, idle: bool)
    ensures bodies == [StartedBody, QueuedBody, QueuedBody]
    ensures builds == 2 && idle
  {
    var c := new Coordinator();
    var r1, l1 := c.Trigger();
    var r2, l2 := c.Trigger();
    var r3, l3 := c.Trigger();
    var again := c.Complete(failure);
    assert again && c.inProgress && !c.anotherAfter;
    var more := c.Complete(success);
    bodies := [r1.body, r2.body, r3.body];
    builds := (if l1 then 1 else 0) + (if l2 then 1 else 0) + (if l3 then 1 else 0) + (if again then 1 else 0) + (if more then 1 else 0);
    idle := !c.inProgress && !c.anotherAfter;
  }
}
