/** The answer to a request whose handler gave up. A load that is waited for may end in
    `ctx.Done`, and the handler then writes an empty entry, which would print as 200
    (internal/httptransport/response_cache.go:58-61): the step `Abandon` of Coherence. */
module ObservedResponseAbandoned {
  import opened Common
  import opened ObservedResponse
  import opened ObservedResponseSteps
  import opened ObservedResponseTheorems

  /** The handler has seen its context done, and has not asked for streaming. */
  predicate GivesUp(steps: seq<Step>) {
    && HandlerBegins(ObserveDone) in steps
    && HandlerBegins(StartStreaming) !in steps && HandlerBegins(Flush) !in steps
  }

  /** What `cachedResponse` leaves to its handler: the context seen done, and the empty
      entry written as `writeCachedResponse` does. */
  function EmptyEntry(): seq<Op> { [ObserveDone, WriteHeader(200), Write(""), Exit(false)] }

  /** The handler's part of a run. */
  function Ops(steps: seq<Step>): seq<Op> {
    if steps == [] then []
    else Ops(steps[..|steps| - 1]) + if steps[|steps| - 1].HandlerBegins? then [steps[|steps| - 1].op] else []
  }

  lemma {:induction false} OpsAreSteps(steps: seq<Step>, op: Op)
    ensures op in Ops(steps) <==> HandlerBegins(op) in steps
  {
    if steps != [] {
      var n := |steps| - 1;
      OpsAreSteps(steps[..n], op);
      assert steps == steps[..n] + [steps[n]];
    }
  }

  // ------------------------------------------------------------- a seen context

  /** No step but an operation of the handler changes what was asked for. */
  predicate SameAsked(s: State, t: State) {
    t.r.sawDone == s.r.sawDone && t.r.asked == s.r.asked && t.r.askedStatus == s.r.askedStatus
      && t.r.wanted == s.r.wanted
  }

  lemma HeaderKeepsSeen(cfg: Config, s: State, who: Who, pc: HeaderPc, status: int, next: Then)
    ensures SameAsked(s, HeaderStep(cfg, s, who, pc, status, next).s)
  {
  }

  lemma WriteKeepsSeen(cfg: Config, s: State, who: Who, pc: WritePc, data: string)
    ensures SameAsked(s, WriteStep(cfg, s, who, pc, data).s)
  {
  }

  lemma StreamKeepsSeen(cfg: Config, s: State, who: Who, pc: StreamPc, flush: bool)
    ensures SameAsked(s, StreamStep(cfg, s, who, pc, flush).s)
  {
  }

  lemma CallKeepsSeen(cfg: Config, s: State, who: Who, c: Call)
    ensures SameAsked(s, CallStep(cfg, s, who, c).s)
  {
    match c
    case InHeader(pc, status, next) => HeaderKeepsSeen(cfg, s, who, pc, status, next);
    case InWrite(pc, data) => WriteKeepsSeen(cfg, s, who, pc, data);
    case InStream(pc, flush) => StreamKeepsSeen(cfg, s, who, pc, flush);
    case InFlush(pc) =>
    case Return =>
  }

  lemma WatchKeepsSeen(cfg: Config, s: State, deadline: bool)
    requires WatchEnabled(cfg, s, deadline)
    ensures SameAsked(s, WatchStep(cfg, s, deadline))
  {
    match s.w
    case Panic(pc) => PanicKeepsSeen(cfg, s, pc);
    case _ =>
  }

  lemma PanicKeepsSeen(cfg: Config, s: State, pc: PanicPc)
    ensures SameAsked(s, PanicStep(cfg, s, pc))
  {
    if pc.PHeader? || pc.PWrite? { CallKeepsSeen(cfg, s, Watchdog, pc.call); }
  }

  lemma AskKeepsSeen(r: Record, status: int)
    ensures Ask(r, status).sawDone == r.sawDone
  {
  }

  lemma BeginCallSeen(cfg: Config, s: State, op: Op)
    requires op.WriteHeader? || op.StartStreaming? || op.Flush?
    ensures Begin(cfg, s, op).r.sawDone == s.r.sawDone
  {
    AskKeepsSeen(s.r, if op.WriteHeader? then op.status else 200);
  }

  lemma BeginWriteSeen(cfg: Config, s: State, data: string)
    ensures Begin(cfg, s, Write(data)).r.sawDone == s.r.sawDone
  {
    AskKeepsSeen(s.r, 200);
  }

  lemma BeginSeen(cfg: Config, s: State, op: Op)
    ensures Begin(cfg, s, op).r.sawDone == (s.r.sawDone || op.ObserveDone?)
  {
    match op
    case SetHeader(_, live) => if live { } else { }
    case Write(data) => BeginWriteSeen(cfg, s, data);
    case ObserveDone =>
    case Exit(_) =>
    case _ => BeginCallSeen(cfg, s, op);
  }

  lemma NextSeen(cfg: Config, s: State, step: Step)
    requires Enabled(cfg, s, step)
    ensures Next(cfg, s, step).r.sawDone == (s.r.sawDone || step == HandlerBegins(ObserveDone))
  {
    match step
    case ContextDone =>
    case HandlerBegins(op) => BeginSeen(cfg, s, op);
    case HandlerMoves => CallKeepsSeen(cfg, s, Handler, s.h.call);
    case WatchdogMoves(deadline) => WatchKeepsSeen(cfg, s, deadline);
  }

  lemma {:induction false} SeenInRun(cfg: Config, steps: seq<Step>)
    requires Run(cfg, steps).Some?
    ensures Run(cfg, steps).value.r.sawDone <==> HandlerBegins(ObserveDone) in steps
  {
    if steps != [] {
      var n := |steps| - 1;
      assert steps == steps[..n] + [steps[n]];
      SeenInRun(cfg, steps[..n]);
      NextSeen(cfg, Run(cfg, steps[..n]).value, steps[n]);
    }
  }

  // ---------------------------------------------------------------- no streaming

  /** Nothing streams, and no call that would start it is running. */
  predicate Unstreamed(s: State) {
    && !s.phase.Streaming? && !s.phase.StreamingTimedOut?
    && (s.h.In? ==> !s.h.call.InStream? && !s.h.call.InFlush?)
  }

  lemma CallUnstreamed(cfg: Config, s: State, who: Who, c: Call)
    requires !c.InStream? && !c.InFlush?
    ensures var m := CallStep(cfg, s, who, c); m.s.phase == s.phase && m.s.h == s.h && !m.c.InStream? && !m.c.InFlush?
  {
    match c
    case InHeader(pc, status, next) =>
    case InWrite(pc, data) =>
    case Return =>
  }

  lemma WatchUnstreamed(cfg: Config, s: State, deadline: bool)
    requires Unstreamed(s) && PhaseInv(cfg, s) && PanicInv(cfg, s) && WatchEnabled(cfg, s, deadline)
    ensures Unstreamed(WatchStep(cfg, s, deadline))
  {
    match s.w
    case Panic(pc) => PanicUnstreamed(cfg, s, pc);
    case _ =>
  }

  lemma PanicUnstreamed(cfg: Config, s: State, pc: PanicPc)
    requires Unstreamed(s) && PanicInv(cfg, s) && s.w == Panic(pc) && s.h == Finished(true)
    ensures Unstreamed(PanicStep(cfg, s, pc))
  {
    if pc.PHeader? || pc.PWrite? { CallUnstreamed(cfg, s, Watchdog, pc.call); }
  }

  lemma {:induction false} RunUnstreamed(cfg: Config, steps: seq<Step>)
    requires Run(cfg, steps).Some? && HandlerBegins(StartStreaming) !in steps && HandlerBegins(Flush) !in steps
    ensures Unstreamed(Run(cfg, steps).value)
  {
    if steps != [] {
      var n := |steps| - 1;
      var s := Run(cfg, steps[..n]).value;
      assert steps == steps[..n] + [steps[n]];
      RunUnstreamed(cfg, steps[..n]);
      RunKeeps(cfg, steps[..n]);
      match steps[n] {
        case ContextDone =>
        case HandlerBegins(op) =>
        case HandlerMoves => CallUnstreamed(cfg, s, Handler, s.h.call);
        case WatchdogMoves(deadline) => WatchUnstreamed(cfg, s, deadline);
      }
    }
  }

  // -------------------------------------------------------------------- answers

  /** With a processing timeout, whoever gives up is answered 503, whatever its handler
      writes and whether or not it returns or panics in the end. */
  lemma GivenUpAnswers503(cfg: Config, steps: seq<Step>)
    requires Run(cfg, steps).Some? && cfg.hasTimeout && GivesUp(steps) && Run(cfg, steps).value.w.End?
    ensures Run(cfg, steps).value.log == TimeoutLog(cfg)
  {
    RunKeeps(cfg, steps);
    SeenInRun(cfg, steps);
    RunUnstreamed(cfg, steps);
  }

  /** So the empty entry is never what the client gets. */
  lemma EmptyEntryNeverSent(cfg: Config, steps: seq<Step>)
    requires Run(cfg, steps).Some? && cfg.hasTimeout && Run(cfg, steps).value.w.End?
    requires Ops(steps) <= EmptyEntry() && Ops(steps) != []
    ensures Run(cfg, steps).value.log == TimeoutLog(cfg)
  {
    assert Ops(steps)[0] == ObserveDone;
    OpsAreSteps(steps, ObserveDone);
    OpsAreSteps(steps, StartStreaming);
    OpsAreSteps(steps, Flush);
    GivenUpAnswers503(cfg, steps);
  }
}
