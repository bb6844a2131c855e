/** What the deadline stops, and what goes through before it: after it nothing that the
    handler begins reaches the client, and until then every flush does. */
module ObservedResponseDeadline {
  import opened Common
  import opened ObservedResponse
  import opened ObservedResponseSteps
  import opened ObservedResponseTheorems
  import opened ObservedResponseAbandoned
  import opened ObservedResponseAnswers

  // ------------------------------------------------------------ cancellation

  /** With a processing timeout the handler's context is done when `serveHTTP` returns. */
  lemma {:induction false} ReturnCancels(cfg: Config, steps: seq<Step>, t: State)
    requires Run(cfg, steps) == Some(t) && cfg.hasTimeout && t.w.End?
    ensures t.ctxDone
  {
    if steps != [] {
      var s := LastStep(cfg, steps, t);
      var step := steps[|steps| - 1];
      if s.w.End? {
        ReturnCancels(cfg, steps[..|steps| - 1], s);
        DoneStays(cfg, s, step);
      } else {
        EndsByCancel(cfg, s, step);
      }
    }
  }

  lemma CallKeepsContext(cfg: Config, s: State, who: Who, c: Call)
    ensures CallStep(cfg, s, who, c).s.ctxDone == s.ctxDone && CallStep(cfg, s, who, c).s.w == s.w
  {
    match c
    case InHeader(pc, status, next) =>
    case InWrite(pc, data) =>
    case InStream(pc, flush) =>
    case InFlush(pc) =>
    case Return =>
  }

  lemma WatchKeepsContext(cfg: Config, s: State, deadline: bool)
    requires WatchEnabled(cfg, s, deadline)
    ensures WatchStep(cfg, s, deadline).ctxDone == (s.ctxDone || (s.w.Cancel? && cfg.hasTimeout))
    ensures WatchStep(cfg, s, deadline).w.End? ==> s.w.Cancel?
  {
    match s.w
    case Panic(pc) => if pc.PHeader? || pc.PWrite? { CallKeepsContext(cfg, s, Watchdog, pc.call); }
    case _ =>
  }

  lemma BeginKeepsContext(cfg: Config, s: State, op: Op)
    ensures Begin(cfg, s, op).ctxDone == s.ctxDone && Begin(cfg, s, op).w == s.w
  {
    match op
    case SetHeader(_, live) => if live { } else { }
    case _ =>
  }

  lemma DoneStays(cfg: Config, s: State, step: Step)
    requires Enabled(cfg, s, step) && s.ctxDone
    ensures Next(cfg, s, step).ctxDone
  {
    match step
    case ContextDone =>
    case HandlerBegins(op) => BeginKeepsContext(cfg, s, op);
    case HandlerMoves => CallKeepsContext(cfg, s, Handler, s.h.call);
    case WatchdogMoves(deadline) => WatchKeepsContext(cfg, s, deadline);
  }

  lemma EndsByCancel(cfg: Config, s: State, step: Step)
    requires Enabled(cfg, s, step) && !s.w.End? && Next(cfg, s, step).w.End? && cfg.hasTimeout
    ensures Next(cfg, s, step).ctxDone
  {
    match step
    case ContextDone =>
    case HandlerBegins(op) => BeginKeepsContext(cfg, s, op);
    case HandlerMoves => CallKeepsContext(cfg, s, Handler, s.h.call);
    case WatchdogMoves(deadline) => WatchKeepsContext(cfg, s, deadline);
  }

  // -------------------------------------------------------- after the deadline

  /** The handler is in a call that looked at the deadline in time and is about to act. */
  predicate PastLook(s: State) {
    s.h.In? && match s.h.call
               case InWrite(pc, _) => pc.WSend?
               case InStream(pc, _) => pc.SSwap? || pc.SCommit? || pc.SSend?
               case _ => false
  }

  /** The deadline has fired, and whatever looks at it from now on will see that. */
  predicate Late(cfg: Config, s: State) { Exceeded(cfg, s) && !PastLook(s) }

  /** Nothing of the handler has come since. */
  predicate Silenced(s: State, t: State) {
    && (t.phase.Streaming? || t.phase.StreamingTimedOut? ==>
          (s.phase.Streaming? || s.phase.StreamingTimedOut?) && Payload(t.log) == Payload(s.log))
    && (s.phase.Streaming? || s.phase.StreamingTimedOut? ==> t.phase.Streaming? || t.phase.StreamingTimedOut?)
  }

  lemma HeaderLate(cfg: Config, s: State)
    requires CallInv(cfg, s) && Late(cfg, s) && Enabled(cfg, s, HandlerMoves) && s.h.call.InHeader?
    ensures Late(cfg, HandlerStep(cfg, s)) && Silenced(s, HandlerStep(cfg, s))
  {
  }

  lemma WriteLate(cfg: Config, s: State)
    requires CallInv(cfg, s) && Late(cfg, s) && Enabled(cfg, s, HandlerMoves) && s.h.call.InWrite?
    ensures Late(cfg, HandlerStep(cfg, s)) && Silenced(s, HandlerStep(cfg, s))
  {
  }

  lemma StreamLate(cfg: Config, s: State)
    requires Late(cfg, s) && Enabled(cfg, s, HandlerMoves) && s.h.call.InStream?
    ensures Late(cfg, HandlerStep(cfg, s)) && Silenced(s, HandlerStep(cfg, s))
  {
  }

  lemma FlushLate(cfg: Config, s: State)
    requires Late(cfg, s) && Enabled(cfg, s, HandlerMoves) && s.h.call.InFlush?
    ensures Late(cfg, HandlerStep(cfg, s)) && Silenced(s, HandlerStep(cfg, s))
  {
    PayloadAppend(s.log, Flushed);
  }

  lemma HandlerLate(cfg: Config, s: State)
    requires CallInv(cfg, s) && Late(cfg, s) && Enabled(cfg, s, HandlerMoves)
    ensures Late(cfg, HandlerStep(cfg, s)) && Silenced(s, HandlerStep(cfg, s))
  {
    match s.h.call
    case InHeader(_, _, _) => HeaderLate(cfg, s);
    case InWrite(_, _) => WriteLate(cfg, s);
    case InStream(_, _) => StreamLate(cfg, s);
    case InFlush(_) => FlushLate(cfg, s);
    case Return =>
  }

  lemma WatchLate(cfg: Config, s: State, deadline: bool)
    requires PhaseInv(cfg, s) && PanicInv(cfg, s) && Late(cfg, s) && WatchEnabled(cfg, s, deadline)
    ensures Late(cfg, WatchStep(cfg, s, deadline)) && Silenced(s, WatchStep(cfg, s, deadline))
  {
    WatchKeepsContext(cfg, s, deadline);
    match s.w
    case Panic(pc) => if pc.PHeader? || pc.PWrite? { CallUnstreamed(cfg, s, Watchdog, pc.call); }
    case Finish(pc) =>
    case Timeout(pc) =>
    case _ =>
  }

  lemma NextLate(cfg: Config, s: State, step: Step)
    requires Inv(cfg, s) && Late(cfg, s) && Enabled(cfg, s, step)
    ensures Late(cfg, Next(cfg, s, step)) && Silenced(s, Next(cfg, s, step))
  {
    match step
    case ContextDone =>
    case HandlerBegins(op) => BeginLate(cfg, s, op);
    case HandlerMoves => HandlerLate(cfg, s);
    case WatchdogMoves(deadline) => WatchLate(cfg, s, deadline);
  }

  lemma BeginLate(cfg: Config, s: State, op: Op)
    requires Late(cfg, s) && s.h.Idle?
    ensures Late(cfg, Begin(cfg, s, op)) && Silenced(s, Begin(cfg, s, op))
  {
    match op
    case SetHeader(_, live) => if live { } else { }
    case _ =>
  }

  lemma LateOn(cfg: Config, s: State, u: State, step: Step)
    requires Inv(cfg, u) && Late(cfg, u) && Silenced(s, u) && Enabled(cfg, u, step)
    ensures Late(cfg, Next(cfg, u, step)) && Silenced(s, Next(cfg, u, step))
  {
    NextLate(cfg, u, step);
  }

  /** Once the deadline has fired, and the call that had looked at it before is done,
      nothing that the handler does starts a stream or adds a byte to one. */
  lemma {:induction false} NothingAfterDeadline(cfg: Config, steps: seq<Step>, k: nat, s: State, t: State)
    requires k <= |steps| && Run(cfg, steps[..k]) == Some(s) && Late(cfg, s) && Run(cfg, steps) == Some(t)
    ensures Late(cfg, t) && Silenced(s, t)
  {
    if k == |steps| {
      assert steps[..k] == steps;
    } else {
      var most := steps[..|steps| - 1];
      assert most[..k] == steps[..k];
      var u := LastStep(cfg, steps, t);
      NothingAfterDeadline(cfg, most, k, s, u);
      RunKeeps(cfg, most);
      LateOn(cfg, s, u, steps[|steps| - 1]);
    }
  }

  /** Without a processing timeout there is no 503 and nothing is cut short, even when the
      context is done: the handler is waited for, and all its bytes are sent. */
  lemma NothingLostWithoutTimeout(cfg: Config, steps: seq<Step>, t: State)
    requires Run(cfg, steps) == Some(t) && !cfg.hasTimeout
    ensures !t.phase.TimedOut? && !t.phase.StreamingTimedOut? && !t.r.lostData && !t.r.lostStatus
    ensures t.w.End? ==> t.h.Finished?
    ensures t.w.End? && t.phase.Streaming? && !cfg.head ==> Payload(t.log) == Written(Ops(steps))
  {
    RunKeeps(cfg, steps);
    if t.w.End? && t.phase.Streaming? { StreamedAnswer(cfg, steps); }
  }

  // ------------------------------------------------------------------ flushes

  function FlushesSent(log: seq<Event>): nat {
    if log == [] then 0 else FlushesSent(log[..|log| - 1]) + if log[|log| - 1].Flushed? then 1 else 0
  }

  function FlushesAsked(ops: seq<Op>): nat {
    if ops == [] then 0 else FlushesAsked(ops[..|ops| - 1]) + if ops[|ops| - 1].Flush? then 1 else 0
  }

  lemma SentAppend(log: seq<Event>, e: Event)
    ensures FlushesSent(log + [e]) == FlushesSent(log) + if e.Flushed? then 1 else 0
  {
    assert (log + [e])[..|log|] == log;
  }

  /** The running `Flush` has not reached the client yet. */
  predicate Flushing(s: State) {
    s.h.In? && match s.h.call
               case InStream(_, flush) => flush
               case InFlush(pc) => !pc.FUnlock?
               case _ => false
  }

  /** The running call is the handler's last operation. */
  predicate LastOp(s: State, ops: seq<Op>) {
    s.h.In? ==> match s.h.call
                case InStream(_, flush) => ops != [] && ops[|ops| - 1] == if flush then Flush else StartStreaming
                case _ => true
  }

  predicate FlushInv(s: State, ops: seq<Op>) {
    && LastOp(s, ops)
    && (s.phase.Streaming? ==> FlushesSent(s.log) + (if Flushing(s) then 1 else 0) == FlushesAsked(ops))
  }

  lemma {:induction false} NoFlushBefore(ops: seq<Op>)
    ensures UntilStream(ops) == ops ==> FlushesAsked(ops) == if Opens(ops) && ops[|ops| - 1].Flush? then 1 else 0
  {
    if ops != [] {
      var before := ops[..|ops| - 1];
      NoFlushBefore(before);
      UntilStreamFacts(before);
      assert |UntilStream(before)| <= |before|;
      if UntilStream(ops) == ops { assert UntilStream(before) == before && !Opens(before); }
    }
  }

  lemma BeginFlushes(cfg: Config, s: State, ops: seq<Op>, op: Op)
    requires FlushInv(s, ops) && s.h.Idle?
    ensures FlushInv(Begin(cfg, s, op), ops + [op])
  {
    assert (ops + [op])[..|ops|] == ops;
    match op
    case SetHeader(_, live) => if live { } else { }
    case _ =>
  }

  lemma HeaderFlushes(cfg: Config, s: State, ops: seq<Op>)
    requires FlushInv(s, ops) && CallInv(cfg, s) && Enabled(cfg, s, HandlerMoves) && s.h.call.InHeader?
    ensures FlushInv(HandlerStep(cfg, s), ops)
  {
  }

  lemma WriteFlushes(cfg: Config, s: State, ops: seq<Op>)
    requires FlushInv(s, ops) && CallInv(cfg, s) && Enabled(cfg, s, HandlerMoves) && s.h.call.InWrite?
    ensures FlushInv(HandlerStep(cfg, s), ops)
  {
    SentAppend(s.log, Body(s.h.call.data));
  }

  lemma FlushFlushes(cfg: Config, s: State, ops: seq<Op>)
    requires FlushInv(s, ops) && Enabled(cfg, s, HandlerMoves) && s.h.call.InFlush?
    ensures FlushInv(HandlerStep(cfg, s), ops)
  {
    SentAppend(s.log, Flushed);
  }

  lemma CallFlushes(cfg: Config, s: State, ops: seq<Op>)
    requires FlushInv(s, ops) && OpeningInv(cfg, s, ops) && CallInv(cfg, s) && LogInv(cfg, s)
    requires Enabled(cfg, s, HandlerMoves)
    ensures FlushInv(HandlerStep(cfg, s), ops)
  {
    match s.h.call
    case InHeader(_, _, _) => HeaderFlushes(cfg, s, ops);
    case InWrite(_, _) => WriteFlushes(cfg, s, ops);
    case InStream(_, _) => StreamFlushes(cfg, s, ops);
    case InFlush(_) => FlushFlushes(cfg, s, ops);
    case Return =>
  }

  lemma SwapFlushes(cfg: Config, s: State, ops: seq<Op>)
    requires FlushInv(s, ops) && StillPending(cfg, s, ops) && LogInv(cfg, s) && Enabled(cfg, s, HandlerMoves)
    requires At(s, SSwap)
    ensures FlushInv(HandlerStep(cfg, s), ops)
  {
    NoFlushBefore(ops);
  }

  lemma CommitFlushes(cfg: Config, s: State, ops: seq<Op>)
    requires FlushInv(s, ops) && CallInv(cfg, s) && Enabled(cfg, s, HandlerMoves) && At(s, SCommit)
    ensures FlushInv(HandlerStep(cfg, s), ops)
  {
    SentAppend(s.log, Commit(s.status, s.dstHeader));
  }

  lemma SendFlushes(cfg: Config, s: State, ops: seq<Op>)
    requires FlushInv(s, ops) && CallInv(cfg, s) && Enabled(cfg, s, HandlerMoves) && At(s, SSend)
    ensures FlushInv(HandlerStep(cfg, s), ops)
  {
    SentAppend(s.log, Body(s.body));
  }

  lemma StreamFlushes(cfg: Config, s: State, ops: seq<Op>)
    requires FlushInv(s, ops) && OpeningInv(cfg, s, ops) && CallInv(cfg, s) && LogInv(cfg, s)
    requires Enabled(cfg, s, HandlerMoves) && s.h.call.InStream?
    ensures FlushInv(HandlerStep(cfg, s), ops)
  {
    match s.h.call.spc
    case SSwap => SwapFlushes(cfg, s, ops);
    case SCommit => CommitFlushes(cfg, s, ops);
    case SSend => SendFlushes(cfg, s, ops);
    case SLock =>
    case SDeadline =>
    case SUnlock =>
  }

  lemma FinishFlushes(cfg: Config, s: State, ops: seq<Op>, pc: FinishPc)
    requires FlushInv(s, ops) && PhaseInv(cfg, s) && s.w == Finish(pc)
    ensures FlushInv(FinishStep(cfg, s, pc), ops)
  {
  }

  lemma PanicFlushes(cfg: Config, s: State, ops: seq<Op>, pc: PanicPc)
    requires FlushInv(s, ops) && PhaseInv(cfg, s) && PanicInv(cfg, s) && s.w == Panic(pc)
    ensures FlushInv(PanicStep(cfg, s, pc), ops)
  {
    if pc.PHeader? || pc.PWrite? { CallUnstreamed(cfg, s, Watchdog, pc.call); }
  }

  lemma WatchFlushes(cfg: Config, s: State, ops: seq<Op>, deadline: bool)
    requires FlushInv(s, ops) && PhaseInv(cfg, s) && PanicInv(cfg, s) && WatchEnabled(cfg, s, deadline)
    ensures FlushInv(WatchStep(cfg, s, deadline), ops)
  {
    match s.w
    case Panic(pc) => PanicFlushes(cfg, s, ops, pc);
    case Finish(pc) => FinishFlushes(cfg, s, ops, pc);
    case _ =>
  }

  lemma NextFlushes(cfg: Config, s: State, ops: seq<Op>, step: Step)
    requires Inv(cfg, s) && FlushInv(s, ops) && OpeningInv(cfg, s, ops) && Enabled(cfg, s, step)
    ensures FlushInv(Next(cfg, s, step), Done(ops, step))
  {
    match step
    case ContextDone =>
    case HandlerBegins(op) => BeginFlushes(cfg, s, ops, op);
    case HandlerMoves => CallFlushes(cfg, s, ops);
    case WatchdogMoves(deadline) => WatchFlushes(cfg, s, ops, deadline);
  }

  lemma {:induction false} RunFlushes(cfg: Config, steps: seq<Step>, t: State)
    requires Run(cfg, steps) == Some(t)
    ensures FlushInv(t, Ops(steps))
  {
    if steps != [] {
      var before := steps[..|steps| - 1];
      var s := LastStep(cfg, steps, t);
      RunFlushes(cfg, before, s);
      RunKeeps(cfg, before);
      RunOpens(cfg, before, s);
      NextFlushes(cfg, s, Ops(before), steps[|steps| - 1]);
    }
  }

  /** While the stream is not timed out, every flush that the handler has asked for, and
      is not still in the middle of, has reached the client. */
  lemma FlushesArrive(cfg: Config, steps: seq<Step>, t: State)
    requires Run(cfg, steps) == Some(t) && t.phase.Streaming?
    ensures FlushesSent(t.log) <= FlushesAsked(Ops(steps)) <= FlushesSent(t.log) + 1
    ensures !t.h.In? ==> FlushesSent(t.log) == FlushesAsked(Ops(steps))
  {
    RunFlushes(cfg, steps, t);
  }
}
