/** Answers told by what the handler did. The reference is the list of the handler's
    operations, read one after the other as if nobody else ran. */
module ObservedResponseAnswers {
  import opened Common
  import opened ObservedResponse
  import opened ObservedResponseSteps
  import opened ObservedResponseTheorems
  import opened ObservedResponseAbandoned

  // ----------------------------------------------------- the handler's program

  /** The first status asked for, in words or by the first bytes. */
  function FirstStatus(ops: seq<Op>): Option<int> {
    if ops == [] then None
    else if FirstStatus(ops[..|ops| - 1]).Some? then FirstStatus(ops[..|ops| - 1])
    else match ops[|ops| - 1]
         case WriteHeader(status) => Some(status)
         case Write(_) => Some(200)
         case StartStreaming => Some(200)
         case Flush => Some(200)
         case _ => None
  }

  function Written(ops: seq<Op>): string {
    if ops == [] then ""
    else Written(ops[..|ops| - 1]) + if ops[|ops| - 1].Write? then ops[|ops| - 1].data else ""
  }

  /** The headers last set through the map the handler got at first. */
  function LastHeader(initial: Header, ops: seq<Op>): Header {
    if ops == [] then initial
    else
      var op := ops[|ops| - 1];
      if op.SetHeader? && !op.live then op.header else LastHeader(initial, ops[..|ops| - 1])
  }

  predicate AsksStream(op: Op) { op.StartStreaming? || op.Flush? }

  /** The operations up to the first that asks for streaming. */
  function UntilStream(ops: seq<Op>): seq<Op> {
    if ops == [] then []
    else
      var before := UntilStream(ops[..|ops| - 1]);
      if Opens(before) then before else before + [ops[|ops| - 1]]
  }

  predicate Opens(ops: seq<Op>) { ops != [] && AsksStream(ops[|ops| - 1]) }

  lemma {:induction false} UntilStreamFacts(ops: seq<Op>)
    ensures UntilStream(ops) <= ops
    ensures Opens(UntilStream(ops)) || (UntilStream(ops) == ops && StartStreaming !in ops && Flush !in ops)
  {
    if ops != [] {
      UntilStreamFacts(ops[..|ops| - 1]);
      assert ops == ops[..|ops| - 1] + [ops[|ops| - 1]];
    }
  }

  // ------------------------------------------------- what the handler asked for

  predicate Tells(cfg: Config, r: Record, ops: seq<Op>) {
    && r.askedStatus == FirstStatus(ops)
    && r.asked == (if cfg.head then "" else Written(ops))
    && r.wanted == LastHeader(cfg.initial, ops)
  }

  lemma BeginTells(cfg: Config, s: State, ops: seq<Op>, op: Op)
    requires Tells(cfg, s.r, ops)
    ensures Tells(cfg, Begin(cfg, s, op).r, ops + [op])
  {
    assert (ops + [op])[..|ops|] == ops;
    match op
    case SetHeader(_, live) => if live { } else { }
    case WriteHeader(status) =>
    case Write(data) =>
    case StartStreaming =>
    case Flush =>
    case ObserveDone =>
    case Exit(_) =>
  }

  /** The handler's operations after a step. */
  function Done(ops: seq<Op>, step: Step): seq<Op> { if step.HandlerBegins? then ops + [step.op] else ops }

  lemma InitTells(cfg: Config)
    ensures Run(cfg, []) == Some(Init(cfg)) && Tells(cfg, Init(cfg).r, [])
  {
  }

  lemma InitOpens(cfg: Config)
    ensures Run(cfg, []) == Some(Init(cfg)) && OpeningInv(cfg, Init(cfg), [])
  {
  }

  lemma LastStep(cfg: Config, steps: seq<Step>, t: State) returns (s: State)
    requires Run(cfg, steps) == Some(t) && steps != []
    ensures var before, step := steps[..|steps| - 1], steps[|steps| - 1];
      && Run(cfg, before) == Some(s) && Enabled(cfg, s, step) && t == Next(cfg, s, step)
      && Ops(steps) == Done(Ops(before), step)
  {
    s := Run(cfg, steps[..|steps| - 1]).value;
    assert Ops(steps[..|steps| - 1]) + [] == Ops(steps[..|steps| - 1]);
  }

  lemma NextTells(cfg: Config, s: State, ops: seq<Op>, step: Step)
    requires Tells(cfg, s.r, ops) && Enabled(cfg, s, step)
    ensures Tells(cfg, Next(cfg, s, step).r, Done(ops, step))
  {
    match step
    case ContextDone =>
    case HandlerBegins(op) => BeginTells(cfg, s, ops, op);
    case HandlerMoves => CallKeepsSeen(cfg, s, Handler, s.h.call);
    case WatchdogMoves(deadline) => WatchKeepsSeen(cfg, s, deadline);
  }

  lemma {:induction false} RunTells(cfg: Config, steps: seq<Step>, t: State)
    requires Run(cfg, steps) == Some(t)
    ensures Tells(cfg, t.r, Ops(steps))
  {
    if steps == [] {
      InitTells(cfg);
    } else {
      var s := LastStep(cfg, steps, t);
      RunTells(cfg, steps[..|steps| - 1], s);
      NextTells(cfg, s, Ops(steps[..|steps| - 1]), steps[|steps| - 1]);
    }
  }

  /** What `finish` sends for a handler that returned is what the handler's operations
      ask for, read in order: the first status, the last headers, all the bytes. A status
      that has a body gets its length when the handler gave none; 1xx, 204 and 304 get
      neither, and HEAD gets no body. */
  lemma FinishedAnswer(cfg: Config, steps: seq<Step>)
    requires Run(cfg, steps).Some?
    requires var s := Run(cfg, steps).value; s.w.End? && s.phase.Completed? && s.h == Finished(false)
    ensures var ops, log := Ops(steps), Run(cfg, steps).value.log;
      var status := if FirstStatus(ops).Some? then FirstStatus(ops).value else 200;
      var header, text := LastHeader(cfg.initial, ops), if cfg.head then "" else Written(ops);
      if status < 200 || status == 204 || status == 304 then log == [Commit(status, header)]
      else
        var full := Header(Some(if header.length.Some? then header.length.value else |text|), header.other);
        if cfg.head then log == [Commit(status, full)] else log == [Commit(status, full), Body(text)]
  {
    FinishedMeansComplete(cfg, steps);
    RunTells(cfg, steps, Run(cfg, steps).value);
    assert forall h: Header :: h.length.Some? ==> h == Header(Some(h.length.value), h.other);
  }

  // ------------------------------------------------------------ streamed answers

  /** The status line of a stream. */
  function Opening(cfg: Config, ops: seq<Op>): Event {
    var before := UntilStream(ops);
    Commit(if FirstStatus(before).Some? then FirstStatus(before).value else 200, LastHeader(cfg.initial, before))
  }

  predicate At(s: State, pc: StreamPc) { s.h.In? && s.h.call.InStream? && s.h.call.spc == pc }

  /** While nothing is committed: who asks for streaming is the first to do so, or the
      deadline has passed. */
  predicate StillPending(cfg: Config, s: State, ops: seq<Op>) {
    && (s.h.In? && s.h.call.InStream? ==> Opens(UntilStream(ops)))
    && (At(s, SSwap) ==> !s.r.lostStatus)
    && (s.phase.Pending? && Opens(UntilStream(ops)) ==>
          || (UntilStream(ops) == ops && (At(s, SLock) || At(s, SDeadline) || At(s, SSwap)))
          || (Exceeded(cfg, s) && !At(s, SSwap)))
  }

  predicate Opened(cfg: Config, s: State, ops: seq<Op>) {
    s.phase.Streaming? || s.phase.StreamingTimedOut? ==>
      && Opens(UntilStream(ops))
      && if At(s, SCommit) then Commit(s.status, s.dstHeader) == Opening(cfg, ops)
         else s.log != [] && s.log[0] == Opening(cfg, ops)
  }

  predicate OpeningInv(cfg: Config, s: State, ops: seq<Op>) { StillPending(cfg, s, ops) && Opened(cfg, s, ops) }

  lemma BeginOpens(cfg: Config, s: State, ops: seq<Op>, op: Op)
    requires OpeningInv(cfg, s, ops) && s.h.Idle?
    ensures OpeningInv(cfg, Begin(cfg, s, op), ops + [op])
  {
    UntilStreamFacts(ops);
    assert (ops + [op])[..|ops|] == ops;
    match op
    case SetHeader(_, live) => if live { } else { }
    case WriteHeader(status) =>
    case Write(data) =>
    case StartStreaming =>
    case Flush =>
    case ObserveDone =>
    case Exit(_) =>
  }

  lemma SwapOpens(cfg: Config, s: State, ops: seq<Op>)
    requires OpeningInv(cfg, s, ops) && Tells(cfg, s.r, ops)
    requires StatusInv(cfg, s) && Enabled(cfg, s, HandlerMoves) && At(s, SSwap)
    ensures OpeningInv(cfg, HandlerStep(cfg, s), ops)
  {
  }

  lemma CommitOpens(cfg: Config, s: State, ops: seq<Op>)
    requires OpeningInv(cfg, s, ops) && Enabled(cfg, s, HandlerMoves) && At(s, SCommit)
    requires s.phase.Streaming? && s.log == []
    ensures OpeningInv(cfg, HandlerStep(cfg, s), ops)
  {
  }

  lemma SendOpens(cfg: Config, s: State, ops: seq<Op>)
    requires OpeningInv(cfg, s, ops) && Enabled(cfg, s, HandlerMoves) && At(s, SSend) && s.phase.Streaming?
    ensures OpeningInv(cfg, HandlerStep(cfg, s), ops)
  {
    assert s.log != [];
  }

  lemma LookOpens(cfg: Config, s: State, ops: seq<Op>)
    requires OpeningInv(cfg, s, ops) && StatusInv(cfg, s) && Enabled(cfg, s, HandlerMoves)
    requires At(s, SLock) || At(s, SDeadline) || At(s, SUnlock)
    ensures OpeningInv(cfg, HandlerStep(cfg, s), ops)
  {
  }

  lemma StreamOpens(cfg: Config, s: State, ops: seq<Op>)
    requires OpeningInv(cfg, s, ops) && Tells(cfg, s.r, ops) && LogInv(cfg, s)
    requires CallInv(cfg, s) && StatusInv(cfg, s) && Enabled(cfg, s, HandlerMoves) && s.h.call.InStream?
    ensures OpeningInv(cfg, HandlerStep(cfg, s), ops)
  {
    match s.h.call.spc
    case SSwap => SwapOpens(cfg, s, ops);
    case SCommit => CommitOpens(cfg, s, ops);
    case SSend => SendOpens(cfg, s, ops);
    case _ => LookOpens(cfg, s, ops);
  }

  lemma HeaderOpens(cfg: Config, s: State, ops: seq<Op>)
    requires OpeningInv(cfg, s, ops)
    requires CallInv(cfg, s) && Enabled(cfg, s, HandlerMoves) && s.h.call.InHeader?
    ensures OpeningInv(cfg, HandlerStep(cfg, s), ops)
  {
  }

  lemma WriteOpens(cfg: Config, s: State, ops: seq<Op>)
    requires OpeningInv(cfg, s, ops)
    requires CallInv(cfg, s) && Enabled(cfg, s, HandlerMoves) && s.h.call.InWrite?
    ensures OpeningInv(cfg, HandlerStep(cfg, s), ops)
  {
  }

  lemma OtherCallOpens(cfg: Config, s: State, ops: seq<Op>)
    requires OpeningInv(cfg, s, ops)
    requires CallInv(cfg, s) && Enabled(cfg, s, HandlerMoves) && !s.h.call.InStream?
    ensures OpeningInv(cfg, HandlerStep(cfg, s), ops)
  {
    match s.h.call
    case InHeader(_, _, _) => HeaderOpens(cfg, s, ops);
    case InWrite(_, _) => WriteOpens(cfg, s, ops);
    case InFlush(pc) =>
    case Return =>
  }

  lemma PanicOpens(cfg: Config, s: State, ops: seq<Op>, pc: PanicPc)
    requires Inv(cfg, s) && OpeningInv(cfg, s, ops) && WatchEnabled(cfg, s, false) && s.w == Panic(pc)
    ensures OpeningInv(cfg, PanicStep(cfg, s, pc), ops)
  {
    if pc.PHeader? || pc.PWrite? { CallUnstreamed(cfg, s, Watchdog, pc.call); }
  }

  lemma FinishOpens(cfg: Config, s: State, ops: seq<Op>, pc: FinishPc)
    requires PhaseInv(cfg, s) && OpeningInv(cfg, s, ops) && s.w == Finish(pc)
    ensures OpeningInv(cfg, FinishStep(cfg, s, pc), ops)
  {
  }

  lemma TimeoutOpens(cfg: Config, s: State, ops: seq<Op>, pc: TimeoutPc)
    requires PhaseInv(cfg, s) && OpeningInv(cfg, s, ops) && s.w == Timeout(pc)
    ensures OpeningInv(cfg, TimeoutStep(cfg, s, pc), ops)
  {
  }

  lemma WatchOpens(cfg: Config, s: State, ops: seq<Op>, deadline: bool)
    requires Inv(cfg, s) && OpeningInv(cfg, s, ops) && WatchEnabled(cfg, s, deadline)
    ensures OpeningInv(cfg, WatchStep(cfg, s, deadline), ops)
  {
    match s.w
    case Panic(pc) => PanicOpens(cfg, s, ops, pc);
    case Finish(pc) => FinishOpens(cfg, s, ops, pc);
    case Timeout(pc) => TimeoutOpens(cfg, s, ops, pc);
    case _ =>
  }

  lemma NextOpens(cfg: Config, s: State, ops: seq<Op>, step: Step)
    requires Inv(cfg, s) && OpeningInv(cfg, s, ops) && Tells(cfg, s.r, ops) && Enabled(cfg, s, step)
    ensures OpeningInv(cfg, Next(cfg, s, step), Done(ops, step))
  {
    match step
    case ContextDone =>
    case HandlerBegins(op) => BeginOpens(cfg, s, ops, op);
    case HandlerMoves => if s.h.call.InStream? { StreamOpens(cfg, s, ops); } else { OtherCallOpens(cfg, s, ops); }
    case WatchdogMoves(deadline) => WatchOpens(cfg, s, ops, deadline);
  }

  lemma {:induction false} RunOpens(cfg: Config, steps: seq<Step>, t: State)
    requires Run(cfg, steps) == Some(t)
    ensures OpeningInv(cfg, t, Ops(steps))
  {
    if steps == [] {
      InitOpens(cfg);
    } else {
      var before := steps[..|steps| - 1];
      var s := LastStep(cfg, steps, t);
      RunOpens(cfg, before, s);
      RunKeeps(cfg, before);
      RunTells(cfg, before, s);
      NextOpens(cfg, s, Ops(before), steps[|steps| - 1]);
    }
  }

  lemma StreamedOpening(cfg: Config, steps: seq<Step>, t: State)
    requires Run(cfg, steps) == Some(t) && t.w.End? && (t.phase.Streaming? || t.phase.StreamingTimedOut?)
    ensures Opens(UntilStream(Ops(steps))) && t.log != [] && t.log[0] == Opening(cfg, Ops(steps))
  {
    RunOpens(cfg, steps, t);
    RunKeeps(cfg, steps);
    assert !At(t, SCommit);
  }

  lemma OpenedHasStatus(ops: seq<Op>)
    ensures Opens(ops) ==> FirstStatus(ops).Some?
  {
  }

  /** A streamed response opens with the first status and the last headers that the
      handler had asked for when it began to stream, and then has its bytes in order: all
      of them when the handler is done, unless the deadline won. */
  lemma StreamedAnswer(cfg: Config, steps: seq<Step>)
    requires Run(cfg, steps).Some?
    requires var s := Run(cfg, steps).value; s.w.End? && (s.phase.Streaming? || s.phase.StreamingTimedOut?)
    ensures var s, until := Run(cfg, steps).value, UntilStream(Ops(steps));
      && Opens(until) && FirstStatus(until).Some?
      && s.log != [] && s.log[0] == Commit(FirstStatus(until).value, LastHeader(cfg.initial, until))
      && (if cfg.head then Payload(s.log) == "" else Payload(s.log) <= Written(Ops(steps)))
      && (s.phase.Streaming? && !cfg.head ==> Payload(s.log) == Written(Ops(steps)))
  {
    StreamedOpening(cfg, steps, Run(cfg, steps).value);
    OpenedHasStatus(UntilStream(Ops(steps)));
    RunTells(cfg, steps, Run(cfg, steps).value);
    ServedExactlyOnce(cfg, steps);
    StreamIsNeverAppendedTo(cfg, Run(cfg, steps).value);
  }
}
