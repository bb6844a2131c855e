/** How a panic that came before any streaming is answered, told from the run: by when
    the deadline fired, against the two looks at it that the 500 answer takes. */
module ObservedResponsePanics {
  import opened Common
  import opened ObservedResponse
  import opened ObservedResponseSteps

  /** The two writes of `replaceWithInternalError`. */
  datatype Part = Status | Text

  /** The watchdog is about to look at the deadline for this part of the answer. */
  predicate Looking(cfg: Config, w: WatchPc, part: Part) {
    if part.Status? then w == Panic(PHeader(InHeader(HDeadline, 500, Nothing)))
        else w == Panic(PWrite(InWrite(WDeadline, cfg.panicBody)))
  }

  /** Step `i` of the run is that look. */
  ghost predicate LooksAt(cfg: Config, steps: seq<Step>, i: nat, part: Part) {
    && i < |steps| && steps[i].WatchdogMoves?
    && Run(cfg, steps[..i]).Some? && Looking(cfg, Run(cfg, steps[..i]).value.w, part)
  }

  /** The deadline had fired by step `i`. */
  predicate FiredBefore(cfg: Config, steps: seq<Step>, i: nat)
    requires i <= |steps|
  {
    cfg.hasTimeout && ContextDone in steps[..i]
  }

  predicate Looked(cfg: Config, s: State, part: Part) {
    AnswersPanic(s) && !Looking(cfg, s.w, part) && (part.Text? ==> !(s.w.Panic? && s.w.ppc.PHeader?))
  }

  predicate Lost(s: State, part: Part) { if part.Status? then s.r.lostErrorStatus else s.r.lostErrorBody }

  lemma LookStep(cfg: Config, s: State, step: Step, part: Part)
    requires PhaseInv(cfg, s) && LockInv(s) && PanicInv(cfg, s) && InTimeInv(cfg, s) && Enabled(cfg, s, step)
    requires Looking(cfg, s.w, part) && step.WatchdogMoves?
    ensures var t := Next(cfg, s, step); Looked(cfg, t, part) && Lost(t, part) == Exceeded(cfg, s)
  {
  }

  /** Nothing changes in what has been looked at, and what was lost. */
  predicate SameLooks(cfg: Config, s: State, t: State, part: Part) {
    (Looked(cfg, t, part) <==> Looked(cfg, s, part)) && (Looked(cfg, s, part) ==> Lost(t, part) == Lost(s, part))
  }

  lemma StatusStep(cfg: Config, s: State, part: Part)
    requires PhaseInv(cfg, s) && PanicInv(cfg, s) && InTimeInv(cfg, s) && !Looking(cfg, s.w, part)
    requires s.w.Panic? && s.w.ppc.PHeader?
    ensures SameLooks(cfg, s, PanicStep(cfg, s, s.w.ppc), part)
  {
  }

  lemma TextStep(cfg: Config, s: State, part: Part)
    requires PhaseInv(cfg, s) && PanicInv(cfg, s) && InTimeInv(cfg, s) && !Looking(cfg, s.w, part)
    requires s.w.Panic? && s.w.ppc.PWrite?
    ensures SameLooks(cfg, s, PanicStep(cfg, s, s.w.ppc), part)
  {
  }

  lemma FinishLooks(cfg: Config, s: State, pc: FinishPc, part: Part)
    requires PhaseInv(cfg, s) && s.w == Finish(pc)
    ensures SameLooks(cfg, s, FinishStep(cfg, s, pc), part)
  {
  }

  lemma OtherWatchStep(cfg: Config, s: State, deadline: bool, part: Part)
    requires PhaseInv(cfg, s) && PanicInv(cfg, s) && InTimeInv(cfg, s) && WatchEnabled(cfg, s, deadline)
    requires !Looking(cfg, s.w, part)
    ensures SameLooks(cfg, s, WatchStep(cfg, s, deadline), part)
  {
    match s.w
    case Panic(PHeader(_)) => StatusStep(cfg, s, part);
    case Panic(PWrite(_)) => TextStep(cfg, s, part);
    case Finish(pc) => FinishLooks(cfg, s, pc, part);
    case _ => RestLooks(cfg, s, deadline, part);
  }

  lemma RestLooks(cfg: Config, s: State, deadline: bool, part: Part)
    requires PhaseInv(cfg, s) && WatchEnabled(cfg, s, deadline) && !Looking(cfg, s.w, part)
    requires !s.w.Finish? && (s.w.Panic? ==> s.w.ppc.PLoad? || s.w.ppc.PReset?)
    ensures SameLooks(cfg, s, WatchStep(cfg, s, deadline), part)
  {
  }

  lemma OtherStep(cfg: Config, s: State, step: Step, part: Part)
    requires Inv(cfg, s) && Enabled(cfg, s, step) && (step.WatchdogMoves? ==> !Looking(cfg, s.w, part))
    ensures SameLooks(cfg, s, Next(cfg, s, step), part)
  {
    match step
    case ContextDone =>
    case HandlerBegins(op) => assert !AnswersPanic(s);
    case HandlerMoves => assert !AnswersPanic(s);
    case WatchdogMoves(deadline) => OtherWatchStep(cfg, s, deadline, part);
  }

  /** Until the return, the context is done exactly if its step has been taken. */
  lemma {:induction false} DoneIsFired(cfg: Config, steps: seq<Step>)
    requires Run(cfg, steps).Some? && !Run(cfg, steps).value.w.End?
    ensures Run(cfg, steps).value.ctxDone <==> ContextDone in steps
  {
    if steps != [] {
      var n := |steps| - 1;
      var s := Run(cfg, steps[..n]).value;
      assert steps == steps[..n] + [steps[n]];
      assert Enabled(cfg, s, steps[n]) && Run(cfg, steps).value == Next(cfg, s, steps[n]);
      DoneStep(cfg, s, steps[n]);
      DoneIsFired(cfg, steps[..n]);
    }
  }

  lemma DoneStep(cfg: Config, s: State, step: Step)
    requires Enabled(cfg, s, step) && !Next(cfg, s, step).w.End?
    ensures !s.w.End? && (Next(cfg, s, step).ctxDone <==> s.ctxDone || step.ContextDone?)
  {
    match step
    case ContextDone =>
    case HandlerBegins(op) =>
    case HandlerMoves => HandlerDone(cfg, s);
    case WatchdogMoves(deadline) => WatchDone(cfg, s, deadline);
  }

  lemma HandlerDone(cfg: Config, s: State)
    requires s.h.In?
    ensures HandlerStep(cfg, s).ctxDone == s.ctxDone && HandlerStep(cfg, s).w == s.w
  {
    CallDone(cfg, s, Handler, s.h.call);
  }

  lemma CallDone(cfg: Config, s: State, who: Who, c: Call)
    ensures var t := CallStep(cfg, s, who, c).s; t.ctxDone == s.ctxDone && t.w == s.w
  {
    match c
    case InHeader(pc, status, next) =>
    case InWrite(pc, data) =>
    case InStream(pc, flush) =>
    case InFlush(pc) =>
    case Return =>
  }

  lemma WatchDone(cfg: Config, s: State, deadline: bool)
    requires WatchEnabled(cfg, s, deadline) && !WatchStep(cfg, s, deadline).w.End?
    ensures WatchStep(cfg, s, deadline).ctxDone == s.ctxDone
  {
    match s.w
    case Panic(pc) =>
      if pc.PHeader? || pc.PWrite? { CallDone(cfg, s, Watchdog, pc.call); }
    case _ =>
  }

  lemma LooksInPrefix(cfg: Config, steps: seq<Step>, n: nat, i: nat, part: Part)
    requires i < n <= |steps|
    ensures LooksAt(cfg, steps[..n], i, part) <==> LooksAt(cfg, steps, i, part)
    ensures FiredBefore(cfg, steps[..n], i) <==> FiredBefore(cfg, steps, i)
  {
    assert steps[..n][..i] == steps[..i];
  }

  /** What a run tells about a part: see the lemma. */
  ghost predicate Told(cfg: Config, steps: seq<Step>, s: State, part: Part) {
    && (Looked(cfg, s, part) ==> exists i :: LooksAt(cfg, steps, i, part))
    && (forall i :: LooksAt(cfg, steps, i, part) ==>
      Looked(cfg, s, part) && (Lost(s, part) <==> FiredBefore(cfg, steps, i)))
  }

  lemma LookTold(cfg: Config, steps: seq<Step>, s: State, step: Step, part: Part)
    requires Inv(cfg, s) && Enabled(cfg, s, step) && Run(cfg, steps) == Some(s) && Told(cfg, steps, s, part)
    requires Looking(cfg, s.w, part) && step.WatchdogMoves?
    ensures Told(cfg, steps + [step], Next(cfg, s, step), part)
  {
    var n, more := |steps|, steps + [step];
    LookStep(cfg, s, step, part);
    DoneIsFired(cfg, steps);
    assert more[..n] == steps && LooksAt(cfg, more, n, part);
    forall i: nat | LooksAt(cfg, more, i, part) ensures i == n {
      if i < n { LooksInPrefix(cfg, more, n, i, part); }
    }
  }

  lemma OtherTold(cfg: Config, steps: seq<Step>, s: State, step: Step, part: Part)
    requires Inv(cfg, s) && Enabled(cfg, s, step) && Run(cfg, steps) == Some(s) && Told(cfg, steps, s, part)
    requires !(Looking(cfg, s.w, part) && step.WatchdogMoves?)
    ensures Told(cfg, steps + [step], Next(cfg, s, step), part)
  {
    var n, more := |steps|, steps + [step];
    OtherStep(cfg, s, step, part);
    assert more[..n] == steps && !LooksAt(cfg, more, n, part);
    forall i: nat | i < n ensures (LooksAt(cfg, more, i, part) <==> LooksAt(cfg, steps, i, part))
        && (FiredBefore(cfg, more, i) <==> FiredBefore(cfg, steps, i)) {
      LooksInPrefix(cfg, more, n, i, part);
    }
    if Looked(cfg, s, part) {
      var i :| LooksAt(cfg, steps, i, part);
      assert LooksAt(cfg, more, i, part);
    }
  }

  /** A part has been looked at exactly when the run has a step that did, and it was
      lost exactly if the deadline had fired by then. */
  lemma {:induction false} RunTold(cfg: Config, steps: seq<Step>, part: Part)
    requires Run(cfg, steps).Some?
    ensures Told(cfg, steps, Run(cfg, steps).value, part)
  {
    if steps != [] {
      var n := |steps| - 1;
      var s := Run(cfg, steps[..n]).value;
      RunTold(cfg, steps[..n], part);
      RunKeeps(cfg, steps[..n]);
      assert steps == steps[..n] + [steps[n]];
      if Looking(cfg, s.w, part) && steps[n].WatchdogMoves? { LookTold(cfg, steps[..n], s, steps[n], part); }
      else { OtherTold(cfg, steps[..n], s, steps[n], part); }
    }
  }

  // -------------------------------------------------------------- the answer

  /** The 500 answer, or what is left of it when the deadline takes its text or both parts. */
  function PanicLog(cfg: Config, status: int, text: bool): seq<Event> {
    var body := if text && !cfg.head then cfg.panicBody else "";
    var header := if cfg.panicHeader.length.None? then Header(Some(|body|), cfg.panicHeader.other) else cfg.panicHeader;
    var commit := Commit(status, header);
    if cfg.head then [commit] else [commit, Body(body)]
  }

  /** A panic before streaming is answered by the whole text exactly if the deadline had
      not fired when the answer's `Write` looked at it, and with status 500 exactly if it
      had not when its `WriteHeader` did. Either look happens. */
  lemma PanicAnswer(cfg: Config, steps: seq<Step>)
    requires Run(cfg, steps).Some?
    requires var s := Run(cfg, steps).value; s.w.End? && s.phase.Completed? && s.h == Finished(true)
    ensures (exists i :: LooksAt(cfg, steps, i, Status)) && (exists j :: LooksAt(cfg, steps, j, Text))
    ensures forall i, j :: LooksAt(cfg, steps, i, Status) && LooksAt(cfg, steps, j, Text) ==>
      Run(cfg, steps).value.log == PanicLog(cfg, if FiredBefore(cfg, steps, i) then 200 else 500,
        !FiredBefore(cfg, steps, j))
  {
    RunKeeps(cfg, steps);
    RunTold(cfg, steps, Status);
    RunTold(cfg, steps, Text);
  }

  /** So a panic is answered by the whole 500 if the deadline does not fire before the end. */
  lemma PanicInTimeAnswers500(cfg: Config, steps: seq<Step>)
    requires Run(cfg, steps).Some? && ContextDone !in steps
    requires var s := Run(cfg, steps).value; s.w.End? && s.h == Finished(true) && !s.phase.Streaming?
    ensures Run(cfg, steps).value.log == PanicLog(cfg, 500, true)
  {
    NoDeadlineNoTimeout(cfg, steps);
    RunKeeps(cfg, steps);
    PanicAnswer(cfg, steps);
    var i :| LooksAt(cfg, steps, i, Status);
    var j :| LooksAt(cfg, steps, j, Text);
    assert !FiredBefore(cfg, steps, i) && !FiredBefore(cfg, steps, j);
  }

  /** Without a deadline `serveHTTP` ends in `finish`. */
  lemma {:induction false} NoDeadlineNoTimeout(cfg: Config, steps: seq<Step>)
    requires Run(cfg, steps).Some? && ContextDone !in steps
    ensures var s := Run(cfg, steps).value; !s.phase.TimedOut? && !s.phase.StreamingTimedOut?
  {
    if steps != [] {
      var n := |steps| - 1;
      var s := Run(cfg, steps[..n]).value;
      NoDeadlineNoTimeout(cfg, steps[..n]);
      RunKeeps(cfg, steps[..n]);
      if !s.w.End? { DoneIsFired(cfg, steps[..n]); }
      NoDeadlineStep(cfg, s, steps[n]);
    }
  }

  lemma NoDeadlineStep(cfg: Config, s: State, step: Step)
    requires Inv(cfg, s) && Enabled(cfg, s, step) && !s.phase.TimedOut? && !s.phase.StreamingTimedOut?
    requires (s.w.End? || !s.ctxDone)
    ensures var t := Next(cfg, s, step); !t.phase.TimedOut? && !t.phase.StreamingTimedOut?
  {
    match step
    case ContextDone =>
    case HandlerBegins(op) => assert Begin(cfg, s, op).phase == s.phase;
    case HandlerMoves => NoTimeoutCall(cfg, s, Handler, s.h.call);
    case WatchdogMoves(deadline) => NoDeadlineWatch(cfg, s, deadline);
  }

  lemma NoTimeoutCall(cfg: Config, s: State, who: Who, c: Call)
    ensures var t := CallStep(cfg, s, who, c).s; t.phase == s.phase || t.phase.Streaming?
  {
    match c
    case InHeader(pc, status, next) =>
    case InWrite(pc, data) =>
    case InStream(pc, flush) =>
    case InFlush(pc) =>
    case Return =>
  }

  lemma NoDeadlineWatch(cfg: Config, s: State, deadline: bool)
    requires PhaseInv(cfg, s) && WatchEnabled(cfg, s, deadline) && !s.ctxDone && !s.phase.TimedOut?
    requires !s.phase.StreamingTimedOut?
    ensures var t := WatchStep(cfg, s, deadline); !t.phase.TimedOut? && !t.phase.StreamingTimedOut?
  {
    match s.w
    case Panic(pc) => if pc.PHeader? || pc.PWrite? { NoTimeoutCall(cfg, s, Watchdog, pc.call); }
    case _ =>
  }
}
