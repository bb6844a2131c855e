/** What holds of every run of `serveHTTP`. */
module ObservedResponseTheorems {
  import opened Common
  import opened ObservedResponse
  import opened ObservedResponseSteps

  ghost predicate Reachable(cfg: Config, s: State) { exists steps :: Run(cfg, steps) == Some(s) }

  lemma ReachableKeeps(cfg: Config, s: State)
    requires Reachable(cfg, s)
    ensures Inv(cfg, s)
  {
    var steps :| Run(cfg, steps) == Some(s);
    RunKeeps(cfg, steps);
  }

  function CommitCount(log: seq<Event>): nat {
    if log == [] then 0 else CommitCount(log[..|log| - 1]) + if log[|log| - 1].Commit? then 1 else 0
  }

  lemma {:induction false} CommittedOnceCount(log: seq<Event>)
    requires CommittedOnce(log)
    ensures CommitCount(log) == 1
  {
    if |log| == 1 {
      assert log[..0] == [];
    } else {
      CommittedOnceCount(log[..|log| - 1]);
    }
  }

  /** A status line, with a body wherever one is allowed. */
  predicate OneAnswer(cfg: Config, log: seq<Event>) {
    && 1 <= |log| <= 2 && log[0].Commit?
    && (|log| == 2 <==> !cfg.head && log[0].status >= 200 && log[0].status != 204 && log[0].status != 304)
    && (|log| == 2 ==> log[1].Body?)
  }

  lemma FinishedShape(cfg: Config, s: State)
    ensures OneAnswer(cfg, FinishedLog(cfg, s))
  {
  }

  lemma LoneCommit(e: Event)
    requires e.Commit?
    ensures Payload([e]) == ""
  {
    PayloadAppend([], e);
    assert [] + [e] == [e];
  }

  lemma ServedState(cfg: Config, s: State)
    requires PhaseInv(cfg, s) && LogInv(cfg, s) && LockInv(s) && CallInv(cfg, s) && DataInv(cfg, s) && BufferInv(cfg, s)
    requires s.w.End?
    ensures CommitCount(s.log) == 1 && s.log[0].Commit? && !s.phase.Pending?
    ensures s.phase.TimedOut? ==> s.log == TimeoutLog(cfg)
    ensures s.phase.Completed? ==> OneAnswer(cfg, s.log)
    ensures s.phase.Streaming? || s.phase.StreamingTimedOut? ==> Payload(s.log) <= s.r.asked
    ensures cfg.head ==> Payload(s.log) == ""
  {
    FinishedShape(cfg, s);
    assert CommittedOnce(s.log);
    CommittedOnceCount(s.log);
    if cfg.head && |s.log| == 1 { LoneCommit(s.log[0]); assert s.log == [s.log[0]]; }
  }

  /** By the time `serveHTTP` returns, in every interleaving, the real writer
      has committed exactly one status line, before anything else, and what it
      was given is the complete 503 answer, the complete answer of `finish`, or
      a status line followed by a prefix of the bytes the handler streamed. */
  lemma ServedExactlyOnce(cfg: Config, steps: seq<Step>)
    requires Run(cfg, steps).Some? && Run(cfg, steps).value.w.End?
    ensures var s := Run(cfg, steps).value;
            && CommitCount(s.log) == 1 && s.log[0].Commit?
            && (match s.phase
                case Pending => false
                case TimedOut =>
                  s.log == [Commit(503, cfg.timeoutHeader)] + if cfg.head then [] else [Body(cfg.timeoutBody)]
                case Completed => OneAnswer(cfg, s.log)
                case _ => Payload(s.log) <= s.r.asked)
            && (cfg.head ==> Payload(s.log) == "")
  {
    RunKeeps(cfg, steps);
    ServedState(cfg, Run(cfg, steps).value);
  }

  /** A response whose status line went out by streaming never has the 503
      answer, or anything but the handler's own bytes, after it. It has all of them while
      no deadline fired, and at the return unless the deadline won. */
  lemma StreamIsNeverAppendedTo(cfg: Config, s: State)
    requires Reachable(cfg, s) && (s.phase.Streaming? || s.phase.StreamingTimedOut?)
    ensures Payload(s.log) <= s.r.asked
    ensures forall i :: 1 <= i < |s.log| ==> !s.log[i].Commit?
    ensures s.h.Finished? && (!Exceeded(cfg, s) || (s.w.End? && s.phase.Streaming?)) ==> Payload(s.log) == s.r.asked
    ensures s.w.End? && s.phase.Streaming? ==> s.h.Finished?
  {
    ReachableKeeps(cfg, s);
  }

  lemma SilentStep(cfg: Config, s: State, step: Step)
    requires PhaseInv(cfg, s) && CallInv(cfg, s) && s.w.End? && Enabled(cfg, s, step)
    ensures Next(cfg, s, step).log == s.log
  {
  }

  /** Once `serveHTTP` has returned nothing reaches the real writer, whatever a
      handler that is still running does. */
  lemma SilentAfterReturn(cfg: Config, steps: seq<Step>, step: Step)
    requires Run(cfg, steps).Some? && Run(cfg, steps).value.w.End? && Enabled(cfg, Run(cfg, steps).value, step)
    ensures Next(cfg, Run(cfg, steps).value, step).log == Run(cfg, steps).value.log
  {
    RunKeeps(cfg, steps);
    SilentStep(cfg, Run(cfg, steps).value, step);
  }

  /** When `finish` commits the response of a handler that did not panic,
      nothing the handler did was ignored: status, headers and body are exactly
      what it produced. With a processing timeout it also never saw its context
      done, so an answer made up after `ctx.Done` is never sent. */
  lemma FinishedMeansComplete(cfg: Config, steps: seq<Step>)
    requires Run(cfg, steps).Some?
    requires var s := Run(cfg, steps).value; s.w.End? && s.phase.Completed? && s.h == Finished(false)
    ensures var s := Run(cfg, steps).value;
            var status := if s.r.askedStatus.Some? then s.r.askedStatus.value else 200;
            var bodied := status >= 200 && status != 204 && status != 304;
            var header := if s.r.wanted.length.None? && bodied then Header(Some(|s.r.asked|), s.r.wanted.other)
                          else s.r.wanted;
            && s.log == [Commit(status, header)] + (if bodied && !cfg.head then [Body(s.r.asked)] else [])
            && (cfg.hasTimeout ==> !s.r.sawDone)
  {
    RunKeeps(cfg, steps);
  }

  lemma Holders(lock: Option<Who>)
    ensures lock == None || lock == Some(Handler) || lock == Some(Watchdog)
  {
    match lock
    case None =>
    case Some(who) => match who { case Handler => case Watchdog => }
  }

  /** `serveHTTP` waits for nothing but a running handler, and a handler that
      holds the mutex can always go on. */
  lemma NeverStuck(cfg: Config, s: State)
    requires Reachable(cfg, s)
    ensures || s.w.End? || WatchEnabled(cfg, s, false) || WatchEnabled(cfg, s, true)
            || (s.w.Select? && !s.h.Finished?)
            || (s.lock == Some(Handler) && Enabled(cfg, s, HandlerMoves))
  {
    ReachableKeeps(cfg, s);
    Holders(s.lock);
    match s.w
    case Panic(pc) =>
      assert pc.PHeader? || pc.PWrite? ==> CallEnabled(s, pc.call);
    case Finish(pc) => assert s.lock != Some(Handler) && (pc.NLock? ==> s.lock != Some(Watchdog));
    case Timeout(pc) => assert pc.TLock? ==> s.lock != Some(Watchdog);
    case Late(pc) => assert pc.LLock? ==> s.lock != Some(Watchdog);
    case _ =>
  }

  lemma Extend(cfg: Config, steps: seq<Step>, s: State, step: Step) returns (more: seq<Step>, t: State)
    requires Run(cfg, steps) == Some(s) && Enabled(cfg, s, step)
    ensures more == steps + [step] && t == Next(cfg, s, step) && Run(cfg, more) == Some(t)
  {
    more, t := steps + [step], Next(cfg, s, step);
    assert more[..|steps|] == steps;
  }

  /** A run in which the deadline fires after `serveHTTP` decided that the handler
      had panicked in time: the client gets status 200, the length of the 500
      answer and no body. */
  lemma LatePanicAnswers200(cfg: Config) returns (steps: seq<Step>)
    requires cfg.hasTimeout && !cfg.head
    ensures var r := Run(cfg, steps);
            r.Some? && r.value.w.End? && r.value.log == [Commit(200, WithLength(cfg.panicHeader, 200, "")), Body("")]
  {
    steps := PanicSeenInTime(cfg);
    var s := Run(cfg, steps).value;
    var watch := WatchdogMoves(false);
    steps, s := Extend(cfg, steps, s, ContextDone);
    steps, s := Extend(cfg, steps, s, watch);
    steps, s := Extend(cfg, steps, s, watch);
    assert s.w == Panic(PHeader(Return)) && !s.wroteHeader;
    steps, s := Extend(cfg, steps, s, watch);
    steps, s := Extend(cfg, steps, s, watch);
    steps, s := Extend(cfg, steps, s, watch);
    steps := CommitEmpty(cfg, steps, s);
  }

  /** The beginning of that run: the handler panics at once, no deadline yet. */
  lemma PanicSeenInTime(cfg: Config) returns (steps: seq<Step>)
    ensures Run(cfg, steps) == Some(Init(cfg).(h := Finished(true), w := Panic(PReset)))
  {
    var s := Init(cfg);
    var watch := WatchdogMoves(false);
    steps := [];
    steps, s := Extend(cfg, steps, s, HandlerBegins(Exit(true)));
    steps, s := Extend(cfg, steps, s, watch);
    steps, s := Extend(cfg, steps, s, watch);
    steps, s := Extend(cfg, steps, s, watch);
  }

  /** Its end: `finish` commits the headers that are there, and nothing else. */
  lemma CommitEmpty(cfg: Config, before: seq<Step>, was: State) returns (steps: seq<Step>)
    requires Run(cfg, before) == Some(was) && was.w == Finish(NLock) && was.lock.None?
    requires was.phase.Pending? && !was.wroteHeader && was.body == "" && was.log == [] && !cfg.head
    ensures Run(cfg, steps).Some? && Run(cfg, steps).value.w.End?
    ensures Run(cfg, steps).value.log == [Commit(200, WithLength(was.header, 200, "")), Body("")]
  {
    var watch := WatchdogMoves(false);
    var s;
    steps, s := CommitEmptyHeader(cfg, before, was);
    steps, s := Extend(cfg, steps, s, watch);
    steps, s := Extend(cfg, steps, s, watch);
    steps, s := Extend(cfg, steps, s, watch);
  }

  lemma CommitEmptyHeader(cfg: Config, before: seq<Step>, was: State) returns (steps: seq<Step>, s: State)
    requires Run(cfg, before) == Some(was) && was.w == Finish(NLock) && was.lock.None?
    requires was.phase.Pending? && !was.wroteHeader && was.body == "" && was.log == [] && !cfg.head
    ensures Run(cfg, steps) == Some(s) && s.w == Finish(NSend) && s.status == 200 && s.body == ""
    ensures s.log == [Commit(200, WithLength(was.header, 200, ""))]
  {
    var watch := WatchdogMoves(false);
    steps, s := Extend(cfg, before, was, watch);
    steps, s := Extend(cfg, steps, s, watch);
    steps, s := Extend(cfg, steps, s, watch);
  }
}
