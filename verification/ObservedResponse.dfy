/** internal/httptransport/handler.go: `serveHTTP` and `observedResponse`.

    A handler goroutine writes a response while the goroutine of `serveHTTP`
    watches a deadline; both act on one real writer. Every atomic load, store
    and compare-and-swap, every lock and unlock, every look at the deadline and
    every call of the real writer is a step of its own, together with at most
    some work on fields only its goroutine uses; the two goroutines and the clock
    interleave freely. The handler is arbitrary code. */
module ObservedResponse {
  import opened Common

  datatype Header = Header(length: Option<nat>, other: map<string, string>)

  /** What reaches the real writer, in order. */
  datatype Event = Commit(status: int, header: Header) | Body(data: string) | Flushed

  datatype Phase = Pending | Streaming | Completed | TimedOut | StreamingTimedOut

  datatype Who = Handler | Watchdog

  /** One request: its method, whether a processing timeout is configured, the
      headers the real writer starts with, and the two fixed JSON answers. */
  datatype Config = Config(head: bool, hasTimeout: bool, initial: Header, timeoutBody: string, timeoutHeader: Header,
                           panicBody: string, panicHeader: Header)

  predicate MayHaveBody(status: int) {
    status >= 200 && status != 204 && status != 304
  }

  // ------------------------------------------------------------- the program

  /** What a `WriteHeader` returns into: its caller, or the `Write` that made it. */
  datatype Then = Nothing | Writing(data: string)

  datatype HeaderPc = HDeadline | HStore | HLoad | HLock | HCommit | HUnlock
  datatype WritePc = WDeadline | WLoad | WLock | WRecheck | WDeadlineAgain | WSend | WUnlock
  datatype StreamPc = SLock | SDeadline | SSwap | SCommit | SSend | SUnlock
  datatype FlushPc = FLock | FLoad | FUnlock

  /** Where a method of `observedResponse` is; `Stream` is `startStreaming`, on
      its own or at the head of a `Flush`. */
  datatype Call =
    | InHeader(hpc: HeaderPc, status: int, next: Then)
    | InWrite(wpc: WritePc, data: string)
    | InStream(spc: StreamPc, flush: bool)
    | InFlush(fpc: FlushPc)
    | Return

  datatype HandlerPc = Idle | In(call: Call) | Finished(panicked: bool)

  datatype PanicPc = PLoad | PReset | PHeader(call: Call) | PWrite(call: Call)
  datatype FinishPc = NLock | NSwap | NCommit | NSend | NUnlock
  datatype TimeoutPc = TLock | TCommit | TSend | TUnlock
  datatype LatePc = LLock | LSwap | LUnlock

  datatype WatchPc =
    | Select                   // the outer select
    | Inner(panicked: bool)    // the inner one, after the handler
    | Panic(ppc: PanicPc)      // replaceWithInternalError
    | Finish(npc: FinishPc)
    | TimeoutSwap              // timeout, by its two ways
    | Timeout(tpc: TimeoutPc)
    | Late(lpc: LatePc)
    | Cancel
    | End

  /** A record of what the handler asked for and what was ignored; no step
      reads it. */
  datatype Record = Record(
    asked: string,            // all bytes of all Writes so far; none for HEAD
    delivered: string,        // what Writes put into the buffer or on the wire
    askedStatus: Option<int>, // the first status asked for, 200 when implied
    wanted: Header,           // the headers the handler left in its own map
    lostData: bool,           // a Write was ignored
    lostStatus: bool,         // the first status was ignored
    sawDone: bool,            // the handler has seen its context done
    lostErrorStatus: bool,    // the status of the 500 answer to a panic was ignored
    lostErrorBody: bool)      // so was its body

  datatype State = State(
    ctxDone: bool,
    phase: Phase,
    lock: Option<Who>,
    status: int,
    wroteHeader: bool,
    header: Header,
    body: string,
    dstHeader: Header,
    log: seq<Event>,
    h: HandlerPc,
    w: WatchPc,
    r: Record)

  function Init(cfg: Config): State {
    State(false, Pending, None, 0, false, cfg.initial, "", cfg.initial, [], Idle, Select,
          Record("", "", None, cfg.initial, false, false, false, false, false))
  }

  predicate Exceeded(cfg: Config, s: State) { cfg.hasTimeout && s.ctxDone }

  datatype Moved = Moved(s: State, c: Call)

  /** Where `WriteHeader` returns to; in a `Write` for HEAD that is the end. */
  function AfterHeader(cfg: Config, next: Then): Call {
    if next.Writing? && !cfg.head then InWrite(WLoad, next.data) else Return
  }

  /** A `Write` comes to nothing, and with it the status it would have implied. */
  function DropData(s: State): State {
    s.(r := s.r.(lostData := true, lostStatus := s.r.lostStatus || !s.wroteHeader))
  }

  /** So does the first status. */
  function DropStatus(s: State): State {
    s.(r := s.r.(lostStatus := s.r.lostStatus || !s.wroteHeader))
  }

  function HeaderStep(cfg: Config, s: State, who: Who, pc: HeaderPc, status: int, next: Then): Moved {
    match pc
    case HDeadline =>
      if Exceeded(cfg, s) then Moved(DropStatus(s), AfterHeader(cfg, next))
          else Moved(s, InHeader(HStore, status, next))
    case HStore =>
      if s.wroteHeader then Moved(s, AfterHeader(cfg, next))
      else Moved(s.(status := status, wroteHeader := true), InHeader(HLoad, status, next))
    case HLoad => Moved(s, if s.phase.Streaming? then InHeader(HLock, status, next) else AfterHeader(cfg, next))
    case HLock => Moved(s.(lock := Some(who)), InHeader(HCommit, status, next))
    case HCommit =>
      Moved(if !s.phase.Streaming? || Exceeded(cfg, s) then s else s.(log := s.log + [Commit(status, s.dstHeader)]),
            InHeader(HUnlock, status, next))
    case HUnlock => Moved(s.(lock := None), AfterHeader(cfg, next))
  }

  function WriteStep(cfg: Config, s: State, who: Who, pc: WritePc, data: string): Moved {
    match pc
    case WDeadline =>
      if Exceeded(cfg, s) then Moved(DropData(s), Return)
      else Moved(s, if s.wroteHeader then AfterHeader(cfg, Writing(data)) else InHeader(HDeadline, 200, Writing(data)))
    case WLoad =>
      if s.phase.Pending? then Moved(s.(body := s.body + data, r := s.r.(delivered := s.r.delivered + data)), Return)
      else if s.phase.TimedOut? || s.phase.StreamingTimedOut? then Moved(DropData(s), Return)
      else Moved(s, InWrite(WLock, data))
    case WLock => Moved(s.(lock := Some(who)), InWrite(WRecheck, data))
    case WRecheck => if s.phase.Streaming? then Moved(s, InWrite(WDeadlineAgain, data))
      else Moved(DropData(s), InWrite(WUnlock, data))
    case WDeadlineAgain => if Exceeded(cfg, s) then Moved(DropData(s), InWrite(WUnlock, data))
      else Moved(s, InWrite(WSend, data))
    case WSend => Moved(s.(log := s.log + [Body(data)], r := s.r.(delivered := s.r.delivered + data)),
      InWrite(WUnlock, data))
    case WUnlock => Moved(s.(lock := None), Return)
  }

  function StreamStep(cfg: Config, s: State, who: Who, pc: StreamPc, flush: bool): Moved {
    match pc
    case SLock => Moved(s.(lock := Some(who)), InStream(SDeadline, flush))
    case SDeadline => if Exceeded(cfg, s) then Moved(DropStatus(s), InStream(SUnlock, flush))
      else Moved(s, InStream(SSwap, flush))
    case SSwap =>
      if s.phase.Pending? then
        Moved(s.(phase := Streaming, status := if s.wroteHeader then s.status else 200, wroteHeader := true,
          dstHeader := s.header),
              InStream(SCommit, flush))
      else Moved(DropStatus(s), InStream(SUnlock, flush))
    case SCommit => Moved(s.(log := s.log + [Commit(s.status, s.dstHeader)]), InStream(SSend, flush))
    case SSend =>
      Moved(s.(log := if !cfg.head && s.body != "" then s.log + [Body(s.body)] else s.log, body := ""),
        InStream(SUnlock, flush))
    case SUnlock => Moved(s.(lock := None), if flush then InFlush(FLock) else Return)
  }

  function FlushStep(s: State, who: Who, pc: FlushPc): Moved {
    match pc
    case FLock => Moved(s.(lock := Some(who)), InFlush(FLoad))
    case FLoad => Moved(if s.phase.Streaming? then s.(log := s.log + [Flushed]) else s, InFlush(FUnlock))
    case FUnlock => Moved(s.(lock := None), Return)
  }

  function CallStep(cfg: Config, s: State, who: Who, c: Call): Moved {
    match c
    case InHeader(pc, status, next) => HeaderStep(cfg, s, who, pc, status, next)
    case InWrite(pc, data) => WriteStep(cfg, s, who, pc, data)
    case InStream(pc, flush) => StreamStep(cfg, s, who, pc, flush)
    case InFlush(pc) => FlushStep(s, who, pc)
    case Return => Moved(s, Return)
  }

  /** A step that takes the mutex waits for it. */
  predicate CallEnabled(s: State, c: Call) {
    match c
    case InHeader(pc, _, _) => pc.HLock? ==> s.lock.None?
    case InWrite(pc, _) => pc.WLock? ==> s.lock.None?
    case InStream(pc, _) => pc.SLock? ==> s.lock.None?
    case InFlush(pc) => pc.FLock? ==> s.lock.None?
    case Return => true
  }

  // -------------------------------------------------------------- the handler

  datatype Op =
    | SetHeader(header: Header, live: bool)  // through the map `Header` returned; live: the real writer's
    | WriteHeader(status: int)
    | Write(data: string)
    | StartStreaming
    | Flush
    | ObserveDone
    | Exit(panicked: bool)

  predicate OpEnabled(s: State, op: Op) {
    && (op.SetHeader? && op.live ==> s.phase.Streaming? || s.phase.StreamingTimedOut?)
    && (op.ObserveDone? ==> s.ctxDone)
  }

  function Ask(r: Record, status: int): Record {
    if r.askedStatus.None? then r.(askedStatus := Some(status)) else r
  }

  function Begin(cfg: Config, s: State, op: Op): State {
    match op
    case SetHeader(header, live) =>
      if live then s.(dstHeader := header) else s.(header := header, r := s.r.(wanted := header))
    case WriteHeader(status) => s.(r := Ask(s.r, status), h := In(InHeader(HDeadline, status, Nothing)))
    case Write(data) =>
      s.(r := Ask(s.r, 200).(asked := if cfg.head then s.r.asked else s.r.asked + data),
        h := In(InWrite(WDeadline, data)))
    case StartStreaming => s.(r := Ask(s.r, 200), h := In(InStream(SLock, false)))
    case Flush => s.(r := Ask(s.r, 200), h := In(InStream(SLock, true)))
    case ObserveDone => s.(r := s.r.(sawDone := true))
    case Exit(panicked) => s.(h := Finished(panicked))
  }

  function HandlerStep(cfg: Config, s: State): State
    requires s.h.In?
  {
    var moved := CallStep(cfg, s, Handler, s.h.call);
    moved.s.(h := if s.h.call.Return? then Idle else In(moved.c))
  }

  // ------------------------------------------------------------- the watchdog

  predicate WatchEnabled(cfg: Config, s: State, deadline: bool) {
    match s.w
    case Select => if deadline then Exceeded(cfg, s) else s.h.Finished?
    case Panic(pc) => (pc.PHeader? || pc.PWrite?) ==> CallEnabled(s, pc.call)
    case Finish(pc) => pc.NLock? ==> s.lock.None?
    case Timeout(pc) => pc.TLock? ==> s.lock.None?
    case Late(pc) => pc.LLock? ==> s.lock.None?
    case End => false
    case _ => true
  }

  function WithLength(header: Header, status: int, body: string): Header {
    if header.length.None? && MayHaveBody(status) then header.(length := Some(|body|)) else header
  }

  /** `replaceWithInternalError`, whose `WriteHeader` and `Write` are the same
      methods the handler calls. */
  function PanicStep(cfg: Config, s: State, pc: PanicPc): State {
    match pc
    case PLoad => s.(w := if s.phase.Pending? then Panic(PReset) else Finish(NLock))
    case PReset =>
      s.(header := cfg.panicHeader, body := "", status := 0, wroteHeader := false,
        w := Panic(PHeader(InHeader(HDeadline, 500, Nothing))))
    case PHeader(c) =>
      if c.Return? then s.(w := Panic(PWrite(InWrite(WDeadline, cfg.panicBody))))
      else
        var moved := CallStep(cfg, s, Watchdog, c);
        moved.s.(w := Panic(PHeader(moved.c)),
          r := s.r.(lostErrorStatus := s.r.lostErrorStatus || moved.s.r.lostStatus))
    case PWrite(c) =>
      if c.Return? then s.(w := Finish(NLock))
      else
        var moved := CallStep(cfg, s, Watchdog, c);
        moved.s.(w := Panic(PWrite(moved.c)), r := s.r.(lostErrorBody := s.r.lostErrorBody || moved.s.r.lostData))
  }

  function FinishStep(cfg: Config, s: State, pc: FinishPc): State {
    match pc
    case NLock => s.(lock := Some(Watchdog), w := Finish(NSwap))
    case NSwap =>
      if !s.phase.Pending? then s.(w := Finish(NUnlock))
      else
        var status := if s.wroteHeader then s.status else 200;
        var header := WithLength(s.header, status, s.body);
        s.(phase := Completed, status := status, wroteHeader := true, header := header, dstHeader := header,
          w := Finish(NCommit))
    case NCommit => s.(log := s.log + [Commit(s.status, s.dstHeader)], w := Finish(NSend))
    case NSend =>
      s.(log := if !cfg.head && MayHaveBody(s.status) then s.log + [Body(s.body)] else s.log, body := "",
        w := Finish(NUnlock))
    case NUnlock => s.(lock := None, w := Cancel)
  }

  function TimeoutStep(cfg: Config, s: State, pc: TimeoutPc): State {
    match pc
    case TLock => s.(lock := Some(Watchdog), dstHeader := cfg.timeoutHeader, status := 503, w := Timeout(TCommit))
    case TCommit => s.(log := s.log + [Commit(503, s.dstHeader)], w := Timeout(TSend))
    case TSend => s.(log := if cfg.head then s.log else s.log + [Body(cfg.timeoutBody)], w := Timeout(TUnlock))
    case TUnlock => s.(lock := None, w := Cancel)
  }

  function LateStep(s: State, pc: LatePc): State {
    match pc
    case LLock => s.(lock := Some(Watchdog), w := Late(LSwap))
    case LSwap => s.(phase := if s.phase.Streaming? then StreamingTimedOut else s.phase, w := Late(LUnlock))
    case LUnlock => s.(lock := None, w := Cancel)
  }

  /** `deadline` picks the branch of the outer select when both are ready. */
  function WatchStep(cfg: Config, s: State, deadline: bool): State
    requires WatchEnabled(cfg, s, deadline)
  {
    match s.w
    case Select => s.(w := if deadline then TimeoutSwap else Inner(s.h.panicked))
    case Inner(panicked) =>
      s.(w := if Exceeded(cfg, s) then TimeoutSwap else if panicked then Panic(PLoad) else Finish(NLock))
    case Panic(pc) => PanicStep(cfg, s, pc)
    case Finish(pc) => FinishStep(cfg, s, pc)
    case TimeoutSwap =>
      if s.phase.Pending? then s.(phase := TimedOut, w := Timeout(TLock)) else s.(w := Late(LLock))
    case Timeout(pc) => TimeoutStep(cfg, s, pc)
    case Late(pc) => LateStep(s, pc)
    case Cancel => s.(ctxDone := s.ctxDone || cfg.hasTimeout, w := End)
  }

  // ------------------------------------------------------------------ the runs

  datatype Step =
    | ContextDone              // the deadline, or the client going away
    | HandlerBegins(op: Op)
    | HandlerMoves
    | WatchdogMoves(deadline: bool)

  predicate Enabled(cfg: Config, s: State, step: Step) {
    match step
    case ContextDone => true
    case HandlerBegins(op) => s.h.Idle? && OpEnabled(s, op)
    case HandlerMoves => s.h.In? && CallEnabled(s, s.h.call)
    case WatchdogMoves(deadline) => WatchEnabled(cfg, s, deadline)
  }

  function Next(cfg: Config, s: State, step: Step): State
    requires Enabled(cfg, s, step)
  {
    match step
    case ContextDone => s.(ctxDone := true)
    case HandlerBegins(op) => Begin(cfg, s, op)
    case HandlerMoves => HandlerStep(cfg, s)
    case WatchdogMoves(deadline) => WatchStep(cfg, s, deadline)
  }

  /** The state after a run, or None when some step of it was not possible. */
  function Run(cfg: Config, steps: seq<Step>): Option<State> {
    if steps == [] then Some(Init(cfg))
    else match Run(cfg, steps[..|steps| - 1])
         case None => None
         case Some(s) => var step := steps[|steps| - 1];
                         if Enabled(cfg, s, step) then Some(Next(cfg, s, step)) else None
  }

  // ------------------------------------------------------------ the invariant

  predicate Locked(c: Call) {
    match c
    case InHeader(pc, _, _) => pc.HCommit? || pc.HUnlock?
    case InWrite(pc, _) => pc.WRecheck? || pc.WDeadlineAgain? || pc.WSend? || pc.WUnlock?
    case InStream(pc, _) => !pc.SLock?
    case InFlush(pc) => !pc.FLock?
    case Return => false
  }

  predicate WatchLocked(w: WatchPc) {
    match w
    case Finish(pc) => !pc.NLock?
    case Timeout(pc) => !pc.TLock?
    case Late(pc) => !pc.LLock?
    case _ => false
  }

  predicate Over(w: WatchPc) { w.Cancel? || w.End? }

  /** The mutex is held exactly inside the critical sections. */
  predicate LockInv(s: State) {
    && (s.lock == Some(Handler) <==> s.h.In? && Locked(s.h.call))
    && (s.lock == Some(Watchdog) <==> WatchLocked(s.w))
  }

  /** Which phases go with which place of `serveHTTP`. */
  predicate PhaseInv(cfg: Config, s: State) {
    && (s.phase.TimedOut? || s.phase.StreamingTimedOut? ==> Exceeded(cfg, s))
    && (match s.w
        case Select => s.phase.Pending? || s.phase.Streaming?
        case Inner(panicked) => s.h == Finished(panicked) && (s.phase.Pending? || s.phase.Streaming?)
        case Panic(pc) => s.h == Finished(true) && (s.phase.Pending? || (pc.PLoad? && s.phase.Streaming?))
        case Finish(pc) =>
          && s.h.Finished?
          && (match pc
              case NCommit => s.phase.Completed?
              case NSend => s.phase.Completed?
              case NUnlock => s.phase.Completed? || s.phase.Streaming?
              case _ => s.phase.Pending? || s.phase.Streaming?)
        case TimeoutSwap => Exceeded(cfg, s) && (s.phase.Pending? || s.phase.Streaming?)
        case Timeout(_) => s.phase.TimedOut?
        case Late(pc) => Exceeded(cfg, s) && (if pc.LUnlock? then s.phase.StreamingTimedOut? else s.phase.Streaming?)
        case _ => !s.phase.Pending? && (s.phase.Streaming? || s.phase.Completed? ==> s.h.Finished?))
  }

  /** Where the handler may be in each phase. The streaming half of
      `WriteHeader` is never entered. */
  predicate CallInv(cfg: Config, s: State) {
    && (s.phase.Streaming? || s.phase.StreamingTimedOut? ==> s.wroteHeader)
    && (s.h.In? ==>
          match s.h.call
          case InHeader(pc, _, _) =>
            && (pc.HDeadline? || pc.HStore? || pc.HLoad?)
            && (pc.HLoad? ==> !s.phase.Streaming? && !s.phase.StreamingTimedOut?)
          case InWrite(pc, _) =>
            && (cfg.head ==> pc.WDeadline?)
            && (pc.WLock? || pc.WRecheck? ==> s.phase.Streaming? || s.phase.StreamingTimedOut?)
            && (pc.WDeadlineAgain? || pc.WSend? ==> s.phase.Streaming?)
          case InStream(pc, _) => pc.SCommit? || pc.SSend? ==> s.phase.Streaming?
          case _ => true)
  }

  function Payload(log: seq<Event>): string {
    if log == [] then ""
    else Payload(log[..|log| - 1]) + if log[|log| - 1].Body? then log[|log| - 1].data else ""
  }

  lemma PayloadAppend(log: seq<Event>, e: Event)
    ensures Payload(log + [e]) == Payload(log) + if e.Body? then e.data else ""
  {
    assert (log + [e])[..|log|] == log;
  }

  /** One status line, first. */
  predicate CommittedOnce(log: seq<Event>) {
    log != [] && log[0].Commit? && forall i :: 1 <= i < |log| ==> !log[i].Commit?
  }

  function TimeoutLog(cfg: Config): seq<Event> {
    if cfg.head then [Commit(503, cfg.timeoutHeader)] else [Commit(503, cfg.timeoutHeader), Body(cfg.timeoutBody)]
  }

  /** `serveHTTP` answers a panic that came before anything was streamed. */
  predicate AnswersPanic(s: State) {
    s.h == Finished(true)
    && match s.w
       case Panic(pc) => pc.PHeader? || pc.PWrite?
       case Finish(_) => s.phase.Pending? || s.phase.Completed?
       case Cancel => s.phase.Completed?
       case End => s.phase.Completed?
       case _ => false
  }

  function Answered(s: State): int {
    if s.h == Finished(true) then (if s.r.lostErrorStatus then 200 else 500)
    else if s.r.askedStatus.Some? then s.r.askedStatus.value else 200
  }

  function FinalBody(cfg: Config, s: State): string {
    if s.h == Finished(true) then (if s.r.lostErrorBody || cfg.head then "" else cfg.panicBody) else s.r.asked
  }

  function FinalHeader(cfg: Config, s: State): Header {
    WithLength(if s.h == Finished(true) then cfg.panicHeader else s.r.wanted, Answered(s), FinalBody(cfg, s))
  }

  /** The response `finish` commits. */
  function FinishedLog(cfg: Config, s: State): seq<Event> {
    if cfg.head || !MayHaveBody(Answered(s)) then [Commit(Answered(s), FinalHeader(cfg, s))]
    else [Commit(Answered(s), FinalHeader(cfg, s)), Body(FinalBody(cfg, s))]
  }

  predicate LogInv(cfg: Config, s: State) {
    match s.phase
    case Pending => s.log == []
    case TimedOut =>
      && (s.w.Timeout? || Over(s.w))
      && s.log == (if s.w.Timeout? && (s.w.tpc.TLock? || s.w.tpc.TCommit?) then []
                   else if s.w.Timeout? && s.w.tpc.TSend? then [Commit(503, cfg.timeoutHeader)]
                   else TimeoutLog(cfg))
      && (s.w.Timeout? && s.w.tpc.TCommit? ==> s.dstHeader == cfg.timeoutHeader)
    case Completed =>
      && (s.w.Finish? || Over(s.w))
      && s.status == Answered(s) && s.header == FinalHeader(cfg, s)
      && (s.w.Finish? && s.w.npc.NCommit? ==> s.dstHeader == s.header)
      && (s.w.Finish? && (s.w.npc.NCommit? || s.w.npc.NSend?) ==> s.body == FinalBody(cfg, s))
      && s.log == (if s.w.Finish? && s.w.npc.NCommit? then []
                   else if s.w.Finish? && s.w.npc.NSend? then [Commit(s.status, s.header)]
                   else FinishedLog(cfg, s))
    case _ =>
      if s.h.In? && s.h.call.InStream? && s.h.call.spc.SCommit? then s.log == [] else CommittedOnce(s.log)
  }

  /** The bytes of the running `Write` that are not delivered yet. */
  function Held(cfg: Config, s: State): string {
    if cfg.head || !s.h.In? then ""
    else match s.h.call
         case InHeader(_, _, next) => if next.Writing? then next.data else ""
         case InWrite(pc, data) => if pc.WUnlock? then "" else data
         case _ => ""
  }

  /** The bytes asked for were delivered in order without a gap; what is
      missing is missing at the end. */
  predicate DataInv(cfg: Config, s: State) {
    && (s.r.lostData ==> Exceeded(cfg, s) && s.r.delivered <= s.r.asked)
    && (s.r.lostData && s.h.In? ==> Held(cfg, s) == "" || (s.h.call.InWrite? && s.h.call.wpc.WDeadline?))
    && (!s.r.lostData ==> s.r.delivered + Held(cfg, s) == s.r.asked)
    && (cfg.head ==> s.r.asked == "" && s.r.delivered == "" && s.body == "")
  }

  /** What was delivered is on the wire or still buffered. */
  predicate BufferInv(cfg: Config, s: State) {
    match s.phase
    case Pending => AnswersPanic(s) || s.body == s.r.delivered
    case Streaming => Streamed(s)
    case StreamingTimedOut => Streamed(s)
    case _ => true
  }

  predicate Streamed(s: State) {
    if s.h.In? && s.h.call.InStream? && (s.h.call.spc.SCommit? || s.h.call.spc.SSend?)
    then s.body == s.r.delivered && Payload(s.log) == ""
    else s.body == "" && Payload(s.log) == s.r.delivered
  }

  /** The running call will record this status first. */
  predicate Implies(s: State, status: int) {
    s.h.In? && match s.h.call
               case InHeader(pc, st, _) => st == status && !pc.HLoad?
               case InWrite(pc, _) => status == 200 && pc.WDeadline?
               case InStream(pc, _) => status == 200 && (pc.SLock? || pc.SDeadline? || pc.SSwap?)
               case _ => false
  }

  predicate StatusInv(cfg: Config, s: State) {
    && (s.r.lostStatus ==> Exceeded(cfg, s))
    && (s.h.In? ==> s.r.askedStatus.Some?)
    && (!AnswersPanic(s) && !s.phase.TimedOut? && !s.phase.Completed? ==>
          && s.header == s.r.wanted
          && (s.wroteHeader && !s.r.lostStatus ==> s.r.askedStatus == Some(s.status))
          && (!s.wroteHeader && !s.r.lostStatus ==> s.r.askedStatus.None? || Implies(s, s.r.askedStatus.value)))
  }

  /** The decision to `finish` was taken before the deadline, after the handler. */
  predicate InTimeInv(cfg: Config, s: State) {
    && (s.r.sawDone ==> s.ctxDone)
    && (s.w.Panic? || s.w.Finish? || s.phase.Completed? || (Over(s.w) && s.phase.Streaming?) ==>
          !s.r.lostData && !s.r.lostStatus && (cfg.hasTimeout ==> !s.r.sawDone))
    && (s.r.lostErrorStatus || s.r.lostErrorBody ==> AnswersPanic(s) && Exceeded(cfg, s))
  }

  predicate ErrorReady(s: State) {
    if s.r.lostErrorStatus then !s.wroteHeader else s.wroteHeader && s.status == 500
  }

  /** The 500 answer under construction. */
  predicate PanicInv(cfg: Config, s: State) {
    AnswersPanic(s) ==>
      && (s.phase.Pending? ==> s.header == cfg.panicHeader)
      && (s.w.Panic? || (s.r.lostErrorStatus ==> s.r.lostErrorBody))
      && (s.w.Finish? && s.phase.Pending? ==> ErrorReady(s) && s.body == FinalBody(cfg, s))
      && (s.w.Panic? ==>
            if s.w.ppc.PHeader? then
              && s.body == "" && !s.r.lostErrorBody
              && (match s.w.ppc.call
                  case InHeader(pc, st, next) =>
                    && st == 500 && next.Nothing? && !s.r.lostErrorStatus
                    && (if pc.HLoad? then ErrorReady(s) else !s.wroteHeader && (pc.HDeadline? || pc.HStore?))
                  case Return => ErrorReady(s)
                  case _ => false)
            else
              && ErrorReady(s)
              && (match s.w.ppc.call
                  case InWrite(pc, data) =>
                    && data == cfg.panicBody && s.body == "" && !s.r.lostErrorBody
                    && (pc.WDeadline? || (pc.WLoad? && !s.r.lostErrorStatus && !cfg.head))
                  case Return => s.body == FinalBody(cfg, s) && (s.r.lostErrorStatus ==> s.r.lostErrorBody)
                  case _ => false))
  }
  /** Everything above. */
  predicate Inv(cfg: Config, s: State) {
    && LockInv(s) && PhaseInv(cfg, s) && CallInv(cfg, s)
    && StatusInv(cfg, s) && InTimeInv(cfg, s) && PanicInv(cfg, s)
    && LogInv(cfg, s) && DataInv(cfg, s) && BufferInv(cfg, s)
  }
}
