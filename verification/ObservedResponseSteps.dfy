/** Every step of handler, watchdog and clock preserves the invariant of
    ObservedResponse; one lemma for each method and part of the invariant. */
module ObservedResponseSteps {
  import opened Common
  import opened ObservedResponse

  lemma HeaderKeepsControl(cfg: Config, s: State)
    requires LockInv(s) && PhaseInv(cfg, s) && CallInv(cfg, s)
    requires Enabled(cfg, s, HandlerMoves) && s.h.call.InHeader?
    ensures LockInv(HandlerStep(cfg, s)) && PhaseInv(cfg, HandlerStep(cfg, s)) && CallInv(cfg, HandlerStep(cfg, s))
  {
  }

  lemma HeaderKeepsAnswer(cfg: Config, s: State)
    requires PhaseInv(cfg, s) && CallInv(cfg, s) && StatusInv(cfg, s) && InTimeInv(cfg, s) && PanicInv(cfg, s)
    requires Enabled(cfg, s, HandlerMoves) && s.h.call.InHeader?
    ensures StatusInv(cfg, HandlerStep(cfg, s)) && InTimeInv(cfg, HandlerStep(cfg, s))
    ensures PanicInv(cfg, HandlerStep(cfg, s))
  {
  }

  lemma HeaderKeepsWire(cfg: Config, s: State)
    requires PhaseInv(cfg, s) && CallInv(cfg, s) && LogInv(cfg, s) && DataInv(cfg, s) && BufferInv(cfg, s)
    requires Enabled(cfg, s, HandlerMoves) && s.h.call.InHeader?
    ensures LogInv(cfg, HandlerStep(cfg, s)) && DataInv(cfg, HandlerStep(cfg, s)) && BufferInv(cfg, HandlerStep(cfg, s))
  {
  }

  lemma WriteKeepsControl(cfg: Config, s: State)
    requires LockInv(s) && PhaseInv(cfg, s) && CallInv(cfg, s)
    requires Enabled(cfg, s, HandlerMoves) && s.h.call.InWrite?
    ensures LockInv(HandlerStep(cfg, s)) && PhaseInv(cfg, HandlerStep(cfg, s)) && CallInv(cfg, HandlerStep(cfg, s))
  {
  }

  lemma WriteKeepsStatusEarly(cfg: Config, s: State)
    requires PhaseInv(cfg, s) && CallInv(cfg, s) && StatusInv(cfg, s) && InTimeInv(cfg, s) && PanicInv(cfg, s)
    requires Enabled(cfg, s, HandlerMoves) && s.h.call.InWrite?
    requires s.h.call.wpc.WDeadline? || s.h.call.wpc.WLoad?
    ensures StatusInv(cfg, HandlerStep(cfg, s))
  {
  }

  lemma WriteKeepsStatusLate(cfg: Config, s: State)
    requires PhaseInv(cfg, s) && CallInv(cfg, s) && StatusInv(cfg, s) && InTimeInv(cfg, s) && PanicInv(cfg, s)
    requires Enabled(cfg, s, HandlerMoves) && s.h.call.InWrite?
    requires !(s.h.call.wpc.WDeadline? || s.h.call.wpc.WLoad?)
    ensures StatusInv(cfg, HandlerStep(cfg, s))
  {
  }

  lemma WriteKeepsStatus(cfg: Config, s: State)
    requires PhaseInv(cfg, s) && CallInv(cfg, s) && StatusInv(cfg, s) && InTimeInv(cfg, s) && PanicInv(cfg, s)
    requires Enabled(cfg, s, HandlerMoves) && s.h.call.InWrite?
    ensures StatusInv(cfg, HandlerStep(cfg, s))
  {
    if s.h.call.wpc.WDeadline? || s.h.call.wpc.WLoad? {
      WriteKeepsStatusEarly(cfg, s);
    } else {
      WriteKeepsStatusLate(cfg, s);
    }
  }

  lemma WriteKeepsInTimeEarly(cfg: Config, s: State)
    requires PhaseInv(cfg, s) && CallInv(cfg, s) && StatusInv(cfg, s) && InTimeInv(cfg, s) && PanicInv(cfg, s)
    requires Enabled(cfg, s, HandlerMoves) && s.h.call.InWrite?
    requires s.h.call.wpc.WDeadline? || s.h.call.wpc.WLoad?
    ensures InTimeInv(cfg, HandlerStep(cfg, s)) && PanicInv(cfg, HandlerStep(cfg, s))
  {
  }

  lemma WriteKeepsInTimeLate(cfg: Config, s: State)
    requires PhaseInv(cfg, s) && CallInv(cfg, s) && StatusInv(cfg, s) && InTimeInv(cfg, s) && PanicInv(cfg, s)
    requires Enabled(cfg, s, HandlerMoves) && s.h.call.InWrite?
    requires !(s.h.call.wpc.WDeadline? || s.h.call.wpc.WLoad?)
    ensures InTimeInv(cfg, HandlerStep(cfg, s)) && PanicInv(cfg, HandlerStep(cfg, s))
  {
  }

  lemma WriteKeepsInTime(cfg: Config, s: State)
    requires PhaseInv(cfg, s) && CallInv(cfg, s) && StatusInv(cfg, s) && InTimeInv(cfg, s) && PanicInv(cfg, s)
    requires Enabled(cfg, s, HandlerMoves) && s.h.call.InWrite?
    ensures InTimeInv(cfg, HandlerStep(cfg, s)) && PanicInv(cfg, HandlerStep(cfg, s))
  {
    if s.h.call.wpc.WDeadline? || s.h.call.wpc.WLoad? {
      WriteKeepsInTimeEarly(cfg, s);
    } else {
      WriteKeepsInTimeLate(cfg, s);
    }
  }

  lemma WriteKeepsAnswer(cfg: Config, s: State)
    requires PhaseInv(cfg, s) && CallInv(cfg, s) && StatusInv(cfg, s) && InTimeInv(cfg, s) && PanicInv(cfg, s)
    requires Enabled(cfg, s, HandlerMoves) && s.h.call.InWrite?
    ensures StatusInv(cfg, HandlerStep(cfg, s)) && InTimeInv(cfg, HandlerStep(cfg, s))
    ensures PanicInv(cfg, HandlerStep(cfg, s))
  {
    WriteKeepsStatus(cfg, s);
    WriteKeepsInTime(cfg, s);
  }

  lemma WriteKeepsLog(cfg: Config, s: State)
    requires PhaseInv(cfg, s) && CallInv(cfg, s) && LogInv(cfg, s)
    requires Enabled(cfg, s, HandlerMoves) && s.h.call.InWrite?
    ensures LogInv(cfg, HandlerStep(cfg, s))
  {
  }

  lemma WriteKeepsDataEarly(cfg: Config, s: State)
    requires PhaseInv(cfg, s) && CallInv(cfg, s) && DataInv(cfg, s)
    requires Enabled(cfg, s, HandlerMoves) && s.h.call.InWrite?
    requires s.h.call.wpc.WDeadline? || s.h.call.wpc.WLoad?
    ensures DataInv(cfg, HandlerStep(cfg, s))
  {
  }

  lemma WriteKeepsDataLate(cfg: Config, s: State)
    requires PhaseInv(cfg, s) && CallInv(cfg, s) && DataInv(cfg, s)
    requires Enabled(cfg, s, HandlerMoves) && s.h.call.InWrite?
    requires !(s.h.call.wpc.WDeadline? || s.h.call.wpc.WLoad?)
    ensures DataInv(cfg, HandlerStep(cfg, s))
  {
  }

  lemma WriteKeepsData(cfg: Config, s: State)
    requires PhaseInv(cfg, s) && CallInv(cfg, s) && DataInv(cfg, s)
    requires Enabled(cfg, s, HandlerMoves) && s.h.call.InWrite?
    ensures DataInv(cfg, HandlerStep(cfg, s))
  {
    if s.h.call.wpc.WDeadline? || s.h.call.wpc.WLoad? {
      WriteKeepsDataEarly(cfg, s);
    } else {
      WriteKeepsDataLate(cfg, s);
    }
  }

  lemma WriteDeliversBuffer(cfg: Config, s: State)
    requires PhaseInv(cfg, s) && CallInv(cfg, s) && LogInv(cfg, s) && DataInv(cfg, s) && BufferInv(cfg, s)
    requires Enabled(cfg, s, HandlerMoves) && s.h.call.InWrite?
    requires s.h.call.wpc.WLoad? || s.h.call.wpc.WSend?
    ensures BufferInv(cfg, HandlerStep(cfg, s))
  {
  }

  lemma WriteMovesBuffer(cfg: Config, s: State)
    requires PhaseInv(cfg, s) && CallInv(cfg, s) && LogInv(cfg, s) && DataInv(cfg, s) && BufferInv(cfg, s)
    requires Enabled(cfg, s, HandlerMoves) && s.h.call.InWrite?
    requires !(s.h.call.wpc.WLoad? || s.h.call.wpc.WSend?)
    ensures BufferInv(cfg, HandlerStep(cfg, s))
  {
  }

  lemma WriteKeepsBuffer(cfg: Config, s: State)
    requires PhaseInv(cfg, s) && CallInv(cfg, s) && LogInv(cfg, s) && DataInv(cfg, s) && BufferInv(cfg, s)
    requires Enabled(cfg, s, HandlerMoves) && s.h.call.InWrite?
    ensures BufferInv(cfg, HandlerStep(cfg, s))
  {
    if s.h.call.wpc.WLoad? || s.h.call.wpc.WSend? { WriteDeliversBuffer(cfg, s); } else { WriteMovesBuffer(cfg, s); }
  }

  lemma StreamKeepsControl(cfg: Config, s: State)
    requires LockInv(s) && PhaseInv(cfg, s) && CallInv(cfg, s)
    requires Enabled(cfg, s, HandlerMoves) && s.h.call.InStream?
    ensures LockInv(HandlerStep(cfg, s)) && PhaseInv(cfg, HandlerStep(cfg, s)) && CallInv(cfg, HandlerStep(cfg, s))
  {
  }

  lemma StreamKeepsStatus(cfg: Config, s: State)
    requires PhaseInv(cfg, s) && CallInv(cfg, s) && StatusInv(cfg, s) && InTimeInv(cfg, s) && PanicInv(cfg, s)
    requires Enabled(cfg, s, HandlerMoves) && s.h.call.InStream?
    ensures StatusInv(cfg, HandlerStep(cfg, s))
  {
  }

  lemma StreamKeepsInTime(cfg: Config, s: State)
    requires PhaseInv(cfg, s) && CallInv(cfg, s) && StatusInv(cfg, s) && InTimeInv(cfg, s) && PanicInv(cfg, s)
    requires Enabled(cfg, s, HandlerMoves) && s.h.call.InStream?
    ensures InTimeInv(cfg, HandlerStep(cfg, s)) && PanicInv(cfg, HandlerStep(cfg, s))
  {
  }

  lemma StreamKeepsAnswer(cfg: Config, s: State)
    requires PhaseInv(cfg, s) && CallInv(cfg, s) && StatusInv(cfg, s) && InTimeInv(cfg, s) && PanicInv(cfg, s)
    requires Enabled(cfg, s, HandlerMoves) && s.h.call.InStream?
    ensures StatusInv(cfg, HandlerStep(cfg, s)) && InTimeInv(cfg, HandlerStep(cfg, s))
    ensures PanicInv(cfg, HandlerStep(cfg, s))
  {
    StreamKeepsStatus(cfg, s);
    StreamKeepsInTime(cfg, s);
  }

  lemma StreamKeepsLog(cfg: Config, s: State)
    requires PhaseInv(cfg, s) && CallInv(cfg, s) && LogInv(cfg, s)
    requires Enabled(cfg, s, HandlerMoves) && s.h.call.InStream?
    ensures LogInv(cfg, HandlerStep(cfg, s))
  {
  }

  lemma StreamKeepsData(cfg: Config, s: State)
    requires PhaseInv(cfg, s) && CallInv(cfg, s) && DataInv(cfg, s)
    requires Enabled(cfg, s, HandlerMoves) && s.h.call.InStream?
    ensures DataInv(cfg, HandlerStep(cfg, s))
  {
    StreamKeepsAsked(cfg, s);
  }

  lemma StreamKeepsAsked(cfg: Config, s: State)
    requires Enabled(cfg, s, HandlerMoves) && s.h.call.InStream?
    ensures var t := HandlerStep(cfg, s);
      && Held(cfg, s) == "" && Held(cfg, t) == "" && t.r.asked == s.r.asked && t.r.delivered == s.r.delivered
      && t.r.lostData == s.r.lostData && (t.body == s.body || t.body == "") && t.ctxDone == s.ctxDone
  {
  }

  lemma StreamSwapKeepsBuffer(cfg: Config, s: State)
    requires PhaseInv(cfg, s) && LogInv(cfg, s) && BufferInv(cfg, s)
    requires Enabled(cfg, s, HandlerMoves) && s.h.call.InStream? && !s.h.call.spc.SCommit? && !s.h.call.spc.SSend?
    requires s.h.call.spc.SSwap?
    ensures BufferInv(cfg, HandlerStep(cfg, s))
  {
  }

  lemma StreamLockKeepsBuffer(cfg: Config, s: State)
    requires PhaseInv(cfg, s) && LogInv(cfg, s) && BufferInv(cfg, s)
    requires Enabled(cfg, s, HandlerMoves) && s.h.call.InStream? && !s.h.call.spc.SCommit? && !s.h.call.spc.SSend?
    requires !(s.h.call.spc.SSwap?)
    ensures BufferInv(cfg, HandlerStep(cfg, s))
  {
  }

  lemma StreamKeepsBuffer(cfg: Config, s: State)
    requires PhaseInv(cfg, s) && LogInv(cfg, s) && BufferInv(cfg, s)
    requires Enabled(cfg, s, HandlerMoves) && s.h.call.InStream? && !s.h.call.spc.SCommit? && !s.h.call.spc.SSend?
    ensures BufferInv(cfg, HandlerStep(cfg, s))
  {
    if s.h.call.spc.SSwap? { StreamSwapKeepsBuffer(cfg, s); } else { StreamLockKeepsBuffer(cfg, s); }
  }

  lemma StreamWireKeepsBuffer(cfg: Config, s: State)
    requires CallInv(cfg, s) && BufferInv(cfg, s) && (cfg.head ==> s.body == "")
    requires Enabled(cfg, s, HandlerMoves) && s.h.call.InStream? && (s.h.call.spc.SCommit? || s.h.call.spc.SSend?)
    ensures BufferInv(cfg, HandlerStep(cfg, s))
  {
    if s.h.call.spc.SCommit? {
      PayloadAppend(s.log, Commit(s.status, s.dstHeader));
    } else {
      PayloadAppend(s.log, Body(s.body));
    }
  }

  lemma FlushKeepsControl(cfg: Config, s: State)
    requires LockInv(s) && PhaseInv(cfg, s) && CallInv(cfg, s)
    requires Enabled(cfg, s, HandlerMoves) && s.h.call.InFlush?
    ensures LockInv(HandlerStep(cfg, s)) && PhaseInv(cfg, HandlerStep(cfg, s)) && CallInv(cfg, HandlerStep(cfg, s))
  {
  }

  lemma FlushKeepsAnswer(cfg: Config, s: State)
    requires PhaseInv(cfg, s) && CallInv(cfg, s) && StatusInv(cfg, s) && InTimeInv(cfg, s) && PanicInv(cfg, s)
    requires Enabled(cfg, s, HandlerMoves) && s.h.call.InFlush?
    ensures StatusInv(cfg, HandlerStep(cfg, s)) && InTimeInv(cfg, HandlerStep(cfg, s))
    ensures PanicInv(cfg, HandlerStep(cfg, s))
  {
  }

  lemma FlushKeepsLog(cfg: Config, s: State)
    requires PhaseInv(cfg, s) && CallInv(cfg, s) && LogInv(cfg, s)
    requires Enabled(cfg, s, HandlerMoves) && s.h.call.InFlush?
    ensures LogInv(cfg, HandlerStep(cfg, s))
  {
  }

  lemma FlushKeepsData(cfg: Config, s: State)
    requires PhaseInv(cfg, s) && CallInv(cfg, s) && DataInv(cfg, s)
    requires Enabled(cfg, s, HandlerMoves) && s.h.call.InFlush?
    ensures DataInv(cfg, HandlerStep(cfg, s))
  {
  }

  lemma FlushKeepsBuffer(cfg: Config, s: State)
    requires PhaseInv(cfg, s) && BufferInv(cfg, s)
    requires Enabled(cfg, s, HandlerMoves) && s.h.call.InFlush?
    ensures BufferInv(cfg, HandlerStep(cfg, s))
  {
    FlushKeepsBytes(cfg, s);
  }

  lemma FlushKeepsBytes(cfg: Config, s: State)
    requires Enabled(cfg, s, HandlerMoves) && s.h.call.InFlush?
    ensures var t := HandlerStep(cfg, s);
      && Payload(t.log) == Payload(s.log) && t.body == s.body && t.phase == s.phase && t.r == s.r && t.w == s.w
      && (t.h.In? ==> t.h.call.InFlush? || t.h.call.Return?)
  {
    PayloadAppend(s.log, Flushed);
  }

  lemma ReturnKeepsControl(cfg: Config, s: State)
    requires LockInv(s) && PhaseInv(cfg, s) && CallInv(cfg, s)
    requires Enabled(cfg, s, HandlerMoves) && s.h.call.Return?
    ensures LockInv(HandlerStep(cfg, s)) && PhaseInv(cfg, HandlerStep(cfg, s)) && CallInv(cfg, HandlerStep(cfg, s))
  {
  }

  lemma ReturnKeepsAnswer(cfg: Config, s: State)
    requires PhaseInv(cfg, s) && CallInv(cfg, s) && StatusInv(cfg, s) && InTimeInv(cfg, s) && PanicInv(cfg, s)
    requires Enabled(cfg, s, HandlerMoves) && s.h.call.Return?
    ensures StatusInv(cfg, HandlerStep(cfg, s)) && InTimeInv(cfg, HandlerStep(cfg, s))
    ensures PanicInv(cfg, HandlerStep(cfg, s))
  {
  }

  lemma ReturnKeepsWire(cfg: Config, s: State)
    requires PhaseInv(cfg, s) && CallInv(cfg, s) && LogInv(cfg, s) && DataInv(cfg, s) && BufferInv(cfg, s)
    requires Enabled(cfg, s, HandlerMoves) && s.h.call.Return?
    ensures LogInv(cfg, HandlerStep(cfg, s)) && DataInv(cfg, HandlerStep(cfg, s)) && BufferInv(cfg, HandlerStep(cfg, s))
  {
  }

  lemma SelectKeepsControl(cfg: Config, s: State, deadline: bool)
    requires LockInv(s) && PhaseInv(cfg, s) && CallInv(cfg, s) && PanicInv(cfg, s)
    requires WatchEnabled(cfg, s, deadline) && (s.w.Select? || s.w.Inner? || s.w.TimeoutSwap? || s.w.Cancel?)
    ensures LockInv(WatchStep(cfg, s, deadline)) && PhaseInv(cfg, WatchStep(cfg, s, deadline))
    ensures CallInv(cfg, WatchStep(cfg, s, deadline))
  {
  }

  lemma SelectKeepsAnswer(cfg: Config, s: State, deadline: bool)
    requires PhaseInv(cfg, s) && CallInv(cfg, s) && StatusInv(cfg, s) && InTimeInv(cfg, s) && PanicInv(cfg, s)
    requires DataInv(cfg, s)
    requires WatchEnabled(cfg, s, deadline) && (s.w.Select? || s.w.Inner? || s.w.TimeoutSwap? || s.w.Cancel?)
    ensures StatusInv(cfg, WatchStep(cfg, s, deadline)) && InTimeInv(cfg, WatchStep(cfg, s, deadline))
    ensures PanicInv(cfg, WatchStep(cfg, s, deadline))
  {
  }

  lemma SelectKeepsWire(cfg: Config, s: State, deadline: bool)
    requires PhaseInv(cfg, s) && PanicInv(cfg, s) && StatusInv(cfg, s) && InTimeInv(cfg, s) && LogInv(cfg, s)
    requires DataInv(cfg, s) && BufferInv(cfg, s)
    requires WatchEnabled(cfg, s, deadline) && (s.w.Select? || s.w.Inner? || s.w.TimeoutSwap? || s.w.Cancel?)
    ensures LogInv(cfg, WatchStep(cfg, s, deadline)) && DataInv(cfg, WatchStep(cfg, s, deadline))
    ensures BufferInv(cfg, WatchStep(cfg, s, deadline))
  {
  }

  lemma PanicKeepsLock(cfg: Config, s: State, deadline: bool)
    requires LockInv(s) && PhaseInv(cfg, s) && CallInv(cfg, s) && PanicInv(cfg, s)
    requires WatchEnabled(cfg, s, deadline) && s.w.Panic?
    ensures LockInv(WatchStep(cfg, s, deadline))
  {
  }

  lemma PanicKeepsPlace(cfg: Config, s: State, deadline: bool)
    requires LockInv(s) && PhaseInv(cfg, s) && CallInv(cfg, s) && PanicInv(cfg, s)
    requires WatchEnabled(cfg, s, deadline) && s.w.Panic?
    ensures PhaseInv(cfg, WatchStep(cfg, s, deadline)) && CallInv(cfg, WatchStep(cfg, s, deadline))
  {
  }

  lemma PanicKeepsControl(cfg: Config, s: State, deadline: bool)
    requires LockInv(s) && PhaseInv(cfg, s) && CallInv(cfg, s) && PanicInv(cfg, s)
    requires WatchEnabled(cfg, s, deadline) && s.w.Panic?
    ensures LockInv(WatchStep(cfg, s, deadline)) && PhaseInv(cfg, WatchStep(cfg, s, deadline))
    ensures CallInv(cfg, WatchStep(cfg, s, deadline))
  {
    PanicKeepsLock(cfg, s, deadline);
    PanicKeepsPlace(cfg, s, deadline);
  }

  lemma PanicKeepsAnswer(cfg: Config, s: State, deadline: bool)
    requires PhaseInv(cfg, s) && CallInv(cfg, s) && StatusInv(cfg, s) && InTimeInv(cfg, s) && PanicInv(cfg, s)
    requires DataInv(cfg, s)
    requires WatchEnabled(cfg, s, deadline) && s.w.Panic?
    ensures StatusInv(cfg, WatchStep(cfg, s, deadline)) && InTimeInv(cfg, WatchStep(cfg, s, deadline))
    ensures PanicInv(cfg, WatchStep(cfg, s, deadline))
  {
  }

  lemma PanicKeepsLog(cfg: Config, s: State, deadline: bool)
    requires PhaseInv(cfg, s) && PanicInv(cfg, s) && StatusInv(cfg, s) && InTimeInv(cfg, s) && LogInv(cfg, s)
    requires DataInv(cfg, s) && BufferInv(cfg, s)
    requires WatchEnabled(cfg, s, deadline) && s.w.Panic?
    ensures LogInv(cfg, WatchStep(cfg, s, deadline))
  {
  }

  lemma PanicKeepsData(cfg: Config, s: State, deadline: bool)
    requires PhaseInv(cfg, s) && PanicInv(cfg, s) && StatusInv(cfg, s) && InTimeInv(cfg, s) && LogInv(cfg, s)
    requires DataInv(cfg, s) && BufferInv(cfg, s)
    requires WatchEnabled(cfg, s, deadline) && s.w.Panic?
    ensures DataInv(cfg, WatchStep(cfg, s, deadline))
  {
  }

  lemma PanicKeepsBuffer(cfg: Config, s: State, deadline: bool)
    requires PhaseInv(cfg, s) && PanicInv(cfg, s) && StatusInv(cfg, s) && InTimeInv(cfg, s) && LogInv(cfg, s)
    requires DataInv(cfg, s) && BufferInv(cfg, s)
    requires WatchEnabled(cfg, s, deadline) && s.w.Panic?
    ensures BufferInv(cfg, WatchStep(cfg, s, deadline))
  {
  }

  lemma PanicKeepsWire(cfg: Config, s: State, deadline: bool)
    requires PhaseInv(cfg, s) && PanicInv(cfg, s) && StatusInv(cfg, s) && InTimeInv(cfg, s) && LogInv(cfg, s)
    requires DataInv(cfg, s) && BufferInv(cfg, s)
    requires WatchEnabled(cfg, s, deadline) && s.w.Panic?
    ensures LogInv(cfg, WatchStep(cfg, s, deadline)) && DataInv(cfg, WatchStep(cfg, s, deadline))
    ensures BufferInv(cfg, WatchStep(cfg, s, deadline))
  {
    PanicKeepsLog(cfg, s, deadline);
    PanicKeepsData(cfg, s, deadline);
    PanicKeepsBuffer(cfg, s, deadline);
  }

  lemma FinishKeepsControl(cfg: Config, s: State, deadline: bool)
    requires LockInv(s) && PhaseInv(cfg, s) && CallInv(cfg, s) && PanicInv(cfg, s)
    requires WatchEnabled(cfg, s, deadline) && s.w.Finish?
    ensures LockInv(WatchStep(cfg, s, deadline)) && PhaseInv(cfg, WatchStep(cfg, s, deadline))
    ensures CallInv(cfg, WatchStep(cfg, s, deadline))
  {
  }

  lemma FinishKeepsAnswer(cfg: Config, s: State, deadline: bool)
    requires PhaseInv(cfg, s) && CallInv(cfg, s) && StatusInv(cfg, s) && InTimeInv(cfg, s) && PanicInv(cfg, s)
    requires DataInv(cfg, s)
    requires WatchEnabled(cfg, s, deadline) && s.w.Finish?
    ensures StatusInv(cfg, WatchStep(cfg, s, deadline)) && InTimeInv(cfg, WatchStep(cfg, s, deadline))
    ensures PanicInv(cfg, WatchStep(cfg, s, deadline))
  {
  }

  lemma FinishSwapKeepsLog(cfg: Config, s: State, deadline: bool)
    requires PhaseInv(cfg, s) && PanicInv(cfg, s) && StatusInv(cfg, s) && InTimeInv(cfg, s) && LogInv(cfg, s)
    requires DataInv(cfg, s) && BufferInv(cfg, s)
    requires WatchEnabled(cfg, s, deadline) && s.w.Finish?
    requires s.w.npc.NSwap?
    ensures LogInv(cfg, WatchStep(cfg, s, deadline))
  {
  }

  lemma FinishSendKeepsLog(cfg: Config, s: State, deadline: bool)
    requires PhaseInv(cfg, s) && LogInv(cfg, s)
    requires WatchEnabled(cfg, s, deadline) && s.w.Finish?
    requires !(s.w.npc.NSwap?)
    requires s.w.npc.NSend?
    ensures LogInv(cfg, WatchStep(cfg, s, deadline))
  {
  }

  lemma FinishLockKeepsLog(cfg: Config, s: State, deadline: bool)
    requires PhaseInv(cfg, s) && LogInv(cfg, s)
    requires WatchEnabled(cfg, s, deadline) && s.w.Finish?
    requires !(s.w.npc.NSwap?)
    requires !s.w.npc.NSend?
    ensures LogInv(cfg, WatchStep(cfg, s, deadline))
  {
  }

  lemma FinishRestKeepsLog(cfg: Config, s: State, deadline: bool)
    requires PhaseInv(cfg, s) && LogInv(cfg, s)
    requires WatchEnabled(cfg, s, deadline) && s.w.Finish?
    requires !(s.w.npc.NSwap?)
    ensures LogInv(cfg, WatchStep(cfg, s, deadline))
  {
    if s.w.npc.NSend? { FinishSendKeepsLog(cfg, s, deadline); } else { FinishLockKeepsLog(cfg, s, deadline); }
  }

  lemma FinishKeepsLog(cfg: Config, s: State, deadline: bool)
    requires PhaseInv(cfg, s) && PanicInv(cfg, s) && StatusInv(cfg, s) && InTimeInv(cfg, s) && LogInv(cfg, s)
    requires DataInv(cfg, s) && BufferInv(cfg, s)
    requires WatchEnabled(cfg, s, deadline) && s.w.Finish?
    ensures LogInv(cfg, WatchStep(cfg, s, deadline))
  {
    if s.w.npc.NSwap? { FinishSwapKeepsLog(cfg, s, deadline); } else { FinishRestKeepsLog(cfg, s, deadline); }
  }

  lemma FinishKeepsData(cfg: Config, s: State, deadline: bool)
    requires PhaseInv(cfg, s) && PanicInv(cfg, s) && StatusInv(cfg, s) && InTimeInv(cfg, s) && LogInv(cfg, s)
    requires DataInv(cfg, s) && BufferInv(cfg, s)
    requires WatchEnabled(cfg, s, deadline) && s.w.Finish?
    ensures DataInv(cfg, WatchStep(cfg, s, deadline))
  {
  }

  lemma FinishKeepsBuffer(cfg: Config, s: State, deadline: bool)
    requires PhaseInv(cfg, s) && PanicInv(cfg, s) && StatusInv(cfg, s) && InTimeInv(cfg, s) && LogInv(cfg, s)
    requires DataInv(cfg, s) && BufferInv(cfg, s)
    requires WatchEnabled(cfg, s, deadline) && s.w.Finish?
    ensures BufferInv(cfg, WatchStep(cfg, s, deadline))
  {
  }

  lemma FinishKeepsWire(cfg: Config, s: State, deadline: bool)
    requires PhaseInv(cfg, s) && PanicInv(cfg, s) && StatusInv(cfg, s) && InTimeInv(cfg, s) && LogInv(cfg, s)
    requires DataInv(cfg, s) && BufferInv(cfg, s)
    requires WatchEnabled(cfg, s, deadline) && s.w.Finish?
    ensures LogInv(cfg, WatchStep(cfg, s, deadline)) && DataInv(cfg, WatchStep(cfg, s, deadline))
    ensures BufferInv(cfg, WatchStep(cfg, s, deadline))
  {
    FinishKeepsLog(cfg, s, deadline);
    FinishKeepsData(cfg, s, deadline);
    FinishKeepsBuffer(cfg, s, deadline);
  }

  lemma TimeoutKeepsControl(cfg: Config, s: State, deadline: bool)
    requires LockInv(s) && PhaseInv(cfg, s) && CallInv(cfg, s) && PanicInv(cfg, s)
    requires WatchEnabled(cfg, s, deadline) && s.w.Timeout?
    ensures LockInv(WatchStep(cfg, s, deadline)) && PhaseInv(cfg, WatchStep(cfg, s, deadline))
    ensures CallInv(cfg, WatchStep(cfg, s, deadline))
  {
  }

  lemma TimeoutKeepsAnswer(cfg: Config, s: State, deadline: bool)
    requires PhaseInv(cfg, s) && CallInv(cfg, s) && StatusInv(cfg, s) && InTimeInv(cfg, s) && PanicInv(cfg, s)
    requires DataInv(cfg, s)
    requires WatchEnabled(cfg, s, deadline) && s.w.Timeout?
    ensures StatusInv(cfg, WatchStep(cfg, s, deadline)) && InTimeInv(cfg, WatchStep(cfg, s, deadline))
    ensures PanicInv(cfg, WatchStep(cfg, s, deadline))
  {
  }

  lemma TimeoutKeepsWire(cfg: Config, s: State, deadline: bool)
    requires PhaseInv(cfg, s) && PanicInv(cfg, s) && StatusInv(cfg, s) && InTimeInv(cfg, s) && LogInv(cfg, s)
    requires DataInv(cfg, s) && BufferInv(cfg, s)
    requires WatchEnabled(cfg, s, deadline) && s.w.Timeout?
    ensures LogInv(cfg, WatchStep(cfg, s, deadline)) && DataInv(cfg, WatchStep(cfg, s, deadline))
    ensures BufferInv(cfg, WatchStep(cfg, s, deadline))
  {
  }

  lemma LateKeepsControl(cfg: Config, s: State, deadline: bool)
    requires LockInv(s) && PhaseInv(cfg, s) && CallInv(cfg, s) && PanicInv(cfg, s)
    requires WatchEnabled(cfg, s, deadline) && s.w.Late?
    ensures LockInv(WatchStep(cfg, s, deadline)) && PhaseInv(cfg, WatchStep(cfg, s, deadline))
    ensures CallInv(cfg, WatchStep(cfg, s, deadline))
  {
  }

  lemma LateKeepsAnswer(cfg: Config, s: State, deadline: bool)
    requires PhaseInv(cfg, s) && CallInv(cfg, s) && StatusInv(cfg, s) && InTimeInv(cfg, s) && PanicInv(cfg, s)
    requires DataInv(cfg, s)
    requires WatchEnabled(cfg, s, deadline) && s.w.Late?
    ensures StatusInv(cfg, WatchStep(cfg, s, deadline)) && InTimeInv(cfg, WatchStep(cfg, s, deadline))
    ensures PanicInv(cfg, WatchStep(cfg, s, deadline))
  {
  }

  lemma LateKeepsWire(cfg: Config, s: State, deadline: bool)
    requires PhaseInv(cfg, s) && PanicInv(cfg, s) && StatusInv(cfg, s) && InTimeInv(cfg, s) && LogInv(cfg, s)
    requires DataInv(cfg, s) && BufferInv(cfg, s)
    requires WatchEnabled(cfg, s, deadline) && s.w.Late?
    ensures LogInv(cfg, WatchStep(cfg, s, deadline)) && DataInv(cfg, WatchStep(cfg, s, deadline))
    ensures BufferInv(cfg, WatchStep(cfg, s, deadline))
  {
  }

  lemma PlainOpKeepsControl(cfg: Config, s: State, op: Op)
    requires LockInv(s) && PhaseInv(cfg, s) && CallInv(cfg, s)
    requires Enabled(cfg, s, HandlerBegins(op)) && (op.SetHeader? || op.ObserveDone? || op.Exit?)
    ensures LockInv(Begin(cfg, s, op)) && PhaseInv(cfg, Begin(cfg, s, op)) && CallInv(cfg, Begin(cfg, s, op))
  {
  }

  lemma PlainOpKeepsAnswer(cfg: Config, s: State, op: Op)
    requires PhaseInv(cfg, s) && CallInv(cfg, s) && StatusInv(cfg, s) && InTimeInv(cfg, s) && PanicInv(cfg, s)
    requires Enabled(cfg, s, HandlerBegins(op)) && (op.SetHeader? || op.ObserveDone? || op.Exit?)
    ensures StatusInv(cfg, Begin(cfg, s, op)) && InTimeInv(cfg, Begin(cfg, s, op)) && PanicInv(cfg, Begin(cfg, s, op))
  {
  }

  lemma PlainOpKeepsLog(cfg: Config, s: State, op: Op)
    requires PhaseInv(cfg, s) && InTimeInv(cfg, s) && LogInv(cfg, s) && DataInv(cfg, s) && BufferInv(cfg, s)
    requires Enabled(cfg, s, HandlerBegins(op)) && (op.SetHeader? || op.ObserveDone? || op.Exit?)
    ensures LogInv(cfg, Begin(cfg, s, op))
  {
  }

  lemma PlainOpKeepsData(cfg: Config, s: State, op: Op)
    requires PhaseInv(cfg, s) && InTimeInv(cfg, s) && LogInv(cfg, s) && DataInv(cfg, s) && BufferInv(cfg, s)
    requires Enabled(cfg, s, HandlerBegins(op)) && (op.SetHeader? || op.ObserveDone? || op.Exit?)
    ensures DataInv(cfg, Begin(cfg, s, op))
  {
  }

  lemma PlainOpKeepsBuffer(cfg: Config, s: State, op: Op)
    requires PhaseInv(cfg, s) && InTimeInv(cfg, s) && LogInv(cfg, s) && DataInv(cfg, s) && BufferInv(cfg, s)
    requires Enabled(cfg, s, HandlerBegins(op)) && (op.SetHeader? || op.ObserveDone? || op.Exit?)
    ensures BufferInv(cfg, Begin(cfg, s, op))
  {
  }

  lemma PlainOpKeepsWire(cfg: Config, s: State, op: Op)
    requires PhaseInv(cfg, s) && InTimeInv(cfg, s) && LogInv(cfg, s) && DataInv(cfg, s) && BufferInv(cfg, s)
    requires Enabled(cfg, s, HandlerBegins(op)) && (op.SetHeader? || op.ObserveDone? || op.Exit?)
    ensures LogInv(cfg, Begin(cfg, s, op)) && DataInv(cfg, Begin(cfg, s, op)) && BufferInv(cfg, Begin(cfg, s, op))
  {
    PlainOpKeepsLog(cfg, s, op);
    PlainOpKeepsData(cfg, s, op);
    PlainOpKeepsBuffer(cfg, s, op);
  }

  lemma CallOpKeepsControl(cfg: Config, s: State, op: Op)
    requires LockInv(s) && PhaseInv(cfg, s) && CallInv(cfg, s)
    requires Enabled(cfg, s, HandlerBegins(op)) && (op.WriteHeader? || op.Write?)
    ensures LockInv(Begin(cfg, s, op)) && PhaseInv(cfg, Begin(cfg, s, op)) && CallInv(cfg, Begin(cfg, s, op))
  {
  }

  lemma CallOpKeepsAnswer(cfg: Config, s: State, op: Op)
    requires PhaseInv(cfg, s) && CallInv(cfg, s) && StatusInv(cfg, s) && InTimeInv(cfg, s) && PanicInv(cfg, s)
    requires Enabled(cfg, s, HandlerBegins(op)) && (op.WriteHeader? || op.Write?)
    ensures StatusInv(cfg, Begin(cfg, s, op)) && InTimeInv(cfg, Begin(cfg, s, op)) && PanicInv(cfg, Begin(cfg, s, op))
  {
  }

  lemma CallOpKeepsLog(cfg: Config, s: State, op: Op)
    requires PhaseInv(cfg, s) && InTimeInv(cfg, s) && LogInv(cfg, s) && DataInv(cfg, s) && BufferInv(cfg, s)
    requires Enabled(cfg, s, HandlerBegins(op)) && (op.WriteHeader? || op.Write?)
    ensures LogInv(cfg, Begin(cfg, s, op))
  {
  }

  lemma WriteHeaderOpKeepsData(cfg: Config, s: State, op: Op)
    requires DataInv(cfg, s) && Enabled(cfg, s, HandlerBegins(op)) && op.WriteHeader?
    ensures DataInv(cfg, Begin(cfg, s, op))
  {
  }

  lemma WriteOpKeepsData(cfg: Config, s: State, op: Op)
    requires DataInv(cfg, s) && Enabled(cfg, s, HandlerBegins(op)) && op.Write?
    ensures DataInv(cfg, Begin(cfg, s, op))
  {
  }

  lemma CallOpKeepsData(cfg: Config, s: State, op: Op)
    requires DataInv(cfg, s)
    requires Enabled(cfg, s, HandlerBegins(op)) && (op.WriteHeader? || op.Write?)
    ensures DataInv(cfg, Begin(cfg, s, op))
  {
    if op.Write? { WriteOpKeepsData(cfg, s, op); } else { WriteHeaderOpKeepsData(cfg, s, op); }
  }

  lemma CallOpKeepsBuffer(cfg: Config, s: State, op: Op)
    requires PhaseInv(cfg, s) && InTimeInv(cfg, s) && LogInv(cfg, s) && DataInv(cfg, s) && BufferInv(cfg, s)
    requires Enabled(cfg, s, HandlerBegins(op)) && (op.WriteHeader? || op.Write?)
    ensures BufferInv(cfg, Begin(cfg, s, op))
  {
  }

  lemma CallOpKeepsWire(cfg: Config, s: State, op: Op)
    requires PhaseInv(cfg, s) && InTimeInv(cfg, s) && LogInv(cfg, s) && DataInv(cfg, s) && BufferInv(cfg, s)
    requires Enabled(cfg, s, HandlerBegins(op)) && (op.WriteHeader? || op.Write?)
    ensures LogInv(cfg, Begin(cfg, s, op)) && DataInv(cfg, Begin(cfg, s, op)) && BufferInv(cfg, Begin(cfg, s, op))
  {
    CallOpKeepsLog(cfg, s, op);
    CallOpKeepsData(cfg, s, op);
    CallOpKeepsBuffer(cfg, s, op);
  }

  lemma StreamingOpKeepsControl(cfg: Config, s: State, op: Op)
    requires LockInv(s) && PhaseInv(cfg, s) && CallInv(cfg, s)
    requires Enabled(cfg, s, HandlerBegins(op)) && (op.StartStreaming? || op.Flush?)
    ensures LockInv(Begin(cfg, s, op)) && PhaseInv(cfg, Begin(cfg, s, op)) && CallInv(cfg, Begin(cfg, s, op))
  {
  }

  lemma StreamingOpKeepsAnswer(cfg: Config, s: State, op: Op)
    requires PhaseInv(cfg, s) && CallInv(cfg, s) && StatusInv(cfg, s) && InTimeInv(cfg, s) && PanicInv(cfg, s)
    requires Enabled(cfg, s, HandlerBegins(op)) && (op.StartStreaming? || op.Flush?)
    ensures StatusInv(cfg, Begin(cfg, s, op)) && InTimeInv(cfg, Begin(cfg, s, op)) && PanicInv(cfg, Begin(cfg, s, op))
  {
  }

  lemma StreamingOpKeepsLog(cfg: Config, s: State, op: Op)
    requires PhaseInv(cfg, s) && InTimeInv(cfg, s) && LogInv(cfg, s) && DataInv(cfg, s) && BufferInv(cfg, s)
    requires Enabled(cfg, s, HandlerBegins(op)) && (op.StartStreaming? || op.Flush?)
    ensures LogInv(cfg, Begin(cfg, s, op))
  {
  }

  lemma StreamingOpKeepsData(cfg: Config, s: State, op: Op)
    requires PhaseInv(cfg, s) && InTimeInv(cfg, s) && LogInv(cfg, s) && DataInv(cfg, s) && BufferInv(cfg, s)
    requires Enabled(cfg, s, HandlerBegins(op)) && (op.StartStreaming? || op.Flush?)
    ensures DataInv(cfg, Begin(cfg, s, op))
  {
  }

  lemma StreamingOpKeepsBuffer(cfg: Config, s: State, op: Op)
    requires PhaseInv(cfg, s) && InTimeInv(cfg, s) && LogInv(cfg, s) && DataInv(cfg, s) && BufferInv(cfg, s)
    requires Enabled(cfg, s, HandlerBegins(op)) && (op.StartStreaming? || op.Flush?)
    ensures BufferInv(cfg, Begin(cfg, s, op))
  {
  }

  lemma StreamingOpKeepsWire(cfg: Config, s: State, op: Op)
    requires PhaseInv(cfg, s) && InTimeInv(cfg, s) && LogInv(cfg, s) && DataInv(cfg, s) && BufferInv(cfg, s)
    requires Enabled(cfg, s, HandlerBegins(op)) && (op.StartStreaming? || op.Flush?)
    ensures LogInv(cfg, Begin(cfg, s, op)) && DataInv(cfg, Begin(cfg, s, op)) && BufferInv(cfg, Begin(cfg, s, op))
  {
    StreamingOpKeepsLog(cfg, s, op);
    StreamingOpKeepsData(cfg, s, op);
    StreamingOpKeepsBuffer(cfg, s, op);
  }

  lemma ContextDoneKeeps(cfg: Config, s: State)
    requires Inv(cfg, s)
    ensures Inv(cfg, s.(ctxDone := true))
  {
  }

  /** Every step, by either goroutine or the clock, preserves the invariant. */
  lemma StepKeeps(cfg: Config, s: State, step: Step)
    requires Inv(cfg, s) && Enabled(cfg, s, step)
    ensures Inv(cfg, Next(cfg, s, step))
  {
    match step
    case ContextDone => ContextDoneKeeps(cfg, s);
    case HandlerBegins(op) => OpKeeps(cfg, s, op);
    case HandlerMoves => HandlerKeeps(cfg, s);
    case WatchdogMoves(deadline) => WatchKeeps(cfg, s, deadline);
  }

  lemma HandlerKeeps(cfg: Config, s: State)
    requires Inv(cfg, s) && Enabled(cfg, s, HandlerMoves)
    ensures Inv(cfg, HandlerStep(cfg, s))
  {
    match s.h.call
    case InHeader(_, _, _) => HeaderKeepsControl(cfg, s); HeaderKeepsAnswer(cfg, s); HeaderKeepsWire(cfg, s);
    case InWrite(_, _) =>
      WriteKeepsControl(cfg, s); WriteKeepsAnswer(cfg, s); WriteKeepsLog(cfg, s); WriteKeepsData(cfg, s);
        WriteKeepsBuffer(cfg, s);
    case InStream(_, _) =>
      StreamKeepsControl(cfg, s); StreamKeepsAnswer(cfg, s); StreamKeepsLog(cfg, s); StreamKeepsData(cfg, s);
      if s.h.call.spc.SCommit? || s.h.call.spc.SSend? {
        StreamWireKeepsBuffer(cfg, s);
      } else {
        StreamKeepsBuffer(cfg, s);
      }
    case InFlush(_) =>
      FlushKeepsControl(cfg, s);
      FlushKeepsAnswer(cfg, s);
      FlushKeepsLog(cfg, s);
      FlushKeepsData(cfg, s);
      FlushKeepsBuffer(cfg, s);
    case Return => ReturnKeepsControl(cfg, s); ReturnKeepsAnswer(cfg, s); ReturnKeepsWire(cfg, s);
  }

  lemma WatchKeeps(cfg: Config, s: State, deadline: bool)
    requires Inv(cfg, s) && WatchEnabled(cfg, s, deadline)
    ensures Inv(cfg, WatchStep(cfg, s, deadline))
  {
    match s.w
    case Panic(_) =>
      PanicKeepsControl(cfg, s, deadline);
      PanicKeepsAnswer(cfg, s, deadline);
      PanicKeepsWire(cfg, s, deadline);
    case Finish(_) =>
      FinishKeepsControl(cfg, s, deadline);
      FinishKeepsAnswer(cfg, s, deadline);
      FinishKeepsWire(cfg, s, deadline);
    case Timeout(_) =>
      TimeoutKeepsControl(cfg, s, deadline);
      TimeoutKeepsAnswer(cfg, s, deadline);
      TimeoutKeepsWire(cfg, s, deadline);
    case Late(_) =>
      LateKeepsControl(cfg, s, deadline);
      LateKeepsAnswer(cfg, s, deadline);
      LateKeepsWire(cfg, s, deadline);
    case _ =>
      SelectKeepsControl(cfg, s, deadline);
      SelectKeepsAnswer(cfg, s, deadline);
      SelectKeepsWire(cfg, s, deadline);
  }

  lemma OpKeeps(cfg: Config, s: State, op: Op)
    requires Inv(cfg, s) && Enabled(cfg, s, HandlerBegins(op))
    ensures Inv(cfg, Begin(cfg, s, op))
  {
    match op
    case WriteHeader(_) => CallOpKeepsControl(cfg, s, op); CallOpKeepsAnswer(cfg, s, op); CallOpKeepsWire(cfg, s, op);
    case Write(_) => CallOpKeepsControl(cfg, s, op); CallOpKeepsAnswer(cfg, s, op); CallOpKeepsWire(cfg, s, op);
    case StartStreaming =>
      StreamingOpKeepsControl(cfg, s, op);
      StreamingOpKeepsAnswer(cfg, s, op);
      StreamingOpKeepsWire(cfg, s, op);
    case Flush =>
      StreamingOpKeepsControl(cfg, s, op);
      StreamingOpKeepsAnswer(cfg, s, op);
      StreamingOpKeepsWire(cfg, s, op);
    case _ => PlainOpKeepsControl(cfg, s, op); PlainOpKeepsAnswer(cfg, s, op); PlainOpKeepsWire(cfg, s, op);
  }

  lemma {:induction false} RunKeeps(cfg: Config, steps: seq<Step>)
    ensures Run(cfg, steps).Some? ==> Inv(cfg, Run(cfg, steps).value)
  {
    if steps != [] {
      RunKeeps(cfg, steps[..|steps| - 1]);
      var before := Run(cfg, steps[..|steps| - 1]);
      if before.Some? && Enabled(cfg, before.value, steps[|steps| - 1]) {
        StepKeeps(cfg, before.value, steps[|steps| - 1]);
      }
    }
  }
}
