/** What the cache and the single-flight loads are for: a list that was loaded is not
    loaded again, requests that miss together share one load, and without faults every
    request gets its answer. */
module CoherenceReuse {
  import opened Common
  import opened Coherence
  import opened CoherenceTheorems

  // ------------------------------------------------------------- a kept list

  predicate WholeIn(s: State, key: Key) { key in s.cache && s.cache[key].OK? && !s.cache[key].omitted }

  /** The step does not lose the list or replace it by one without a body. */
  predicate Spares(step: Step, key: Key) { step != Drop(key) && step != OfFlight(key, Keep(WithoutBody)) }

  lemma FileSpares(s: State, r: nat, step: ReqStep, key: Key)
    requires Inv(s) && r in s.reqs && ReqEnabled(s.reqs[r], step) && key.ListKey? && WholeIn(s, key)
    requires step.FileHead? || step.FileFinish? || step.FileBreak?
    ensures WholeIn(AfterReqStep(s, r, step), key)
  {
    var req := s.reqs[r];
    assert ReqOk(s.world, req);
    assert req.pc.key != key;
    var snap := if step.FileHead? then req.pc.at else req.pc.again;
    var entry := OK(snap, Content(req.target.id, req.pc.doc), !step.FileFinish?);
    PutSpares(s, req.pc.key, entry, step.store, key);
  }

  lemma PutSpares(s: State, k: Key, entry: Result, store: Store, key: Key)
    requires WholeIn(s, key) && k != key && entry.OK?
    ensures WholeIn(Put(s, k, entry, store), key)
  {
  }

  lemma OtherSpares(s: State, r: nat, step: ReqStep)
    requires |s.world.db| > 0 && r in s.reqs && ReqEnabled(s.reqs[r], step)
    requires !step.FileHead? && !step.FileFinish? && !step.FileBreak?
    ensures AfterReqStep(s, r, step).cache == s.cache
  {
    match step
    case Check =>
    case MakeKey =>
    case Lookup(_) =>
    case Join =>
    case Abandon =>
    case FileLoad(_) =>
  }

  lemma ReqSpares(s: State, r: nat, step: ReqStep, key: Key)
    requires Inv(s) && r in s.reqs && ReqEnabled(s.reqs[r], step) && key.ListKey? && WholeIn(s, key)
    ensures WholeIn(AfterReqStep(s, r, step), key)
  {
    if step.FileHead? || step.FileFinish? || step.FileBreak? { FileSpares(s, r, step, key); }
    else { OtherSpares(s, r, step); }
  }

  lemma NextSpares(s: State, step: Step, key: Key)
    requires Inv(s) && Enabled(s, step) && Spares(step, key) && key.ListKey? && WholeIn(s, key)
    ensures WholeIn(Next(s, step), key)
  {
    match step
    case Begin(_, _, _) =>
    case OfReq(r, step) => ReqSpares(s, r, step, key);
    case OfFlight(k, move) => FlightSpares(s, k, move, key);
    case OfWorld(_) =>
    case Drop(_) =>
  }

  lemma FlightSpares(s: State, k: Key, move: FlightStep, key: Key)
    requires Inv(s) && k in s.flights && FlightEnabled(s.flights[k], move) && WholeIn(s, key)
    requires k != key || move != Keep(WithoutBody)
    ensures WholeIn(AfterFlightStep(s, k, move), key)
  {
    assert FlightOk(s.world, k, s.flights[k]);
  }

  lemma {:induction false} RunSpares(s: State, steps: seq<Step>, key: Key)
    requires Inv(s) && key.ListKey? && WholeIn(s, key) && Run(s, steps).Some?
    requires forall i :: 0 <= i < |steps| ==> Spares(steps[i], key)
    ensures WholeIn(Run(s, steps).value, key)
  {
    if steps != [] {
      var n := |steps| - 1;
      RunSpares(s, steps[..n], key);
      RunKeeps(s, steps[..n]);
      NextSpares(Run(s, steps[..n]).value, steps[n], key);
    }
  }

  /** A list that a flight loaded and the cache kept whole answers every later request for
      it from the cache, without a load, until an upload or a delete bumps the epoch or
      the cache loses it. */
  lemma LoadedListIsHit(s: State, key: Key, rest: seq<Step>, t: State, r: nat)
    requires Reachable(s) && key.ListKey? && key in s.flights
    requires s.flights[key].pc.Loaded? && s.flights[key].pc.result.OK? && Enabled(s, OfFlight(key, Keep(Whole)))
    requires Run(Next(s, OfFlight(key, Keep(Whole))), rest) == Some(t)
    requires forall i :: 0 <= i < |rest| ==> Spares(rest[i], key)
    requires r in t.reqs && t.reqs[r].pc.Started? && t.reqs[r].target == ListOf(key.query)
    requires t.world.epoch == key.epoch
    ensures var asked := Run(t, [OfReq(r, MakeKey), OfReq(r, Lookup(false))]);
      && asked.Some? && asked.value.reqs[r].pc.Answered? && asked.value.reqs[r].pc.via == CacheHit
      && key in t.cache && AnsweredOK(asked.value, r, t.cache[key]) && !t.cache[key].omitted
      && t.cache[key].body == Page(key.query, t.cache[key].snap)
  {
    ReachableKeeps(s);
    var u := Next(s, OfFlight(key, Keep(Whole)));
    NextKeeps(s, OfFlight(key, Keep(Whole)));
    assert FlightOk(s.world, key, s.flights[key]);
    assert WholeIn(u, key);
    RunSpares(u, rest, key);
    RunKeeps(u, rest);
    AskTwice(t, key, r);
  }

  lemma AskTwice(t: State, key: Key, r: nat)
    requires Inv(t) && WholeIn(t, key) && key.ListKey? && t.world.epoch == key.epoch
    requires r in t.reqs && t.reqs[r].pc.Started? && t.reqs[r].target == ListOf(key.query)
    ensures var asked := Run(t, [OfReq(r, MakeKey), OfReq(r, Lookup(false))]);
      && asked.Some? && asked.value.reqs[r].pc.Answered? && asked.value.reqs[r].pc.via == CacheHit
      && AnsweredOK(asked.value, r, t.cache[key])
  {
    var steps := [OfReq(r, MakeKey), OfReq(r, Lookup(false))];
    assert steps[..1] == [steps[0]] && steps[..1][..0] == [];
    assert Run(t, []) == Some(t);
    var keyed := AfterMakeKey(t, r);
    assert Run(t, steps[..1]) == Some(keyed);
    assert keyed.reqs[r].pc == Keyed(key, Now(t.world));
  }

  // ------------------------------------------------------ HEAD, of any answer

  predicate Held(s: State, key: Key) { key in s.cache && s.cache[key].OK? }

  /** The step puts an answer under the key, with or without its body. */
  predicate Stores(s: State, step: Step, key: Key) {
    match step
    case OfReq(r, move) =>
      && r in s.reqs && (s.reqs[r].pc.FileMissed? || s.reqs[r].pc.FileLoaded?) && s.reqs[r].pc.key == key
      && (move.FileHead? || move.FileFinish? || move.FileBreak?) && !move.store.Refused?
    case OfFlight(k, move) =>
      k == key && move.Keep? && !move.store.Refused? && k in s.flights && s.flights[k].pc.Loaded?
      && s.flights[k].pc.result.OK?
    case _ => false
  }

  lemma PutHolds(s: State, k: Key, entry: Result, store: Store, key: Key)
    requires entry.OK? && (Held(s, key) || (k == key && !store.Refused?))
    ensures Held(Put(s, k, entry, store), key)
  {
  }

  lemma FileHolds(s: State, r: nat, step: ReqStep, key: Key)
    requires |s.world.db| > 0 && r in s.reqs && ReqEnabled(s.reqs[r], step)
    requires step.FileHead? || step.FileFinish? || step.FileBreak?
    requires Held(s, key) || Stores(s, OfReq(r, step), key)
    ensures Held(AfterReqStep(s, r, step), key)
  {
    var req := s.reqs[r];
    var snap := if step.FileHead? then req.pc.at else req.pc.again;
    PutHolds(s, req.pc.key, OK(snap, Content(req.target.id, req.pc.doc), !step.FileFinish?), step.store, key);
  }

  lemma NextHolds(s: State, step: Step, key: Key)
    requires Enabled(s, step) && step != Drop(key) && (Held(s, key) || Stores(s, step, key))
    ensures Held(Next(s, step), key)
  {
    match step
    case Begin(_, _, _) =>
    case OfReq(r, move) =>
      if move.FileHead? || move.FileFinish? || move.FileBreak? { FileHolds(s, r, move, key); }
      else { OtherSpares(s, r, move); }
    case OfFlight(k, move) => if move.Keep? && s.flights[k].pc.result.OK? {
      PutHolds(s, k, s.flights[k].pc.result, move.store, key);
    }
    case OfWorld(_) =>
    case Drop(_) =>
  }

  lemma {:induction false} RunHolds(s: State, steps: seq<Step>, key: Key)
    requires Held(s, key) && Run(s, steps).Some? && Drop(key) !in steps
    ensures Held(Run(s, steps).value, key)
  {
    if steps != [] {
      var n := |steps| - 1;
      assert steps == steps[..n] + [steps[n]];
      RunHolds(s, steps[..n], key);
      NextHolds(Run(s, steps[..n]).value, steps[n], key);
    }
  }

  /** Whatever request or load put an answer under a key, a HEAD that looks the key up
      later is answered by the cache, until the cache loses it. */
  lemma HeadIsHit(s: State, step: Step, key: Key, rest: seq<Step>, t: State, r: nat)
    requires Enabled(s, step) && Stores(s, step, key) && Run(Next(s, step), rest) == Some(t) && Drop(key) !in rest
    requires r in t.reqs && t.reqs[r].head && (t.reqs[r].pc.Keyed? || t.reqs[r].pc.FileKeyed?)
    requires t.reqs[r].pc.key == key && Enabled(t, OfReq(r, Lookup(false)))
    ensures key in t.cache && t.cache[key].OK?
    ensures Next(t, OfReq(r, Lookup(false))).reqs[r].pc
         == Answered(t.cache[key], CacheHit, Some(key), Now(t.world))
  {
    NextHolds(s, step, key);
    RunHolds(Next(s, step), rest, key);
  }

  /** An answer with its body comes into the cache only from a load that succeeded or a
      stream that got through, never from a HEAD of a file or a stream that broke. */
  lemma BodyOnlyFromWhole(s: State, step: Step, key: Key)
    requires Inv(s) && Enabled(s, step) && !WholeIn(s, key) && WholeIn(Next(s, step), key)
    ensures step == OfFlight(key, Keep(Whole)) || (step.OfReq? && step.step == FileFinish(Whole))
  {
    match step
    case OfReq(r, move) =>
      if move.FileHead? || move.FileFinish? || move.FileBreak? { FileBody(s, r, move, key); }
      else { OtherSpares(s, r, move); }
    case OfFlight(k, move) => if move.Keep? { KeepBody(s, k, move.store, key); }
    case _ =>
  }

  lemma FileBody(s: State, r: nat, step: ReqStep, key: Key)
    requires |s.world.db| > 0 && r in s.reqs && ReqEnabled(s.reqs[r], step) && !WholeIn(s, key)
    requires step.FileHead? || step.FileFinish? || step.FileBreak?
    ensures WholeIn(AfterReqStep(s, r, step), key) ==> step == FileFinish(Whole)
  {
    var req := s.reqs[r];
    var snap := if step.FileHead? then req.pc.at else req.pc.again;
    PutBody(s, req.pc.key, OK(snap, Content(req.target.id, req.pc.doc), !step.FileFinish?), step.store, key);
  }

  lemma KeepBody(s: State, k: Key, store: Store, key: Key)
    requires Inv(s) && k in s.flights && FlightEnabled(s.flights[k], Keep(store)) && !WholeIn(s, key)
    ensures WholeIn(AfterFlightStep(s, k, Keep(store)), key) ==> k == key && store.Whole?
  {
    if s.flights[k].pc.result.OK? { PutBody(s, k, s.flights[k].pc.result, store, key); }
  }

  lemma PutBody(s: State, k: Key, entry: Result, store: Store, key: Key)
    requires entry.OK? && !WholeIn(s, key)
    ensures WholeIn(Put(s, k, entry, store), key) <==> k == key && store.Whole? && !entry.omitted
  {
  }

  // ------------------------------------------------------------- one load each

  function Loads(steps: seq<Step>, key: Key): nat {
    if steps == [] then 0
    else
      var step := steps[|steps| - 1];
      Loads(steps[..|steps| - 1], key) + if step.OfFlight? && step.key == key && step.move.Load? then 1 else 0
  }

  function Delivers(steps: seq<Step>, key: Key): nat {
    if steps == [] then 0
    else Delivers(steps[..|steps| - 1], key) + if steps[|steps| - 1] == OfFlight(key, Deliver) then 1 else 0
  }

  predicate Carries(s: State, key: Key) { key in s.flights && (s.flights[key].pc.Loaded? || s.flights[key].pc.Done?) }

  /** Only a load makes a flight carry, when it did not, and only its delivery ends that. */
  predicate CarriesOn(s: State, t: State, step: Step, key: Key) {
    if step == OfFlight(key, Deliver) then !Carries(t, key)
    else if step.OfFlight? && step.key == key && step.move.Load? then !Carries(s, key)
    else Carries(s, key) ==> Carries(t, key)
  }

  lemma CarriesStep(s: State, step: Step, key: Key)
    requires Enabled(s, step)
    ensures CarriesOn(s, Next(s, step), step, key)
    ensures step.OfFlight? && step.key == key && step.move.Load? ==> Carries(Next(s, step), key)
  {
    match step
    case Begin(_, _, _) =>
    case OfReq(r, move) => if move.Join? { } else { ReqFlights(s, r, move); }
    case OfFlight(k, move) => FlightCarries(s, k, move, key);
    case OfWorld(_) =>
    case Drop(_) =>
  }

  lemma FlightCarries(s: State, k: Key, move: FlightStep, key: Key)
    requires |s.world.db| > 0 && k in s.flights && FlightEnabled(s.flights[k], move)
    ensures CarriesOn(s, AfterFlightStep(s, k, move), OfFlight(k, move), key)
    ensures k == key && move.Load? ==> Carries(AfterFlightStep(s, k, move), key)
  {
    match move
    case Recheck(_) =>
    case Load(_) =>
    case Keep(_) =>
    case Deliver => assert AfterDeliver(s, k).flights == s.flights - {k};
  }

  lemma ReqFlights(s: State, r: nat, step: ReqStep)
    requires |s.world.db| > 0 && r in s.reqs && ReqEnabled(s.reqs[r], step) && !step.Join?
    ensures AfterReqStep(s, r, step).flights == s.flights
  {
    match step
    case Check =>
    case MakeKey =>
    case Lookup(_) =>
    case Abandon =>
    case FileHead(_) =>
    case FileLoad(_) =>
    case FileFinish(_) =>
    case FileBreak(_) =>
  }

  /** However many requests miss a key, it is loaded again only after the last load was
      delivered to all who waited for it. */
  lemma {:induction false} OneLoadAtATime(s: State, steps: seq<Step>, key: Key)
    requires Run(s, steps).Some? && key !in s.flights
    ensures var t := Run(s, steps).value;
      Loads(steps, key) <= Delivers(steps, key) + if Carries(t, key) then 1 else 0
  {
    if steps != [] {
      var n := |steps| - 1;
      OneLoadAtATime(s, steps[..n], key);
      CarriesStep(Run(s, steps[..n]).value, steps[n], key);
    }
  }

  // --------------------------------------------------------------- no faults

  /** No request is given up, no load fails and no stream breaks. */
  predicate Sound(step: Step) {
    match step
    case OfReq(_, move) => !move.Abandon? && !move.FileBreak? && (move.FileLoad? ==> !move.fails)
    case OfFlight(_, move) => move.Load? ==> !move.fails
    case _ => true
  }

  predicate FineResult(result: Result) { !result.Failed? && !result.Cut? }

  predicate FinePc(pc: ReqPc) { pc.Answered? ==> FineResult(pc.result) }

  predicate FineFlight(pc: FlightPc) { pc.Loaded? || pc.Done? ==> FineResult(pc.result) }

  ghost predicate Fine(s: State) {
    && (forall k :: k in s.flights ==> FineFlight(s.flights[k].pc))
    && (forall r :: r in s.reqs ==> FinePc(s.reqs[r].pc))
  }

  lemma AnswerFine(s: State, r: nat, result: Result, via: Via, under: Option<Key>)
    requires Fine(s) && r in s.reqs && FineResult(result)
    ensures Fine(Answer(s, r, result, via, under))
  {
  }

  lemma GotoFine(s: State, r: nat, pc: ReqPc)
    requires Fine(s) && r in s.reqs && FinePc(pc)
    ensures Fine(Goto(s, r, pc))
  {
  }

  lemma FileFine(s: State, r: nat, step: ReqStep)
    requires Fine(s) && |s.world.db| > 0 && r in s.reqs && ReqEnabled(s.reqs[r], step)
    requires step.FileHead? || step.FileFinish?
    ensures Fine(AfterReqStep(s, r, step))
  {
    var req := s.reqs[r];
    var snap := if step.FileHead? then req.pc.at else req.pc.again;
    var entry := OK(snap, Content(req.target.id, req.pc.doc), step.FileHead?);
    AnswerFine(Put(s, req.pc.key, entry, step.store), r, entry, Direct, Some(req.pc.key));
  }

  lemma ReadFine(s: State, r: nat, step: ReqStep)
    requires Fine(s) && |s.world.db| > 0 && r in s.reqs && ReqEnabled(s.reqs[r], step)
    requires step.Check? || step == FileLoad(false)
    ensures Fine(AfterReqStep(s, r, step))
  {
    var req := s.reqs[r];
    var read := ReadDocument(s.world, req.target.id, req.target.user);
    if !read.OK? { AnswerFine(s, r, read, Direct, None); }
    else if step.Check? { GotoFine(s, r, Checked(read.snap, read.body.doc)); }
    else { GotoFine(s, r, FileLoaded(req.pc.key, req.pc.at, read.snap, read.body.doc)); }
  }

  lemma LookupFine(s: State, r: nat, cancelled: bool)
    requires Fine(s) && |s.world.db| > 0 && r in s.reqs && ReqEnabled(s.reqs[r], Lookup(cancelled))
    ensures Fine(AfterLookup(s, r, cancelled))
  {
    var req := s.reqs[r];
    if !cancelled && Serves(s, req.pc.key, req.head) {
      AnswerFine(s, r, s.cache[req.pc.key], CacheHit, Some(req.pc.key));
    } else {
      GotoFine(s, r, AfterLookup(s, r, cancelled).reqs[r].pc);
    }
  }

  lemma ReqFine(s: State, r: nat, step: ReqStep)
    requires Fine(s) && |s.world.db| > 0 && r in s.reqs && ReqEnabled(s.reqs[r], step) && Sound(OfReq(r, step))
    ensures Fine(AfterReqStep(s, r, step))
  {
    match step
    case Check => ReadFine(s, r, step);
    case MakeKey => GotoFine(s, r, AfterMakeKey(s, r).reqs[r].pc);
    case Lookup(cancelled) => LookupFine(s, r, cancelled);
    case Join =>
    case FileHead(_) => FileFine(s, r, step);
    case FileLoad(_) => ReadFine(s, r, step);
    case FileFinish(_) => FileFine(s, r, step);
  }

  lemma PcFine(s: State, key: Key, pc: FlightPc)
    requires Fine(s) && key in s.flights && FineFlight(pc)
    ensures Fine(WithPc(s, key, pc))
  {
  }

  lemma FlightFine(s: State, key: Key, move: FlightStep)
    requires Fine(s) && |s.world.db| > 0 && key in s.flights && FlightEnabled(s.flights[key], move)
    requires Sound(OfFlight(key, move))
    ensures Fine(AfterFlightStep(s, key, move))
  {
    var f := s.flights[key];
    match move
    case Recheck(cancelled) =>
      PcFine(s, key, if !cancelled && Serves(s, key, f.acceptOmitted) then Done(s.cache[key], true) else Loading);
    case Load(_) => PcFine(s, key, Loaded(LoadTarget(s.world, f.target)));
    case Keep(store) =>
      PcFine(if f.pc.result.OK? then Put(s, key, f.pc.result, store) else s, key, Done(f.pc.result, false));
    case Deliver => DeliverFine(s, key);
  }

  lemma DeliverFine(s: State, key: Key)
    requires Fine(s) && key in s.flights && s.flights[key].pc.Done?
    ensures Fine(AfterDeliver(s, key))
  {
    var t := AfterDeliver(s, key);
    assert FineResult(s.flights[key].pc.result);
    forall r | r in t.reqs ensures FinePc(t.reqs[r].pc) { assert r in s.reqs; }
  }

  lemma NextFine(s: State, step: Step)
    requires Fine(s) && Enabled(s, step) && Sound(step)
    ensures Fine(Next(s, step))
  {
    match step
    case Begin(_, _, _) =>
    case OfReq(r, step) => ReqFine(s, r, step);
    case OfFlight(key, move) => FlightFine(s, key, move);
    case OfWorld(_) =>
    case Drop(_) =>
  }

  lemma {:induction false} RunFine(s: State, steps: seq<Step>)
    requires Fine(s) && Run(s, steps).Some? && forall i :: 0 <= i < |steps| ==> Sound(steps[i])
    ensures Fine(Run(s, steps).value)
  {
    if steps != [] {
      var n := |steps| - 1;
      RunFine(s, steps[..n]);
      assert Sound(steps[n]);
      NextFine(Run(s, steps[..n]).value, steps[n]);
    }
  }

  /** The database shows the document so, on state `n`. */
  predicate SaidOn(db: Db, id: string, user: string, result: Result) {
    if id !in db then result.NotFound?
    else if db[id].owner == user || db[id].public || user in db[id].grants
    then result.OK? && result.body == Content(id, db[id])
    else result.Forbidden?
  }

  /** A list is answered with a page, and a document with its content, 403 or 404 as the
      database has it at a moment of the request. */
  ghost predicate WellAnswered(w: World, req: Req)
    requires req.pc.Answered?
  {
    match req.target
    case ListOf(q) => req.pc.result.OK? && req.pc.result.body == Page(q, req.pc.result.snap)
    case Document(id, user) =>
      exists n: nat :: req.start <= n <= req.pc.end < |w.db| && SaidOn(w.db[n], id, user, req.pc.result)
  }

  lemma FineAnswer(w: World, req: Req)
    requires req.pc.Answered? && AnswerOk(w, req, req.pc.result, req.pc.via, req.pc.end) && FineResult(req.pc.result)
    ensures WellAnswered(w, req)
  {
    if req.target.Document? {
      var result := req.pc.result;
      match result
      case OK(_, body, _) =>
        var n: nat :| n <= req.pc.end && ReadAllowed(w, req, n, body.doc);
        assert SaidOn(w.db[n], req.target.id, req.target.user, result);
      case NotFound(n) => assert SaidOn(w.db[n], req.target.id, req.target.user, result);
      case Forbidden(n) => assert SaidOn(w.db[n], req.target.id, req.target.user, result);
    }
  }

  /** Without faults that is so for every request that was answered. */
  lemma SoundRunsAnswer(s: State, steps: seq<Step>, r: nat)
    requires (exists db, epoch :: s == Init(db, epoch)) && Run(s, steps).Some?
    requires forall i :: 0 <= i < |steps| ==> Sound(steps[i])
    ensures var t := Run(s, steps).value;
      r in t.reqs && t.reqs[r].pc.Answered? ==> WellAnswered(t.world, t.reqs[r])
  {
    RunFine(s, steps);
    RunKeeps(s, steps);
    var t := Run(s, steps).value;
    if r in t.reqs && t.reqs[r].pc.Answered? {
      assert ReqOk(t.world, t.reqs[r]) && FinePc(t.reqs[r].pc);
      FineAnswer(t.world, t.reqs[r]);
    }
  }
}
