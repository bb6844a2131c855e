/** Whether the lists under one cache key ever go back in time. The loads of a key are
    serial, and an entry is cached before the load's result is delivered; so the one
    danger is a load whose entry the cache refuses while it holds an older one. */
module CoherenceMonotone {
  import opened Common
  import opened Coherence
  import opened CoherenceTheorems
  import opened CoherenceSizes

  function LastShown(shown: map<Key, nat>, key: Key): nat { if key in shown then shown[key] else 0 }

  /** The result of the key's flight, once it is there. */
  predicate HasResult(s: State, key: Key) {
    key in s.flights && (s.flights[key].pc.Loaded? || s.flights[key].pc.Done?) && s.flights[key].pc.result.OK?
  }

  /** What was shown is no newer than what is cached, and that no newer than what is in
      flight; and what is cached is not of a size that the cache refuses. */
  ghost predicate KeyMono(z: Sizes, s: State, key: Key)
    requires key.ListKey?
  {
    && LastShown(s.delivered, key) <= Now(s.world)
    && (key in s.cache && s.cache[key].OK? ==>
          && LastShown(s.delivered, key) <= s.cache[key].snap < |s.world.db|
          && !Refuses(z, key, s.world.db[s.cache[key].snap]))
    && (HasResult(s, key) ==> LastShown(s.delivered, key) <= s.flights[key].pc.result.snap < |s.world.db|)
    && (HasResult(s, key) && key in s.cache && s.cache[key].OK? ==>
          && s.cache[key].snap <= s.flights[key].pc.result.snap
          && (s.flights[key].pc.Done? ==> s.cache[key].snap == s.flights[key].pc.result.snap))
  }

  ghost predicate ReqMono(shown: map<Key, nat>, key: Key, req: Req) {
    && ShownGrows(req.seen, shown)
    && (req.pc.Answered? && req.pc.result.OK? && req.pc.under == Some(key) ==>
          LastShown(req.seen, key) <= req.pc.result.snap <= LastShown(shown, key))
  }

  ghost predicate ReqsMono(s: State, key: Key) { forall r :: r in s.reqs ==> ReqMono(s.delivered, key, s.reqs[r]) }

  ghost predicate Mono(z: Sizes, s: State, key: Key)
    requires key.ListKey?
  {
    KeyMono(z, s, key) && ReqsMono(s, key)
  }

  lemma ReqMonoLater(shown: map<Key, nat>, more: map<Key, nat>, key: Key, req: Req)
    requires ReqMono(shown, key, req) && ShownGrows(shown, more)
    ensures ReqMono(more, key, req)
  {
    forall k | k in req.seen ensures k in more && req.seen[k] <= more[k] { assert k in shown; }
  }

  lemma GotoMono(z: Sizes, s: State, key: Key, r: nat, pc: ReqPc)
    requires key.ListKey? && Mono(z, s, key) && r in s.reqs && !pc.Answered?
    ensures Mono(z, Goto(s, r, pc), key)
  {
    assert KeyMono(z, Goto(s, r, pc), key);
  }

  /** An answer must be no older than what was shown, and no newer than what is cached
      or in flight. */
  ghost predicate InOrder(s: State, key: Key, snap: nat) {
    && LastShown(s.delivered, key) <= snap <= Now(s.world)
    && (key in s.cache && s.cache[key].OK? ==> snap <= s.cache[key].snap)
    && (HasResult(s, key) ==> snap <= s.flights[key].pc.result.snap)
  }

  lemma ShowMono(z: Sizes, s: State, key: Key, under: Key, result: Result)
    requires key.ListKey? && KeyMono(z, s, key)
    requires result.OK? && under == key ==> InOrder(s, key, result.snap)
    ensures var t := Show(s, Some(under), result);
      && ShownGrows(s.delivered, t.delivered)
      && (result.OK? && under == key ==> result.snap <= LastShown(t.delivered, key))
      && KeyMono(z, t, key)
  {
  }

  lemma AnswerMono(z: Sizes, s: State, key: Key, r: nat, result: Result, via: Via, under: Option<Key>)
    requires key.ListKey? && Mono(z, s, key) && r in s.reqs
    requires result.OK? && under == Some(key) ==> InOrder(s, key, result.snap)
    ensures Mono(z, Answer(s, r, result, via, under), key)
  {
    var u := Goto(s, r, Answered(result, via, under, Now(s.world)));
    var t := Answer(s, r, result, via, under);
    assert KeyMono(z, u, key);
    if under.Some? { ShowMono(z, u, key, under.value, result); }
    forall q | q in t.reqs ensures ReqMono(t.delivered, key, t.reqs[q]) {
      assert ReqMono(s.delivered, key, s.reqs[q]);
      ReqMonoLater(s.delivered, t.delivered, key, s.reqs[q]);
    }
  }

  lemma LookupMono(z: Sizes, s: State, key: Key, r: nat, cancelled: bool)
    requires key.ListKey? && Inv(s) && Mono(z, s, key) && r in s.reqs && ReqEnabled(s.reqs[r], Lookup(cancelled))
    ensures Mono(z, AfterLookup(s, r, cancelled), key)
  {
    var under, t := s.reqs[r].pc.key, AfterLookup(s, r, cancelled);
    if !cancelled && Serves(s, under, s.reqs[r].head) {
      AnswerMono(z, s, key, r, s.cache[under], CacheHit, Some(under));
    } else {
      GotoMono(z, s, key, r, t.reqs[r].pc);
    }
  }

  lemma JoinMono(z: Sizes, s: State, key: Key, r: nat)
    requires key.ListKey? && Mono(z, s, key) && |s.world.db| > 0 && r in s.reqs && ReqEnabled(s.reqs[r], Join)
    ensures Mono(z, AfterJoin(s, r), key)
  {
    var u := s.(flights := AfterJoin(s, r).flights);
    assert KeyMono(z, u, key);
    GotoMono(z, u, key, r, Waiting(s.reqs[r].pc.key, s.reqs[r].pc.at));
  }

  /** A file is cached under a document key, so no list is touched. */
  lemma FileMono(z: Sizes, s: State, key: Key, r: nat, entry: Result, store: Store, result: Result)
    requires key.ListKey? && Mono(z, s, key) && r in s.reqs && (s.reqs[r].pc.FileMissed? || s.reqs[r].pc.FileLoaded?)
    requires s.reqs[r].pc.key.DocKey? && entry.OK?
    ensures var under := s.reqs[r].pc.key;
      Mono(z, Answer(Put(s, under, entry, store), r, result, Direct, Some(under)), key)
  {
    var u := Put(s, s.reqs[r].pc.key, entry, store);
    assert KeyMono(z, u, key);
    AnswerMono(z, u, key, r, result, Direct, Some(s.reqs[r].pc.key));
  }

  lemma FileLoadMono(z: Sizes, s: State, key: Key, r: nat, fails: bool)
    requires key.ListKey? && Mono(z, s, key) && |s.world.db| > 0 && r in s.reqs
    requires ReqEnabled(s.reqs[r], FileLoad(fails))
    ensures Mono(z, AfterFileLoad(s, r, fails), key)
  {
    var read := ReadDocument(s.world, s.reqs[r].target.id, s.reqs[r].target.user);
    if fails { AnswerMono(z, s, key, r, Failed, Direct, None); }
    else if read.OK? { GotoMono(z, s, key, r, AfterFileLoad(s, r, fails).reqs[r].pc); }
    else { AnswerMono(z, s, key, r, read, Direct, None); }
  }

  lemma CheckMono(z: Sizes, s: State, key: Key, r: nat)
    requires key.ListKey? && Mono(z, s, key) && |s.world.db| > 0 && r in s.reqs && ReqEnabled(s.reqs[r], Check)
    ensures Mono(z, AfterCheck(s, r), key)
  {
    var read := ReadDocument(s.world, s.reqs[r].target.id, s.reqs[r].target.user);
    if read.OK? { GotoMono(z, s, key, r, Checked(read.snap, read.body.doc)); }
    else { AnswerMono(z, s, key, r, read, Direct, None); }
  }

  lemma OfFileMono(z: Sizes, s: State, key: Key, r: nat, step: ReqStep)
    requires key.ListKey? && Inv(s) && Mono(z, s, key) && r in s.reqs && ReqEnabled(s.reqs[r], step)
    requires step.FileHead? || step.FileFinish? || step.FileBreak?
    ensures Mono(z, AfterReqStep(s, r, step), key)
  {
    var req := s.reqs[r];
    assert ReqOk(s.world, req);
    var body := Content(req.target.id, req.pc.doc);
    match step {
      case FileHead(store) => FileMono(z, s, key, r, OK(req.pc.at, body, true), store, OK(req.pc.at, body, true));
      case FileFinish(store) =>
        FileMono(z, s, key, r, OK(req.pc.again, body, false), store, OK(req.pc.again, body, false));
      case FileBreak(store) => FileMono(z, s, key, r, OK(req.pc.again, body, true), store, Cut(req.pc.again, body));
    }
  }

  lemma OfReqMono(z: Sizes, s: State, key: Key, r: nat, step: ReqStep)
    requires key.ListKey? && Inv(s) && Mono(z, s, key) && r in s.reqs && ReqEnabled(s.reqs[r], step)
    ensures Mono(z, AfterReqStep(s, r, step), key)
  {
    match step
    case Check => CheckMono(z, s, key, r);
    case MakeKey => GotoMono(z, s, key, r, AfterMakeKey(s, r).reqs[r].pc);
    case Lookup(cancelled) => LookupMono(z, s, key, r, cancelled);
    case Join => JoinMono(z, s, key, r);
    case Abandon => AnswerMono(z, s, key, r, Failed, Direct, None);
    case FileLoad(fails) => FileLoadMono(z, s, key, r, fails);
    case _ => OfFileMono(z, s, key, r, step);
  }

  /** Where a held entry is no newer than a refused one, some commit in between made the
      list too long for the cache. */
  lemma {:induction false} SomeCommitCrosses(z: Sizes, key: Key, db: seq<Db>, a: nat, b: nat)
    requires key.ListKey? && a <= b < |db| && Chained(db) && !Refuses(z, key, db[a]) && Refuses(z, key, db[b])
    ensures Crosses(z, key)
  {
    if !Refuses(z, key, db[b - 1]) {
      assert Linked(db, b - 1);
      var change :| MayCommit(db[b - 1], change) && db[b] == Changed(db[b - 1], change);
      assert CrossesBy(z, key, db[b - 1], change);
    } else {
      SomeCommitCrosses(z, key, db, a, b - 1);
    }
  }

  lemma KeepMono(z: Sizes, s: State, key: Key, under: Key, store: Store)
    requires key.ListKey? && Inv(s) && Mono(z, s, key) && Chained(s.world.db) && !Crosses(z, key)
    requires under in s.flights && FlightEnabled(s.flights[under], Keep(store))
    requires Real(z, s, OfFlight(under, Keep(store)))
    ensures Mono(z, AfterFlightStep(s, under, Keep(store)), key)
  {
    var f := s.flights[under];
    assert FlightOk(s.world, under, f);
    if under == key && f.pc.result.OK? {
      if store.Refused? && key in s.cache && s.cache[key].OK? {
        SomeCommitCrosses(z, key, s.world.db, s.cache[key].snap, f.pc.result.snap);
      }
      KeepOwnMono(z, s, key, store);
    } else {
      KeepOtherMono(z, s, key, under, store);
    }
  }

  lemma KeepOtherMono(z: Sizes, s: State, key: Key, under: Key, store: Store)
    requires key.ListKey? && Mono(z, s, key) && |s.world.db| > 0 && under in s.flights
    requires FlightEnabled(s.flights[under], Keep(store))
    requires under != key || !s.flights[key].pc.result.OK?
    ensures Mono(z, AfterFlightStep(s, under, Keep(store)), key)
  {
    assert KeyMono(z, AfterFlightStep(s, under, Keep(store)), key);
  }

  lemma KeepOwnMono(z: Sizes, s: State, key: Key, store: Store)
    requires key.ListKey? && Inv(s) && Mono(z, s, key)
    requires key in s.flights && FlightEnabled(s.flights[key], Keep(store)) && Real(z, s, OfFlight(key, Keep(store)))
    requires s.flights[key].pc.result.OK? && (store.Refused? ==> key !in s.cache || !s.cache[key].OK?)
    ensures Mono(z, AfterFlightStep(s, key, Keep(store)), key)
  {
    var t := AfterFlightStep(s, key, Keep(store));
    assert KeyMono(z, t, key) by {
      if store.Whole? { } else if store.WithoutBody? { } else { }
    }
  }

  lemma DeliverMono(z: Sizes, s: State, key: Key, under: Key)
    requires key.ListKey? && Mono(z, s, key) && under in s.flights && s.flights[under].pc.Done?
    ensures Mono(z, AfterDeliver(s, under), key)
  {
    var f, t := s.flights[under], AfterDeliver(s, under);
    var u := s.(flights := s.flights - {under}, reqs := t.reqs);
    assert KeyMono(z, u, key);
    ShowMono(z, u, key, under, f.pc.result);
    forall q | q in t.reqs ensures ReqMono(t.delivered, key, t.reqs[q]) {
      assert ReqMono(s.delivered, key, s.reqs[q]);
      ReqMonoLater(s.delivered, t.delivered, key, s.reqs[q]);
    }
  }

  lemma PcMono(z: Sizes, s: State, key: Key, under: Key, pc: FlightPc)
    requires key.ListKey? && Mono(z, s, key) && under in s.flights
    requires (under == key ==> KeyMono(z, WithPc(s, key, pc), key))
    ensures Mono(z, WithPc(s, under, pc), key)
  {
    assert KeyMono(z, WithPc(s, under, pc), key);
  }

  lemma RecheckMono(z: Sizes, s: State, key: Key, under: Key, cancelled: bool)
    requires key.ListKey? && Mono(z, s, key) && |s.world.db| > 0 && under in s.flights
    requires FlightEnabled(s.flights[under], Recheck(cancelled))
    ensures Mono(z, AfterFlightStep(s, under, Recheck(cancelled)), key)
  {
    PcMono(z, s, key, under, if !cancelled && Serves(s, under, s.flights[under].acceptOmitted) then
      Done(s.cache[under], true) else Loading);
  }

  lemma LoadMono(z: Sizes, s: State, key: Key, under: Key, fails: bool)
    requires key.ListKey? && Mono(z, s, key) && |s.world.db| > 0 && under in s.flights
    requires FlightEnabled(s.flights[under], Load(fails))
    requires FlightOk(s.world, under, s.flights[under])
    ensures Mono(z, AfterFlightStep(s, under, Load(fails)), key)
  {
    PcMono(z, s, key, under, Loaded(if fails then Failed else LoadTarget(s.world, s.flights[under].target)));
  }

  lemma OfFlightMono(z: Sizes, s: State, key: Key, under: Key, step: FlightStep)
    requires key.ListKey? && Inv(s) && Mono(z, s, key) && Chained(s.world.db) && !Crosses(z, key)
    requires under in s.flights && FlightEnabled(s.flights[under], step) && Real(z, s, OfFlight(under, step))
    ensures Mono(z, AfterFlightStep(s, under, step), key)
  {
    match step {
      case Recheck(cancelled) => RecheckMono(z, s, key, under, cancelled);
      case Load(fails) => LoadMono(z, s, key, under, fails);
      case Keep(store) => KeepMono(z, s, key, under, store);
      case Deliver => DeliverMono(z, s, key, under);
    }
  }

  lemma CommitMono(z: Sizes, s: State, key: Key, event: WorldStep)
    requires key.ListKey? && Mono(z, s, key) && WorldEnabled(s.world, event)
    ensures Mono(z, s.(world := AfterWorldStep(s.world, event)), key)
  {
    var v := AfterWorldStep(s.world, event);
    assert s.world.db <= v.db;
  }

  lemma NextMono(z: Sizes, s: State, key: Key, step: Step)
    requires key.ListKey? && Inv(s) && Mono(z, s, key) && Chained(s.world.db) && !Crosses(z, key)
    requires Enabled(s, step) && Real(z, s, step)
    ensures Mono(z, Next(s, step), key)
  {
    match step
    case OfReq(r, step) => OfReqMono(z, s, key, r, step);
    case OfFlight(under, move) => OfFlightMono(z, s, key, under, move);
    case OfWorld(event) => CommitMono(z, s, key, event);
    case Begin(_, _, _) => assert KeyMono(z, Next(s, step), key);
    case Drop(_) => assert KeyMono(z, Next(s, step), key);
  }

  lemma {:induction false} RunMono(z: Sizes, s: State, steps: seq<Step>, key: Key)
    requires key.ListKey? && RealRun(z, s, steps) && Inv(s) && Mono(z, s, key) && Chained(s.world.db)
    requires !Crosses(z, key)
    ensures Mono(z, Run(s, steps).value, key)
  {
    if steps != [] {
      var most := steps[..|steps| - 1];
      RunKeeps(s, most);
      RunChained(s, most);
      RunMono(z, s, most, key);
      NextMono(z, Run(s, most).value, key, steps[|steps| - 1]);
    }
  }

  /** If no commit takes the list past what the cache accepts, a list that begins after
      another one under the same key was answered does not show an older state, through
      hits, joins, losses and reloads. */
  lemma ListsAdvance(z: Sizes, key: Key, start: State, before: seq<Step>, s: State, rest: seq<Step>, t: State,
      first: nat, second: nat)
    requires key.ListKey? && !Crosses(z, key) && Initial(start)
    requires RealRun(z, start, before) && Run(start, before) == Some(s) && RealRun(z, s, rest)
    requires Run(s, rest) == Some(t)
    requires AnsweredUnder(s, first, key) && second !in s.reqs && AnsweredUnder(t, second, key)
    ensures s.reqs[first].pc.result.snap <= t.reqs[second].pc.result.snap
  {
    RunMono(z, start, before, key);
    RunKeeps(start, before);
    RunChained(start, before);
    RunMono(z, s, rest, key);
    RunSince(s, rest);
    assert ReqMono(s.delivered, key, s.reqs[first]) && ReqMono(t.delivered, key, t.reqs[second]);
    assert BegunAfter(s, t.reqs[second]);
  }
}
