/** What the response cache promises its clients, over every run. In each theorem
    a run reaches `s` and goes on by `rest` to `t`. */
module CoherenceTheorems {
  import opened Common
  import opened Coherence

  ghost predicate Reachable(s: State) { exists db, epoch, steps :: Run(Init(db, epoch), steps) == Some(s) }

  lemma ReachableKeeps(s: State)
    requires Reachable(s)
    ensures Inv(s)
  {
    var db, epoch, steps :| Run(Init(db, epoch), steps) == Some(s);
    RunKeeps(Init(db, epoch), steps);
  }

  // ------------------------------------------------------------ cutting a run

  predicate MutStays(w: World, v: World, m: nat) {
    m in w.muts ==>
      && m in v.muts && v.muts[m].idx == w.muts[m].idx && v.muts[m].change == w.muts[m].change
      && (w.muts[m].done ==> v.muts[m].done)
  }

  /** The history only grows. */
  ghost predicate Grows(w: World, v: World) {
    w.db <= v.db && forall m {:trigger MutStays(w, v, m)} :: MutStays(w, v, m)
  }

  ghost predicate ShownGrows(shown: map<Key, nat>, more: map<Key, nat>) {
    forall k :: k in shown ==> k in more && shown[k] <= more[k]
  }

  /** What a request that begins after state `s` carries with it. */
  ghost predicate BegunAfter(s: State, req: Req) {
    Now(s.world) <= req.start && Reported(s.world) <= req.after && ShownGrows(s.delivered, req.seen)
  }

  ghost predicate Since(s: State, t: State) {
    && Grows(s.world, t.world) && ShownGrows(s.delivered, t.delivered)
    && (forall r :: r in t.reqs && r !in s.reqs ==> BegunAfter(s, t.reqs[r]))
    && s.reqs.Keys <= t.reqs.Keys
  }

  /** Steps leave what a request carries alone. */
  ghost predicate SameStarts(reqs: map<nat, Req>, more: map<nat, Req>) {
    && reqs.Keys == more.Keys
    && forall r :: r in more ==>
         reqs[r].start == more[r].start && reqs[r].after == more[r].after && reqs[r].seen == more[r].seen
  }

  ghost predicate KeepsFlights(t: State, u: State) {
    forall k :: k in t.flights ==> k in u.flights && u.flights[k] == t.flights[k]
  }

  ghost predicate Quiet(t: State, u: State) {
    t.world == u.world && ShownGrows(t.delivered, u.delivered) && SameStarts(t.reqs, u.reqs)
  }

  lemma AnswerQuiet(t: State, r: nat, result: Result, via: Via, under: Option<Key>)
    requires r in t.reqs
    ensures Quiet(t, Answer(t, r, result, via, under)) && KeepsFlights(t, Answer(t, r, result, via, under))
  {
  }

  lemma GotoQuiet(t: State, r: nat, pc: ReqPc)
    requires r in t.reqs
    ensures Quiet(t, Goto(t, r, pc)) && KeepsFlights(t, Goto(t, r, pc))
  {
  }

  lemma ReadQuiet(t: State, r: nat, step: ReqStep)
    requires |t.world.db| > 0 && r in t.reqs && ReqEnabled(t.reqs[r], step) && (step.Check? || step.FileLoad?)
    ensures Quiet(t, AfterReqStep(t, r, step)) && KeepsFlights(t, AfterReqStep(t, r, step))
  {
    var req := t.reqs[r];
    var read := ReadDocument(t.world, req.target.id, req.target.user);
    if step.FileLoad? && step.fails { AnswerQuiet(t, r, Failed, Direct, None); }
    else if !read.OK? { AnswerQuiet(t, r, read, Direct, None); }
    else if step.Check? { GotoQuiet(t, r, Checked(read.snap, read.body.doc)); }
    else { GotoQuiet(t, r, FileLoaded(req.pc.key, req.pc.at, read.snap, read.body.doc)); }
  }

  lemma FileQuiet(t: State, r: nat, step: ReqStep)
    requires |t.world.db| > 0 && r in t.reqs && ReqEnabled(t.reqs[r], step) && (step.FileHead? || step.FileFinish?)
    ensures Quiet(t, AfterReqStep(t, r, step)) && KeepsFlights(t, AfterReqStep(t, r, step))
  {
    var req := t.reqs[r];
    var n := if step.FileHead? then req.pc.at else req.pc.again;
    var entry := OK(n, Content(req.target.id, req.pc.doc), step.FileHead?);
    AnswerQuiet(Put(t, req.pc.key, entry, step.store), r, entry, Direct, Some(req.pc.key));
  }

  lemma FileBreakQuiet(t: State, r: nat, store: Store)
    requires |t.world.db| > 0 && r in t.reqs && ReqEnabled(t.reqs[r], FileBreak(store))
    ensures Quiet(t, AfterFileBreak(t, r, store)) && KeepsFlights(t, AfterFileBreak(t, r, store))
  {
    var req := t.reqs[r];
    var body := Content(req.target.id, req.pc.doc);
    AnswerQuiet(Put(t, req.pc.key, OK(req.pc.again, body, true), store), r, Cut(req.pc.again, body), Direct,
      Some(req.pc.key));
  }

  lemma LookupQuiet(t: State, r: nat, cancelled: bool)
    requires |t.world.db| > 0 && r in t.reqs && ReqEnabled(t.reqs[r], Lookup(cancelled))
    ensures Quiet(t, AfterLookup(t, r, cancelled)) && KeepsFlights(t, AfterLookup(t, r, cancelled))
  {
    var req := t.reqs[r];
    if !cancelled && Serves(t, req.pc.key, req.head) {
      AnswerQuiet(t, r, t.cache[req.pc.key], CacheHit, Some(req.pc.key));
    }
    else { GotoQuiet(t, r, AfterLookup(t, r, cancelled).reqs[r].pc); }
  }

  lemma ReqQuiet(t: State, r: nat, step: ReqStep)
    requires |t.world.db| > 0 && r in t.reqs && ReqEnabled(t.reqs[r], step)
    ensures Quiet(t, AfterReqStep(t, r, step)) && KeepsFlights(t, AfterReqStep(t, r, step))
  {
    match step
    case FileHead(_) => FileQuiet(t, r, step);
    case FileFinish(_) => FileQuiet(t, r, step);
    case FileBreak(store) => FileBreakQuiet(t, r, store);
    case Check => ReadQuiet(t, r, step);
    case FileLoad(_) => ReadQuiet(t, r, step);
    case Lookup(cancelled) => LookupQuiet(t, r, cancelled);
    case Abandon => AnswerQuiet(t, r, Failed, Direct, None);
    case MakeKey => GotoQuiet(t, r, AfterMakeKey(t, r).reqs[r].pc);
    case Join =>
  }

  lemma DeliverQuiet(t: State, key: Key)
    requires key in t.flights && t.flights[key].pc.Done?
    ensures Quiet(t, AfterDeliver(t, key))
  {
  }

  lemma FlightQuiet(t: State, key: Key, step: FlightStep)
    requires |t.world.db| > 0 && key in t.flights && FlightEnabled(t.flights[key], step)
    ensures Quiet(t, AfterFlightStep(t, key, step))
  {
    if step.Deliver? { DeliverQuiet(t, key); }
  }

  lemma QuietSince(s: State, t: State, u: State)
    requires Since(s, t) && Quiet(t, u)
    ensures Since(s, u)
  {
    forall k | k in s.delivered ensures k in u.delivered && s.delivered[k] <= u.delivered[k] {
      assert k in t.delivered;
    }
    forall r | r in u.reqs && r !in s.reqs ensures BegunAfter(s, u.reqs[r]) { assert BegunAfter(s, t.reqs[r]); }
  }

  lemma BeginSince(s: State, t: State, step: Step)
    requires Since(s, t) && Enabled(t, step) && step.Begin?
    ensures Since(s, Next(t, step))
  {
    var u := Next(t, step);
    forall m | m in Reported(s.world) ensures m in Reported(t.world) { assert MutStays(s.world, t.world, m); }
    assert BegunAfter(s, u.reqs[step.r]);
    forall r | r in u.reqs && r !in s.reqs ensures BegunAfter(s, u.reqs[r]) {
      if r != step.r { assert BegunAfter(s, t.reqs[r]); }
    }
  }

  lemma WorldSince(s: State, t: State, event: WorldStep)
    requires Since(s, t) && WorldEnabled(t.world, event)
    ensures Since(s, t.(world := AfterWorldStep(t.world, event)))
  {
    var v := AfterWorldStep(t.world, event);
    assert t.world.db <= v.db;
    forall m ensures MutStays(s.world, v, m) { assert MutStays(s.world, t.world, m); }
  }

  lemma NextSince(s: State, t: State, step: Step)
    requires Since(s, t) && Enabled(t, step)
    ensures Since(s, Next(t, step))
  {
    match step
    case Begin(_, _, _) => BeginSince(s, t, step);
    case OfWorld(event) => WorldSince(s, t, event);
    case Drop(_) =>
    case OfReq(r, step) => ReqQuiet(t, r, step); QuietSince(s, t, AfterReqStep(t, r, step));
    case OfFlight(key, move) => FlightQuiet(t, key, move); QuietSince(s, t, AfterFlightStep(t, key, move));
  }

  lemma {:induction false} RunSince(s: State, rest: seq<Step>)
    requires Run(s, rest).Some?
    ensures Since(s, Run(s, rest).value)
  {
    if rest != [] {
      var n := |rest| - 1;
      RunSince(s, rest[..n]);
      NextSince(s, Run(s, rest[..n]).value, rest[n]);
    }
  }

  /** A request that begins in the second part of a run starts on a state at least
      as new as the first part's last, and after all that was reported by then. */
  lemma LaterRequest(s: State, rest: seq<Step>, t: State, r: nat)
    requires Reachable(s) && Run(s, rest) == Some(t) && r in t.reqs && r !in s.reqs
    ensures Inv(s) && Inv(t) && Since(s, t) && BegunAfter(s, t.reqs[r]) && ReqOk(t.world, t.reqs[r])
  {
    ReachableKeeps(s);
    RunSince(s, rest);
    RunKeeps(s, rest);
  }

  // ------------------------------------------------------------------ answers

  ghost predicate AnsweredOK(s: State, r: nat, result: Result) {
    r in s.reqs && s.reqs[r].pc.Answered? && s.reqs[r].pc.result == result && result.OK?
  }

  /** Read your writes. A list that begins after a mutation reported success shows
      a database state that contains the mutation: hit, leader or joiner alike. */
  lemma ListReadsWrites(s: State, rest: seq<Step>, t: State, r: nat, m: nat, q: Query, result: Result)
    requires Reachable(s) && Run(s, rest) == Some(t)
    requires m in s.world.muts && s.world.muts[m].done
    requires r !in s.reqs && AnsweredOK(t, r, result) && t.reqs[r].target == ListOf(q)
    ensures result.body == Page(q, result.snap) && s.world.muts[m].idx <= result.snap < |t.world.db|
    ensures result.omitted ==> t.reqs[r].head || t.reqs[r].pc.via == FlightOf(true)
    ensures match s.world.muts[m].change
            case Delete(id, _) => id !in t.world.db[result.snap]
            case Upload(id, doc) =>
              && id in t.world.db[s.world.muts[m].idx]
              && (id in t.world.db[result.snap] ==> t.world.db[result.snap][id] == doc)
  {
    LaterRequest(s, rest, t, r);
    assert m in Reported(s.world) && MutStays(s.world, t.world, m) && MutOk(t.world, t.world.muts[m]);
    var id, i := t.world.muts[m].change.id, t.world.muts[m].idx;
    assert StaysGone(t.world.db, i - 1, i, result.snap, id) && Agrees(t.world.db, i, result.snap, id);
  }

  /** Every 200, 403 and 404 to a document request is what the database said at one
      moment between the request's start and its answer. */
  lemma DocumentLinearizes(s: State, rest: seq<Step>, t: State, r: nat, id: string, user: string)
    requires Reachable(s) && Run(s, rest) == Some(t)
    requires r !in s.reqs && r in t.reqs && t.reqs[r].pc.Answered? && t.reqs[r].target == Document(id, user)
    ensures var dbs, req, may := t.world.db, t.reqs[r], (doc: Doc) =>
      doc.owner == user || doc.public || user in doc.grants;
      match req.pc.result
      case OK(_, body, omitted) =>
        && (exists n: nat :: && Now(s.world) <= n < |dbs| && id in dbs[n]
                             && may(dbs[n][id]) && body == Content(id, dbs[n][id]))
        && (omitted ==> req.head || req.pc.via == FlightOf(true))
      case Cut(_, body) =>
        exists n: nat :: && Now(s.world) <= n < |dbs| && id in dbs[n]
                         && may(dbs[n][id]) && body == Content(id, dbs[n][id])
      case NotFound(n) => Now(s.world) <= n < |dbs| && id !in dbs[n]
      case Forbidden(n) => Now(s.world) <= n < |dbs| && id in dbs[n] && !may(dbs[n][id])
      case Failed => true
  {
    LaterRequest(s, rest, t, r);
    var req := t.reqs[r];
    if req.pc.result.OK? || req.pc.result.Cut? {
      var n: nat :| n <= req.pc.end && ReadAllowed(t.world, req, n, req.pc.result.body.doc);
      assert Now(s.world) <= n < |t.world.db| && id in t.world.db[n];
    }
  }
}
