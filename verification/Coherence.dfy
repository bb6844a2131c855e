/** internal/httptransport/response_cache.go with the handlers that use it: any
    number of concurrent list, read, upload and delete requests around one
    database, one epoch counter, one response cache and its single-flight loads.

    The database is the history of its committed states; every access to it, to
    the counter, to the cache and to the flight group is one step. The cache may
    lose an entry at any moment (expiry, eviction, invalidation), and a `Set` may
    keep the whole entry, keep it without its body, or be refused. */
module Coherence {
  import opened Common

  /** A document: no operation ever changes one. */
  datatype Doc = Doc(owner: string, public: bool, grants: set<string>, version: int, isFile: bool, content: string)

  type Db = map<string, Doc>

  predicate Accessible(doc: Doc, user: string) {
    doc.owner == user || doc.public || user in doc.grants
  }

  datatype Query = Query(user: string, owner: string, key: string, value: string, limit: int)

  datatype Key = ListKey(epoch: nat, query: Query) | DocKey(epoch: nat, id: string, version: int)

  /** A page stands for what the query yields on one database state. */
  datatype Body = Page(query: Query, at: nat) | Content(id: string, doc: Doc)

  datatype Result =
    | OK(snap: nat, body: Body, omitted: bool)  // 200, computed on state `snap`; omitted: without its body
    | NotFound(snap: nat)
    | Forbidden(snap: nat)
    | Cut(snap: nat, body: Body)                 // 200, but the stream of the body broke
    | Failed                                     // any other status, or the empty entry after ctx.Done

  datatype Target = ListOf(query: Query) | Document(id: string, user: string)

  datatype FlightPc = Rechecking | Loading | Loaded(result: Result) | Done(result: Result, hit: bool)

  /** A single-flight call: what its leader wants, and whether the leader accepts
      an entry without a body. `seenAt` is where the leader saw the document. */
  datatype Flight = Flight(target: Target, acceptOmitted: bool, seenAt: nat, pc: FlightPc)

  /** How an answer came about. */
  datatype Via = Direct | CacheHit | FlightOf(acceptOmitted: bool)

  datatype ReqPc =
    | Started
    | Checked(at: nat, doc: Doc)      // own metadata read
    | Keyed(key: Key, at: nat)
    | Missed(key: Key, at: nat)
    | Waiting(key: Key, at: nat)
    | FileKeyed(key: Key, at: nat, doc: Doc)
    | FileMissed(key: Key, at: nat, doc: Doc)
    | FileLoaded(key: Key, at: nat, again: nat, doc: Doc)
    | Answered(result: Result, via: Via, under: Option<Key>, end: nat)

  /** `start`: the state when the request began; `after`: the mutations that had
      reported success by then; `seen`: what lists had been delivered by then. */
  datatype Req = Req(target: Target, head: bool, start: nat, after: set<nat>, seen: map<Key, nat>, pc: ReqPc)

  datatype Change = Upload(id: string, doc: Doc) | Delete(id: string, user: string)

  /** A committed upload or delete: the first state that contains it, the epoch
      its bump produced, and whether success was reported. */
  datatype Mut = Mut(change: Change, idx: nat, bump: Option<nat>, done: bool)

  /** The database's committed states, the epoch, and the mutations. */
  datatype World = World(db: seq<Db>, epoch: nat, muts: map<nat, Mut>)

  datatype State = State(
    world: World,
    cache: map<Key, Result>,
    flights: map<Key, Flight>,
    reqs: map<nat, Req>,
    delivered: map<Key, nat>)  // the newest state a finished list showed, by key

  /** The epoch counter is given to the handler, so it may start anywhere. */
  function Init(db: Db, epoch: nat): State { State(World([db], epoch, map[]), map[], map[], map[], map[]) }

  function Now(w: World): nat { if |w.db| == 0 then 0 else |w.db| - 1 }

  // --------------------------------------------------------------------- steps

  datatype Store = Whole | WithoutBody | Refused

  datatype ReqStep =
    | Check
    | MakeKey
    | Lookup(cancelled: bool)
    | Join
    | Abandon
    | FileHead(store: Store)
    | FileLoad(fails: bool)
    | FileFinish(store: Store)
    | FileBreak(store: Store)

  datatype FlightStep =
    | Recheck(cancelled: bool)
    | Load(fails: bool)
    | Keep(store: Store)
    | Deliver

  datatype WorldStep =
    | Commit(m: nat, change: Change)
    | Bump(m: nat)
    | Report(m: nat)

  datatype Step =
    | Begin(r: nat, target: Target, head: bool)
    | OfReq(r: nat, step: ReqStep)
    | OfFlight(key: Key, move: FlightStep)
    | OfWorld(event: WorldStep)
    | Drop(key: Key)

  predicate NewId(w: World, id: string) { forall db :: db in w.db ==> id !in db }

  predicate ReqEnabled(req: Req, step: ReqStep) {
    match step
    case Check => req.pc.Started? && req.target.Document?
    case MakeKey => (req.pc.Checked? && req.target.Document?) || (req.pc.Started? && req.target.ListOf?)
    case Lookup(_) => req.pc.Keyed? || req.pc.FileKeyed?
    case Join => req.pc.Missed?
    case Abandon => req.pc.Waiting?
    case FileHead(_) => req.pc.FileMissed? && req.target.Document? && req.head
    case FileLoad(_) => req.pc.FileMissed? && req.target.Document? && !req.head
    case FileFinish(_) => req.pc.FileLoaded? && req.target.Document?
    case FileBreak(_) => req.pc.FileLoaded? && req.target.Document?
  }

  predicate FlightEnabled(f: Flight, step: FlightStep) {
    match step
    case Recheck(_) => f.pc.Rechecking?
    case Load(_) => f.pc.Loading?
    case Keep(_) => f.pc.Loaded?
    case Deliver => f.pc.Done?
  }

  predicate WorldEnabled(w: World, step: WorldStep) {
    match step
    case Commit(m, Upload(id, _)) => m !in w.muts && |w.db| > 0 && NewId(w, id)
    case Commit(m, Delete(id, user)) =>
      m !in w.muts && |w.db| > 0 && id in w.db[Now(w)] && w.db[Now(w)][id].owner == user
    case Bump(m) => m in w.muts && w.muts[m].bump.None?
    case Report(m) => m in w.muts && w.muts[m].bump.Some?
  }

  predicate Enabled(s: State, step: Step) {
    && |s.world.db| > 0
    && match step
       case Begin(r, _, _) => r !in s.reqs
       case OfReq(r, step) => r in s.reqs && ReqEnabled(s.reqs[r], step)
       case OfFlight(key, move) => key in s.flights && FlightEnabled(s.flights[key], move)
       case OfWorld(event) => WorldEnabled(s.world, event)
       case Drop(_) => true
  }

  function Reported(w: World): set<nat> { set m | m in w.muts && w.muts[m].done }

  function Goto(s: State, r: nat, pc: ReqPc): State
    requires r in s.reqs
  {
    s.(reqs := s.reqs[r := s.reqs[r].(pc := pc)])
  }

  function Answer(s: State, r: nat, result: Result, via: Via, under: Option<Key>): State
    requires r in s.reqs
  {
    Show(Goto(s, r, Answered(result, via, under, Now(s.world))), under, result)
  }

  /** A finished list moves the newest state shown under its key. */
  function Show(s: State, under: Option<Key>, result: Result): State {
    if under.Some? && result.OK?
    then s.(delivered := s.delivered[under.value := Newest(s, under.value, result.snap)])
    else s
  }

  function Newest(s: State, key: Key, snap: nat): nat {
    if key in s.delivered && s.delivered[key] > snap then s.delivered[key] else snap
  }

  /** The access check of `ByIDAccessible` on the current state. */
  function ReadDocument(w: World, id: string, user: string): Result
    requires |w.db| > 0
  {
    var db := w.db[Now(w)];
    if id !in db then NotFound(Now(w))
    else if !Accessible(db[id], user) then Forbidden(Now(w))
    else OK(Now(w), Content(id, db[id]), false)
  }

  function LoadTarget(w: World, target: Target): Result
    requires |w.db| > 0
  {
    match target
    case ListOf(q) => OK(Now(w), Page(q, Now(w)), false)
    case Document(id, user) => ReadDocument(w, id, user)
  }

  function Put(s: State, key: Key, entry: Result, store: Store): State
    requires entry.OK?
  {
    match store
    case Whole => s.(cache := s.cache[key := entry])
    case WithoutBody => s.(cache := s.cache[key := entry.(omitted := true)])
    case Refused => s
  }

  /** Whether a cached entry serves a request that does, or does not, need the body. */
  predicate Serves(s: State, key: Key, acceptOmitted: bool) {
    key in s.cache && s.cache[key].OK? && (acceptOmitted || !s.cache[key].omitted)
  }

  function Changed(db: Db, change: Change): Db {
    match change
    case Upload(id, doc) => db[id := doc]
    case Delete(id, _) => db - {id}
  }

  function AfterCheck(s: State, r: nat): State
    requires |s.world.db| > 0 && r in s.reqs && ReqEnabled(s.reqs[r], Check)
  {
    var target := s.reqs[r].target;
    var read := ReadDocument(s.world, target.id, target.user);
    if read.OK? then Goto(s, r, Checked(read.snap, read.body.doc)) else Answer(s, r, read, Direct, None)
  }

  function AfterMakeKey(s: State, r: nat): State
    requires |s.world.db| > 0 && r in s.reqs && ReqEnabled(s.reqs[r], MakeKey)
  {
    var req := s.reqs[r];
    if req.pc.Started? then Goto(s, r, Keyed(ListKey(s.world.epoch, req.target.query), Now(s.world)))
    else
      var key := DocKey(s.world.epoch, req.target.id, req.pc.doc.version);
      Goto(s, r, if req.pc.doc.isFile then FileKeyed(key, req.pc.at, req.pc.doc) else Keyed(key, req.pc.at))
  }

  /** `Get` of a cancelled request misses; a HEAD request takes an entry without its body. */
  function AfterLookup(s: State, r: nat, cancelled: bool): State
    requires |s.world.db| > 0 && r in s.reqs && ReqEnabled(s.reqs[r], Lookup(cancelled))
  {
    var req := s.reqs[r];
    var key := req.pc.key;
    if !cancelled && Serves(s, key, req.head) then Answer(s, r, s.cache[key], CacheHit, Some(key))
    else Goto(s, r, if req.pc.Keyed? then Missed(key, req.pc.at) else FileMissed(key, req.pc.at, req.pc.doc))
  }

  function AfterJoin(s: State, r: nat): State
    requires |s.world.db| > 0 && r in s.reqs && ReqEnabled(s.reqs[r], Join)
  {
    var req := s.reqs[r];
    var flights := if req.pc.key in s.flights then s.flights
                   else s.flights[req.pc.key := Flight(req.target, req.head, req.pc.at, Rechecking)];
    Goto(s.(flights := flights), r, Waiting(req.pc.key, req.pc.at))
  }

  function AfterFileHead(s: State, r: nat, store: Store): State
    requires |s.world.db| > 0 && r in s.reqs && ReqEnabled(s.reqs[r], FileHead(store))
  {
    var req := s.reqs[r];
    var entry := OK(req.pc.at, Content(req.target.id, req.pc.doc), true);
    Answer(Put(s, req.pc.key, entry, store), r, entry, Direct, Some(req.pc.key))
  }

  function AfterFileLoad(s: State, r: nat, fails: bool): State
    requires |s.world.db| > 0 && r in s.reqs && ReqEnabled(s.reqs[r], FileLoad(fails))
  {
    var req := s.reqs[r];
    var read := ReadDocument(s.world, req.target.id, req.target.user);
    if fails then Answer(s, r, Failed, Direct, None)
    else if read.OK? then Goto(s, r, FileLoaded(req.pc.key, req.pc.at, read.snap, read.body.doc))
    else Answer(s, r, read, Direct, None)
  }

  function AfterFileFinish(s: State, r: nat, store: Store): State
    requires |s.world.db| > 0 && r in s.reqs && ReqEnabled(s.reqs[r], FileFinish(store))
  {
    var req := s.reqs[r];
    var entry := OK(req.pc.again, Content(req.target.id, req.pc.doc), false);
    Answer(Put(s, req.pc.key, entry, store), r, entry, Direct, Some(req.pc.key))
  }

  /** Metadata may be cached before the stream; the body is not, once the stream broke. */
  function AfterFileBreak(s: State, r: nat, store: Store): State
    requires |s.world.db| > 0 && r in s.reqs && ReqEnabled(s.reqs[r], FileBreak(store))
  {
    var req := s.reqs[r];
    var body := Content(req.target.id, req.pc.doc);
    Answer(Put(s, req.pc.key, OK(req.pc.again, body, true), store), r, Cut(req.pc.again, body), Direct,
      Some(req.pc.key))
  }

  function AfterReqStep(s: State, r: nat, step: ReqStep): State
    requires |s.world.db| > 0 && r in s.reqs && ReqEnabled(s.reqs[r], step)
  {
    match step
    case Check => AfterCheck(s, r)
    case MakeKey => AfterMakeKey(s, r)
    case Lookup(cancelled) => AfterLookup(s, r, cancelled)
    case Join => AfterJoin(s, r)
    case Abandon => Answer(s, r, Failed, Direct, None)
    case FileHead(store) => AfterFileHead(s, r, store)
    case FileLoad(fails) => AfterFileLoad(s, r, fails)
    case FileFinish(store) => AfterFileFinish(s, r, store)
    case FileBreak(store) => AfterFileBreak(s, r, store)
  }

  function WithPc(s: State, key: Key, pc: FlightPc): State
    requires key in s.flights
  {
    s.(flights := s.flights[key := s.flights[key].(pc := pc)])
  }

  function AfterDeliver(s: State, key: Key): State
    requires key in s.flights && s.flights[key].pc.Done?
  {
    var f := s.flights[key];
    var answer := Answered(f.pc.result, FlightOf(f.acceptOmitted), Some(key), Now(s.world));
    Show(s.(flights := s.flights - {key},
            reqs := map r | r in s.reqs ::
                      if s.reqs[r].pc.Waiting? && s.reqs[r].pc.key == key then s.reqs[r].(pc := answer) else s.reqs[r]),
         Some(key), f.pc.result)
  }

  function AfterFlightStep(s: State, key: Key, step: FlightStep): State
    requires |s.world.db| > 0 && key in s.flights && FlightEnabled(s.flights[key], step)
  {
    var f := s.flights[key];
    match step
    case Recheck(cancelled) =>
      WithPc(s, key, if !cancelled && Serves(s, key, f.acceptOmitted) then Done(s.cache[key], true) else Loading)
    case Load(fails) => WithPc(s, key, Loaded(if fails then Failed else LoadTarget(s.world, f.target)))
    case Keep(store) => WithPc(if f.pc.result.OK? then Put(s, key, f.pc.result, store) else s, key,
      Done(f.pc.result, false))
    case Deliver => AfterDeliver(s, key)
  }

  function AfterWorldStep(w: World, step: WorldStep): World
    requires WorldEnabled(w, step)
  {
    match step
    case Commit(m, change) => w.(db := w.db + [Changed(w.db[Now(w)], change)],
      muts := w.muts[m := Mut(change, |w.db|, None, false)])
    case Bump(m) => w.(epoch := w.epoch + 1, muts := w.muts[m := w.muts[m].(bump := Some(w.epoch + 1))])
    case Report(m) => w.(muts := w.muts[m := w.muts[m].(done := true)])
  }

  function Next(s: State, step: Step): State
    requires Enabled(s, step)
  {
    match step
    case Begin(r, target, head) => s.(reqs :=
      s.reqs[r := Req(target, head, Now(s.world), Reported(s.world), s.delivered, Started)])
    case OfReq(r, step) => AfterReqStep(s, r, step)
    case OfFlight(key, move) => AfterFlightStep(s, key, move)
    case OfWorld(event) => s.(world := AfterWorldStep(s.world, event))
    case Drop(key) => s.(cache := s.cache - {key})
  }

  function Run(s: State, steps: seq<Step>): Option<State> {
    if steps == [] then Some(s)
    else match Run(s, steps[..|steps| - 1])
         case None => None
         case Some(t) => if Enabled(t, steps[|steps| - 1]) then Some(Next(t, steps[|steps| - 1])) else None
  }

  // ------------------------------------------------------------ the invariant

  predicate Agrees(db: seq<Db>, a: nat, b: nat, id: string) {
    a <= b < |db| && id in db[a] && id in db[b] ==> db[a][id] == db[b][id]
  }

  /** A document never changes. */
  ghost predicate Immutable(db: seq<Db>) {
    forall a, b, id {:trigger Agrees(db, a, b, id)} :: Agrees(db, a, b, id)
  }

  predicate StaysGone(db: seq<Db>, a: nat, b: nat, c: nat, id: string) {
    a <= b <= c < |db| && id in db[a] && id !in db[b] ==> id !in db[c]
  }

  /** A deleted document does not come back. */
  ghost predicate NoReturn(db: seq<Db>) {
    forall a, b, c, id {:trigger StaysGone(db, a, b, c, id)} :: StaysGone(db, a, b, c, id)
  }

  predicate Holds(w: World, n: nat, id: string, doc: Doc) {
    n < |w.db| && id in w.db[n] && w.db[n][id] == doc
  }

  predicate MutOk(w: World, m: Mut) {
    && 0 < m.idx < |w.db|
    && (m.bump.Some? ==> 0 < m.bump.value <= w.epoch)
    && (m.done ==> m.bump.Some?)
    && (match m.change
        case Upload(id, doc) => Holds(w, m.idx, id, doc)
        case Delete(id, _) => id in w.db[m.idx - 1] && id !in w.db[m.idx])
  }

  predicate WithinEpoch(w: World, m: nat, e: nat) {
    m in w.muts && w.muts[m].bump.Some? && w.muts[m].bump.value <= e
  }

  /** State `snap` contains every mutation whose bump produced epoch `e` or less. */
  ghost predicate Contains(w: World, e: nat, snap: nat) {
    forall m :: WithinEpoch(w, m, e) ==> w.muts[m].idx <= snap
  }

  ghost predicate WorldInv(w: World) {
    && |w.db| > 0 && Immutable(w.db) && NoReturn(w.db)
    && (forall m :: m in w.muts ==> MutOk(w, w.muts[m]))
  }

  /** What an answer under a key may say. */
  ghost predicate GoodResult(w: World, key: Key, result: Result) {
    && result.OK? && result.snap < |w.db| && key.epoch <= w.epoch
    && (match key
        case ListKey(e, q) => result.body == Page(q, result.snap) && Contains(w, e, result.snap)
        case DocKey(_, id, version) =>
          && result.body.Content? && result.body.id == id && result.body.doc.version == version
          && Holds(w, result.snap, id, result.body.doc))
  }

  /** The key belongs to what is asked; a document was seen on state `at`. */
  ghost predicate KeyFits(w: World, target: Target, key: Key, at: nat) {
    && key.epoch <= w.epoch && at < |w.db|
    && (match target
        case ListOf(q) => key == ListKey(key.epoch, q)
        case Document(id, user) =>
          && key.DocKey? && key.id == id && id in w.db[at] && w.db[at][id].version == key.version
          && Accessible(w.db[at][id], user))
  }

  ghost predicate FlightOk(w: World, key: Key, f: Flight) {
    && KeyFits(w, f.target, key, f.seenAt)
    && (f.pc.Loaded? || f.pc.Done? ==>
          match f.pc.result
          case OK(_, _, omitted) =>
            GoodResult(w, key, f.pc.result) && (omitted ==> f.acceptOmitted && f.pc.Done? && f.pc.hit)
          case NotFound(n) => key.DocKey? && f.seenAt <= n < |w.db| && key.id !in w.db[n]
          case Forbidden(_) => false
          case Cut(_, _) => false
          case Failed => true)
  }

  ghost predicate ReadAllowed(w: World, req: Req, n: nat, doc: Doc) {
    req.target.Document? && req.start <= n && Holds(w, n, req.target.id, doc) && Accessible(doc, req.target.user)
  }

  /** A state between the request's start and `end` shows the document to the requester. */
  ghost predicate ReadSomewhere(w: World, req: Req, end: nat, doc: Doc) {
    exists n: nat :: n <= end && ReadAllowed(w, req, n, doc)
  }

  /** State `snap` contains every mutation that had reported success before the request. */
  ghost predicate ReadsWrites(w: World, req: Req, snap: nat) {
    forall m :: m in req.after ==> m in w.muts && w.muts[m].idx <= snap
  }

  /** What may be answered to a request: see the theorems. */
  ghost predicate AnswerOk(w: World, req: Req, result: Result, via: Via, end: nat) {
    && end < |w.db|
    && match result
       case OK(snap, body, omitted) =>
         && (omitted && !req.head ==> via == FlightOf(true))
         && (match req.target
             case ListOf(q) => body == Page(q, snap) && snap <= end && ReadsWrites(w, req, snap)
             case Document(id, _) => body.Content? && body.id == id && ReadSomewhere(w, req, end, body.doc))
       case Cut(_, body) =>
         req.target.Document? && body.Content? && body.id == req.target.id && ReadSomewhere(w, req, end, body.doc)
       case NotFound(n) => req.target.Document? && req.start <= n <= end && req.target.id !in w.db[n]
       case Forbidden(n) =>
         && req.target.Document? && req.start <= n <= end && req.target.id in w.db[n]
         && !Accessible(w.db[n][req.target.id], req.target.user)
       case Failed => true
  }

  ghost predicate OnKey(w: World, req: Req, key: Key, at: nat) {
    && KeyFits(w, req.target, key, at) && req.start <= at
    && (forall m :: m in req.after ==> WithinEpoch(w, m, key.epoch))
  }

  ghost predicate ReqOk(w: World, req: Req) {
    && req.start < |w.db|
    && (forall m :: m in req.after ==> m in w.muts && w.muts[m].done)
    && (match req.pc
        case Started => true
        case Checked(at, doc) => ReadAllowed(w, req, at, doc)
        case Keyed(key, at) => OnKey(w, req, key, at)
        case Missed(key, at) => OnKey(w, req, key, at)
        case Waiting(key, at) => OnKey(w, req, key, at)
        case FileKeyed(key, at, doc) => OnKey(w, req, key, at) && ReadAllowed(w, req, at, doc)
        case FileMissed(key, at, doc) => OnKey(w, req, key, at) && ReadAllowed(w, req, at, doc)
        case FileLoaded(key, at, again, doc) => OnKey(w, req, key, at) && ReadAllowed(w, req, again, doc)
        case Answered(result, via, _, end) => AnswerOk(w, req, result, via, end))
  }

  ghost predicate Inv(s: State) {
    && WorldInv(s.world)
    && (forall key :: key in s.cache ==> GoodResult(s.world, key, s.cache[key]))
    && (forall key :: key in s.flights ==> FlightOk(s.world, key, s.flights[key]))
    && (forall r :: r in s.reqs ==> ReqOk(s.world, s.reqs[r]))
    && (forall r :: r in s.reqs && s.reqs[r].pc.Waiting? ==> s.reqs[r].pc.key in s.flights)
  }

  // --------------------------------------------- database, epoch and mutations

  predicate MutLater(w: World, v: World, m: nat) {
    && (m in w.muts ==>
          && m in v.muts && v.muts[m].change == w.muts[m].change && v.muts[m].idx == w.muts[m].idx
          && (w.muts[m].bump.Some? ==> v.muts[m].bump == w.muts[m].bump)
          && (w.muts[m].done ==> v.muts[m].done))
    && (WithinEpoch(v, m, w.epoch) ==> WithinEpoch(w, m, w.epoch))
  }

  /** `v` is a later state of the database, the epoch and the mutations. */
  ghost predicate Later(w: World, v: World) {
    w.db <= v.db && w.epoch <= v.epoch && forall m {:trigger MutLater(w, v, m)} :: MutLater(w, v, m)
  }

  lemma GoodLater(w: World, v: World, key: Key, result: Result)
    requires Later(w, v) && GoodResult(w, key, result)
    ensures GoodResult(v, key, result)
  {
    if key.ListKey? {
      forall m | WithinEpoch(v, m, key.epoch) ensures v.muts[m].idx <= result.snap {
        assert MutLater(w, v, m);
        assert WithinEpoch(w, m, key.epoch);
      }
    }
  }

  lemma FlightLater(w: World, v: World, key: Key, f: Flight)
    requires Later(w, v) && FlightOk(w, key, f)
    ensures FlightOk(v, key, f)
  {
    if (f.pc.Loaded? || f.pc.Done?) && f.pc.result.OK? { GoodLater(w, v, key, f.pc.result); }
  }

  lemma AnswerLater(w: World, v: World, req: Req, result: Result, via: Via, end: nat)
    requires Later(w, v) && AnswerOk(w, req, result, via, end)
    ensures AnswerOk(v, req, result, via, end)
  {
    if (result.OK? || result.Cut?) && req.target.Document? {
      var n: nat :| n <= end && ReadAllowed(w, req, n, result.body.doc);
      assert ReadAllowed(v, req, n, result.body.doc);
    } else if result.OK? {
      forall m | m in req.after ensures m in v.muts && v.muts[m].idx <= result.snap { assert MutLater(w, v, m); }
    }
  }

  lemma OnKeyLater(w: World, v: World, req: Req, key: Key, at: nat)
    requires Later(w, v) && OnKey(w, req, key, at)
    ensures OnKey(v, req, key, at)
  {
    forall m | m in req.after ensures WithinEpoch(v, m, key.epoch) {
      assert MutLater(w, v, m);
      assert WithinEpoch(w, m, key.epoch);
    }
  }

  lemma ReqLater(w: World, v: World, req: Req)
    requires Later(w, v) && ReqOk(w, req)
    ensures ReqOk(v, req)
  {
    forall m | m in req.after ensures m in v.muts && v.muts[m].done { assert MutLater(w, v, m); }
    match req.pc {
      case Started =>
      case Checked(at, doc) => assert ReadAllowed(v, req, at, doc);
      case Keyed(key, at) => OnKeyLater(w, v, req, key, at);
      case Missed(key, at) => OnKeyLater(w, v, req, key, at);
      case Waiting(key, at) => OnKeyLater(w, v, req, key, at);
      case FileKeyed(key, at, doc) => OnKeyLater(w, v, req, key, at); assert ReadAllowed(v, req, at, doc);
      case FileMissed(key, at, doc) => OnKeyLater(w, v, req, key, at); assert ReadAllowed(v, req, at, doc);
      case FileLoaded(key, at, again, doc) => OnKeyLater(w, v, req, key, at); assert ReadAllowed(v, req, again, doc);
      case Answered(result, via, _, end) => AnswerLater(w, v, req, result, via, end);
    }
  }

  lemma CommitKeepsHistory(db: seq<Db>, change: Change)
    requires |db| > 0 && Immutable(db) && NoReturn(db)
    requires change.Upload? ==> forall d :: d in db ==> change.id !in d
    ensures var more := db + [Changed(db[|db| - 1], change)]; Immutable(more) && NoReturn(more)
  {
    var n, more := |db|, db + [Changed(db[|db| - 1], change)];
    forall a: nat, b: nat, id ensures Agrees(more, a, b, id) {
      if a < n {
        assert more[a] == db[a] && db[a] in db;
        assert Agrees(db, a, if b < n then b else n - 1, id);
      }
    }
    forall a: nat, b: nat, c: nat, id ensures StaysGone(more, a, b, c, id) {
      if b < n && a < n {
        assert more[a] == db[a] && more[b] == db[b] && db[a] in db;
        assert StaysGone(db, a, b, if c < n then c else n - 1, id);
      }
    }
  }

  lemma WorldStepKeeps(w: World, step: WorldStep)
    requires WorldInv(w) && WorldEnabled(w, step)
    ensures WorldInv(AfterWorldStep(w, step)) && Later(w, AfterWorldStep(w, step))
  {
    match step
    case Commit(m, change) => CommitKeeps(w, m, change);
    case Bump(m) =>
    case Report(m) =>
  }

  lemma CommitKeeps(w: World, m: nat, change: Change)
    requires WorldInv(w) && WorldEnabled(w, Commit(m, change))
    ensures WorldInv(AfterWorldStep(w, Commit(m, change))) && Later(w, AfterWorldStep(w, Commit(m, change)))
  {
    CommitKeepsHistory(w.db, change);
  }

  // ------------------------------------------------------------- preservation

  lemma OfWorldKeeps(s: State, event: WorldStep)
    requires Inv(s) && WorldEnabled(s.world, event)
    ensures Inv(s.(world := AfterWorldStep(s.world, event)))
  {
    var v := AfterWorldStep(s.world, event);
    WorldStepKeeps(s.world, event);
    forall key | key in s.cache ensures GoodResult(v, key, s.cache[key]) { GoodLater(s.world, v, key, s.cache[key]); }
    forall key | key in s.flights ensures FlightOk(v, key, s.flights[key]) {
      FlightLater(s.world, v, key, s.flights[key]);
    }
    forall r | r in s.reqs ensures ReqOk(v, s.reqs[r]) { ReqLater(s.world, v, s.reqs[r]); }
  }

  /** Anything that may stand under its key answers a request that holds the key. */
  lemma HitOk(w: World, req: Req, key: Key, at: nat, result: Result, via: Via)
    requires WorldInv(w) && OnKey(w, req, key, at) && GoodResult(w, key, result)
    requires result.omitted && !req.head ==> via == FlightOf(true)
    ensures AnswerOk(w, req, result, via, Now(w))
  {
    if req.target.Document? {
      assert Agrees(w.db, at, result.snap, key.id) && Agrees(w.db, result.snap, at, key.id);
      assert ReadAllowed(w, req, at, result.body.doc);
    }
  }

  /** A flight's result answers whoever waits for it, also where another request led it. */
  lemma WaiterOk(w: World, req: Req, key: Key, at: nat, f: Flight)
    requires WorldInv(w) && OnKey(w, req, key, at) && FlightOk(w, key, f) && f.pc.Done?
    ensures AnswerOk(w, req, f.pc.result, FlightOf(f.acceptOmitted), Now(w))
  {
    match f.pc.result {
      case OK(_, _, _) => HitOk(w, req, key, at, f.pc.result, FlightOf(f.acceptOmitted));
      case NotFound(n) => assert StaysGone(w.db, f.seenAt, n, at, key.id);
      case Failed =>
    }
  }

  /** A loaded document stands under the key of the version that its leader saw. */
  lemma LoadOk(w: World, key: Key, f: Flight)
    requires WorldInv(w) && FlightOk(w, key, f) && f.pc.Loading?
    ensures FlightOk(w, key, f.(pc := Loaded(LoadTarget(w, f.target))))
  {
    if f.target.Document? { assert Agrees(w.db, f.seenAt, Now(w), key.id); }
  }

  /** What a request reads for itself may be answered at once. */
  lemma ReadOk(w: World, req: Req)
    requires WorldInv(w) && ReqOk(w, req) && req.target.Document?
    ensures var read := ReadDocument(w, req.target.id, req.target.user);
      if read.OK? then ReadAllowed(w, req, read.snap, read.body.doc) else AnswerOk(w, req, read, Direct, Now(w))
  {
  }

  lemma FileOk(w: World, req: Req, key: Key, at: nat, snap: nat, doc: Doc, omitted: bool)
    requires WorldInv(w) && OnKey(w, req, key, at) && ReadAllowed(w, req, snap, doc) && (omitted ==> req.head)
    ensures var entry := OK(snap, Content(req.target.id, doc), omitted);
      GoodResult(w, key, entry) && AnswerOk(w, req, entry, Direct, Now(w))
  {
    assert Agrees(w.db, at, snap, key.id) && Agrees(w.db, snap, at, key.id);
    HitOk(w, req, key, at, OK(snap, Content(req.target.id, doc), omitted), Direct);
  }

  lemma GotoKeeps(s: State, r: nat, pc: ReqPc)
    requires Inv(s) && r in s.reqs && ReqOk(s.world, s.reqs[r].(pc := pc)) && (pc.Waiting? ==> pc.key in s.flights)
    ensures Inv(Goto(s, r, pc))
  {
  }

  lemma AnswerKeeps(s: State, r: nat, result: Result, via: Via, under: Option<Key>)
    requires Inv(s) && r in s.reqs && AnswerOk(s.world, s.reqs[r], result, via, Now(s.world))
    ensures Inv(Answer(s, r, result, via, under))
  {
    var pc := Answered(result, via, under, Now(s.world));
    AnswerAnyPc(s.world, s.reqs[r], pc, result, via);
    GotoKeeps(s, r, pc);
  }

  lemma AnswerAnyPc(w: World, req: Req, pc: ReqPc, result: Result, via: Via)
    requires AnswerOk(w, req, result, via, Now(w))
    ensures AnswerOk(w, req.(pc := pc), result, via, Now(w))
  {
    var moved := req.(pc := pc);
    if (result.OK? || result.Cut?) && req.target.Document? {
      var n: nat :| n <= Now(w) && ReadAllowed(w, req, n, result.body.doc);
      assert ReadAllowed(w, moved, n, result.body.doc);
    }
  }

  lemma PutKeeps(s: State, key: Key, entry: Result, store: Store)
    requires Inv(s) && GoodResult(s.world, key, entry)
    ensures Inv(Put(s, key, entry, store))
  {
    assert GoodResult(s.world, key, entry.(omitted := true));
  }

  lemma PcKeeps(s: State, key: Key, pc: FlightPc)
    requires Inv(s) && key in s.flights && FlightOk(s.world, key, s.flights[key].(pc := pc))
    ensures Inv(WithPc(s, key, pc))
  {
  }

  lemma OfReqKeeps(s: State, r: nat, step: ReqStep)
    requires Inv(s) && r in s.reqs && ReqEnabled(s.reqs[r], step)
    ensures Inv(AfterReqStep(s, r, step))
  {
    var w, req := s.world, s.reqs[r];
    assert ReqOk(w, req);
    match step {
      case Check => CheckKeeps(s, r);
      case MakeKey => MakeKeyKeeps(s, r);
      case Lookup(cancelled) => LookupKeeps(s, r, cancelled);
      case Join => JoinKeeps(s, r);
      case Abandon => AnswerKeeps(s, r, Failed, Direct, None);
      case FileHead(store) => FileHeadKeeps(s, r, store);
      case FileLoad(fails) => FileLoadKeeps(s, r, fails);
      case FileFinish(store) => FileFinishKeeps(s, r, store);
      case FileBreak(store) => FileBreakKeeps(s, r, store);
    }
  }

  lemma CheckKeeps(s: State, r: nat)
    requires Inv(s) && r in s.reqs && ReqEnabled(s.reqs[r], Check)
    ensures Inv(AfterCheck(s, r))
  {
    var w, req := s.world, s.reqs[r];
    var read := ReadDocument(w, req.target.id, req.target.user);
    ReadOk(w, req);
    if read.OK? {
      assert ReadAllowed(w, req.(pc := Checked(read.snap, read.body.doc)), read.snap, read.body.doc);
      GotoKeeps(s, r, Checked(read.snap, read.body.doc));
    } else {
      AnswerKeeps(s, r, read, Direct, None);
    }
  }

  lemma MakeKeyKeeps(s: State, r: nat)
    requires Inv(s) && r in s.reqs && ReqEnabled(s.reqs[r], MakeKey)
    ensures Inv(AfterMakeKey(s, r))
  {
    var w, req, t := s.world, s.reqs[r], AfterMakeKey(s, r);
    assert ReqOk(w, req);
    assert forall m :: m in req.after ==> WithinEpoch(w, m, w.epoch);
    assert ReqOk(w, t.reqs[r]);
    GotoKeeps(s, r, t.reqs[r].pc);
  }

  lemma LookupKeeps(s: State, r: nat, cancelled: bool)
    requires Inv(s) && r in s.reqs && ReqEnabled(s.reqs[r], Lookup(cancelled))
    ensures Inv(AfterLookup(s, r, cancelled))
  {
    var w, req, t := s.world, s.reqs[r], AfterLookup(s, r, cancelled);
    assert ReqOk(w, req);
    if !cancelled && Serves(s, req.pc.key, req.head) {
      HitOk(w, req, req.pc.key, req.pc.at, s.cache[req.pc.key], CacheHit);
      AnswerKeeps(s, r, s.cache[req.pc.key], CacheHit, Some(req.pc.key));
    } else {
      GotoKeeps(s, r, t.reqs[r].pc);
    }
  }

  lemma JoinKeeps(s: State, r: nat)
    requires Inv(s) && r in s.reqs && ReqEnabled(s.reqs[r], Join)
    ensures Inv(AfterJoin(s, r))
  {
    assert ReqOk(s.world, s.reqs[r]);
    var u := s.(flights := AfterJoin(s, r).flights);
    assert Inv(u);
    GotoKeeps(u, r, Waiting(s.reqs[r].pc.key, s.reqs[r].pc.at));
  }

  lemma FileHeadKeeps(s: State, r: nat, store: Store)
    requires Inv(s) && r in s.reqs && ReqEnabled(s.reqs[r], FileHead(store))
    ensures Inv(AfterFileHead(s, r, store))
  {
    var w, req := s.world, s.reqs[r];
    var entry := OK(req.pc.at, Content(req.target.id, req.pc.doc), true);
    assert ReqOk(w, req);
    FileOk(w, req, req.pc.key, req.pc.at, req.pc.at, req.pc.doc, true);
    PutKeeps(s, req.pc.key, entry, store);
    AnswerKeeps(Put(s, req.pc.key, entry, store), r, entry, Direct, Some(req.pc.key));
  }

  lemma FileLoadKeeps(s: State, r: nat, fails: bool)
    requires Inv(s) && r in s.reqs && ReqEnabled(s.reqs[r], FileLoad(fails))
    ensures Inv(AfterFileLoad(s, r, fails))
  {
    var w, req, t := s.world, s.reqs[r], AfterFileLoad(s, r, fails);
    var read := ReadDocument(w, req.target.id, req.target.user);
    assert ReqOk(w, req);
    ReadOk(w, req);
    if fails {
      AnswerKeeps(s, r, Failed, Direct, None);
    } else if read.OK? {
      assert ReqOk(w, t.reqs[r]);
      GotoKeeps(s, r, t.reqs[r].pc);
    } else {
      AnswerKeeps(s, r, read, Direct, None);
    }
  }

  lemma FileFinishKeeps(s: State, r: nat, store: Store)
    requires Inv(s) && r in s.reqs && ReqEnabled(s.reqs[r], FileFinish(store))
    ensures Inv(AfterFileFinish(s, r, store))
  {
    var w, req := s.world, s.reqs[r];
    var entry := OK(req.pc.again, Content(req.target.id, req.pc.doc), false);
    assert ReqOk(w, req);
    FileOk(w, req, req.pc.key, req.pc.at, req.pc.again, req.pc.doc, false);
    PutKeeps(s, req.pc.key, entry, store);
    AnswerKeeps(Put(s, req.pc.key, entry, store), r, entry, Direct, Some(req.pc.key));
  }

  lemma FileBreakKeeps(s: State, r: nat, store: Store)
    requires Inv(s) && r in s.reqs && ReqEnabled(s.reqs[r], FileBreak(store))
    ensures Inv(AfterFileBreak(s, r, store))
  {
    var w, req := s.world, s.reqs[r];
    var body := Content(req.target.id, req.pc.doc);
    assert ReqOk(w, req);
    FileOk(w, req, req.pc.key, req.pc.at, req.pc.again, req.pc.doc, false);
    PutKeeps(s, req.pc.key, OK(req.pc.again, body, true), store);
    assert ReadAllowed(w, req, req.pc.again, req.pc.doc);
    AnswerKeeps(Put(s, req.pc.key, OK(req.pc.again, body, true), store), r, Cut(req.pc.again, body), Direct,
      Some(req.pc.key));
  }

  lemma DeliverKeeps(s: State, key: Key)
    requires Inv(s) && key in s.flights && s.flights[key].pc.Done?
    ensures Inv(AfterDeliver(s, key))
  {
    var t := AfterDeliver(s, key);
    assert t.world == s.world && t.cache == s.cache && t.flights == s.flights - {key} && t.reqs.Keys == s.reqs.Keys;
    forall r | r in t.reqs ensures ReqOk(s.world, t.reqs[r])
        && (t.reqs[r].pc.Waiting? ==> t.reqs[r].pc.key in t.flights) {
      DeliverOk(s, key, r);
    }
  }

  lemma DeliverOk(s: State, key: Key, r: nat)
    requires Inv(s) && key in s.flights && s.flights[key].pc.Done? && r in s.reqs
    ensures ReqOk(s.world, AfterDeliver(s, key).reqs[r])
  {
    var w, req, f, t := s.world, s.reqs[r], s.flights[key], AfterDeliver(s, key);
    assert ReqOk(w, req);
    if req.pc.Waiting? && req.pc.key == key {
      WaiterOk(w, req, key, req.pc.at, f);
      AnswerAnyPc(w, req, t.reqs[r].pc, f.pc.result, FlightOf(f.acceptOmitted));
    }
  }

  lemma OfFlightKeeps(s: State, key: Key, step: FlightStep)
    requires Inv(s) && key in s.flights && FlightEnabled(s.flights[key], step)
    ensures Inv(AfterFlightStep(s, key, step))
  {
    var w, f := s.world, s.flights[key];
    assert FlightOk(w, key, f);
    match step {
      case Recheck(cancelled) =>
        PcKeeps(s, key, if !cancelled && Serves(s, key, f.acceptOmitted) then Done(s.cache[key], true) else Loading);
      case Load(fails) =>
        LoadOk(w, key, f);
        PcKeeps(s, key, Loaded(if fails then Failed else LoadTarget(w, f.target)));
      case Keep(store) =>
        var u := if f.pc.result.OK? then Put(s, key, f.pc.result, store) else s;
        if f.pc.result.OK? { PutKeeps(s, key, f.pc.result, store); }
        PcKeeps(u, key, Done(f.pc.result, false));
      case Deliver => DeliverKeeps(s, key);
    }
  }

  lemma NextKeeps(s: State, step: Step)
    requires Inv(s) && Enabled(s, step)
    ensures Inv(Next(s, step))
  {
    match step
    case Begin(_, _, _) =>
    case OfReq(r, step) => OfReqKeeps(s, r, step);
    case OfFlight(key, move) => OfFlightKeeps(s, key, move);
    case OfWorld(event) => OfWorldKeeps(s, event);
    case Drop(_) =>
  }

  /** Every state of every run keeps the invariant. */
  lemma {:induction false} RunKeeps(s: State, steps: seq<Step>)
    requires Inv(s) && Run(s, steps).Some?
    ensures Inv(Run(s, steps).value)
  {
    if steps != [] {
      RunKeeps(s, steps[..|steps| - 1]);
      NextKeeps(Run(s, steps[..|steps| - 1]).value, steps[|steps| - 1]);
    }
  }
}
