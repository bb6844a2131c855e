/** Where the response cache promises less than one might think, and exactly where. */
module CoherenceLimits {
  import opened Common
  import opened Coherence
  import opened CoherenceTheorems
  import opened CoherenceSizes
  import opened CoherenceMonotone
  import Keys = CacheKeys

  // ------------------------------------------------------- building a run

  ghost predicate Goes(z: Sizes, s: State, t: State) {
    exists steps :: RealRun(z, s, steps) && Run(s, steps) == Some(t)
  }

  lemma Stays(z: Sizes, s: State)
    ensures Goes(z, s, s)
  {
    assert RealRun(z, s, []) && Run(s, []) == Some(s);
  }

  lemma Steps(z: Sizes, s: State, t: State, step: Step)
    requires Goes(z, s, t) && Enabled(t, step) && Real(z, t, step)
    ensures Goes(z, s, Next(t, step))
  {
    var steps :| RealRun(z, s, steps) && Run(s, steps) == Some(t);
    var more := steps + [step];
    assert more[..|more| - 1] == steps;
    assert RealRun(z, s, more) && Run(s, more) == Some(Next(t, step));
  }

  predicate CanAsk(s: State) { |s.world.db| > 0 }

  function Asked(s: State, q: Query, head: bool): Req {
    Req(ListOf(q), head, Now(s.world), Reported(s.world), s.delivered, Keyed(ListKey(s.world.epoch, q), Now(s.world)))
  }

  lemma Begins(z: Sizes, from: State, s: State, r: nat, q: Query, head: bool)
    requires Goes(z, from, s) && CanAsk(s) && r !in s.reqs
    ensures Goes(z, from, s.(reqs := s.reqs[r := Asked(s, q, head).(pc := Started)]))
  {
    Steps(z, from, s, Begin(r, ListOf(q), head));
  }

  lemma MakesKey(z: Sizes, from: State, s: State, r: nat)
    requires Goes(z, from, s) && CanAsk(s) && r in s.reqs && s.reqs[r].pc.Started? && s.reqs[r].target.ListOf?
    ensures Goes(z, from, Goto(s, r, Keyed(ListKey(s.world.epoch, s.reqs[r].target.query), Now(s.world))))
  {
    Steps(z, from, s, OfReq(r, MakeKey));
  }

  /** A list request up to its key. */
  lemma Asks(z: Sizes, from: State, s: State, r: nat, q: Query, head: bool)
    requires Goes(z, from, s) && CanAsk(s) && r !in s.reqs
    ensures Goes(z, from, s.(reqs := s.reqs[r := Asked(s, q, head)]))
  {
    Begins(z, from, s, r, q, head);
    var a := s.(reqs := s.reqs[r := Asked(s, q, head).(pc := Started)]);
    MakesKey(z, from, a, r);
    assert a.reqs[r := Asked(s, q, head)] == s.reqs[r := Asked(s, q, head)];
  }

  lemma Misses(z: Sizes, from: State, s: State, r: nat)
    requires Goes(z, from, s) && CanAsk(s) && r in s.reqs && s.reqs[r].pc.Keyed?
    requires !Serves(s, s.reqs[r].pc.key, s.reqs[r].head)
    ensures Goes(z, from, Goto(s, r, Missed(s.reqs[r].pc.key, s.reqs[r].pc.at)))
  {
    Steps(z, from, s, OfReq(r, Lookup(false)));
  }

  lemma Hits(z: Sizes, from: State, s: State, r: nat)
    requires Goes(z, from, s) && CanAsk(s) && r in s.reqs && s.reqs[r].pc.Keyed?
    requires Serves(s, s.reqs[r].pc.key, s.reqs[r].head)
    ensures Goes(z, from, Answer(s, r, s.cache[s.reqs[r].pc.key], CacheHit, Some(s.reqs[r].pc.key)))
  {
    Steps(z, from, s, OfReq(r, Lookup(false)));
  }

  predicate Leading(s: State, key: Key, head: bool, pc: FlightPc) {
    key in s.flights && key.ListKey? && s.flights[key].target == ListOf(key.query)
      && s.flights[key].acceptOmitted == head && s.flights[key].pc == pc
  }

  lemma Joins(z: Sizes, from: State, s: State, r: nat)
    requires Goes(z, from, s) && CanAsk(s) && r in s.reqs && s.reqs[r].pc.Missed?
    ensures Goes(z, from, AfterJoin(s, r))
  {
    Steps(z, from, s, OfReq(r, Join));
  }

  function Listed(s: State, q: Query): Result { OK(Now(s.world), Page(q, Now(s.world)), false) }

  lemma Rechecks(z: Sizes, from: State, s: State, key: Key, head: bool)
    requires Goes(z, from, s) && CanAsk(s) && Leading(s, key, head, Rechecking) && !Serves(s, key, head)
    ensures Goes(z, from, WithPc(s, key, Loading))
  {
    Steps(z, from, s, OfFlight(key, Recheck(false)));
  }

  lemma Loads(z: Sizes, from: State, s: State, key: Key, head: bool)
    requires Goes(z, from, s) && CanAsk(s) && Leading(s, key, head, Loading)
    ensures Goes(z, from, WithPc(s, key, Loaded(Listed(s, key.query))))
  {
    Steps(z, from, s, OfFlight(key, Load(false)));
  }

  function Kept(s: State, key: Key, store: Store): map<Key, Result>
    requires key.ListKey?
  {
    match store
    case Whole => s.cache[key := Listed(s, key.query)]
    case WithoutBody => s.cache[key := OK(Now(s.world), Page(key.query, Now(s.world)), true)]
    case Refused => s.cache
  }

  function KeptAndDone(s: State, key: Key, store: Store): State
    requires key.ListKey? && key in s.flights
  {
    s.(cache := Kept(s, key, store),
      flights := s.flights[key := s.flights[key].(pc := Done(Listed(s, key.query), false))])
  }

  lemma Keeps(z: Sizes, from: State, s: State, key: Key, head: bool)
    requires Goes(z, from, s) && CanAsk(s) && key.ListKey? && Leading(s, key, head, Loaded(Listed(s, key.query)))
    ensures Goes(z, from, KeptAndDone(s, key, StoreOf(z, key, s.world.db[Now(s.world)])))
  {
    var store := StoreOf(z, key, s.world.db[Now(s.world)]);
    Steps(z, from, s, OfFlight(key, Keep(store)));
    if store.Whole? { } else if store.WithoutBody? { } else { }
  }

  lemma Delivers(z: Sizes, from: State, s: State, key: Key)
    requires Goes(z, from, s) && CanAsk(s) && key in s.flights && s.flights[key].pc.Done?
    ensures Goes(z, from, AfterDeliver(s, key))
  {
    Steps(z, from, s, OfFlight(key, Deliver));
  }

  /** What a led load leaves to the other requests and to the rest of the system. */
  predicate Led(s: State, t: State, r: nat, key: Key, store: Store)
    requires key.ListKey?
  {
    && t.world == s.world && t.flights == s.flights && t.reqs.Keys == s.reqs.Keys
    && t.cache == Kept(s, key, store)
    && AnsweredUnder(t, r, key) && t.reqs[r].pc.result == Listed(s, key.query)
    && forall o :: o in s.reqs && o != r && !s.reqs[o].pc.Waiting? ==> t.reqs[o] == s.reqs[o]
  }

  lemma RechecksAndLoads(z: Sizes, from: State, s: State, key: Key, head: bool)
    requires Goes(z, from, s) && CanAsk(s) && key.ListKey? && Leading(s, key, head, Rechecking) && !Serves(s, key, head)
    ensures Goes(z, from, WithPc(s, key, Loaded(Listed(s, key.query))))
  {
    var loading := WithPc(s, key, Loading);
    Rechecks(z, from, s, key, head);
    Loads(z, from, loading, key, head);
    PcTwice(s, key, Loading, Loaded(Listed(s, key.query)));
  }

  lemma PcTwice(s: State, key: Key, pc: FlightPc, next: FlightPc)
    requires key in s.flights
    ensures WithPc(WithPc(s, key, pc), key, next) == WithPc(s, key, next)
  {
    assert WithPc(WithPc(s, key, pc), key, next).flights == WithPc(s, key, next).flights;
  }

  /** A flight from its re-check, which finds nothing of use, until it is done. */
  lemma LoadsAndKeeps(z: Sizes, from: State, s: State, key: Key, head: bool)
    requires Goes(z, from, s) && CanAsk(s) && key.ListKey? && Leading(s, key, head, Rechecking) && !Serves(s, key, head)
    ensures Goes(z, from, KeptAndDone(s, key, StoreOf(z, key, s.world.db[Now(s.world)])))
  {
    var store := StoreOf(z, key, s.world.db[Now(s.world)]);
    var loaded := WithPc(s, key, Loaded(Listed(s, key.query)));
    RechecksAndLoads(z, from, s, key, head);
    Keeps(z, from, loaded, key, head);
    SameKept(s, key, store);
  }

  lemma SameKept(s: State, key: Key, store: Store)
    requires key.ListKey? && key in s.flights
    ensures KeptAndDone(WithPc(s, key, Loaded(Listed(s, key.query))), key, store) == KeptAndDone(s, key, store)
  {
    var loaded := WithPc(s, key, Loaded(Listed(s, key.query)));
    assert KeptAndDone(loaded, key, store).flights == KeptAndDone(s, key, store).flights;
  }

  predicate MayLead(s: State, r: nat, key: Key) {
    && CanAsk(s) && key.ListKey? && key !in s.flights
    && r in s.reqs && s.reqs[r].pc.Missed? && s.reqs[r].pc.key == key && s.reqs[r].target == ListOf(key.query)
    && !Serves(s, key, s.reqs[r].head)
  }

  lemma LedFacts(s: State, r: nat, key: Key, store: Store)
    requires MayLead(s, r, key)
    ensures Led(s, AfterDeliver(KeptAndDone(AfterJoin(s, r), key, store), key), r, key, store)
  {
    var d := KeptAndDone(AfterJoin(s, r), key, store);
    var t := AfterDeliver(d, key);
    assert d.flights - {key} == s.flights;
    assert t.cache == Kept(s, key, store) && t.flights == s.flights && t.world == s.world;
    LedOthers(s, r, d, key);
  }

  /** Delivery reaches those who wait for the key. */
  lemma LedOthers(s: State, r: nat, d: State, key: Key)
    requires MayLead(s, r, key) && d.reqs == s.reqs[r := s.reqs[r].(pc := Waiting(key, s.reqs[r].pc.at))]
    requires key in d.flights && d.flights[key].pc == Done(Listed(s, key.query), false) && d.world == s.world
    ensures var t := AfterDeliver(d, key);
      && t.reqs.Keys == s.reqs.Keys && AnsweredUnder(t, r, key) && t.reqs[r].pc.result == Listed(s, key.query)
      && forall o :: o in s.reqs && o != r && !s.reqs[o].pc.Waiting? ==> t.reqs[o] == s.reqs[o]
  {
  }

  /** A request that missed leads a load of its own, to the end. */
  lemma Leads(z: Sizes, from: State, s: State, r: nat, key: Key) returns (t: State)
    requires Goes(z, from, s) && MayLead(s, r, key)
    ensures Goes(z, from, t) && Led(s, t, r, key, StoreOf(z, key, s.world.db[Now(s.world)]))
  {
    var store := StoreOf(z, key, s.world.db[Now(s.world)]);
    var a := AfterJoin(s, r);
    Joins(z, from, s, r);
    LoadsAndKeeps(z, from, a, key, s.reqs[r].head);
    Delivers(z, from, KeptAndDone(a, key, store), key);
    t := AfterDeliver(KeptAndDone(a, key, store), key);
    LedFacts(s, r, key, store);
  }

  // ------------------------------------------------------ a GET without a body

  predicate AnswersShort(s: State, r: nat) {
    r in s.reqs && s.reqs[r].pc.Answered? && s.reqs[r].pc.result.OK? && s.reqs[r].pc.result.omitted
  }

  predicate Missing(s: State, r: nat, key: Key, head: bool) {
    && r in s.reqs && s.reqs[r].head == head && key.ListKey? && s.reqs[r].target == ListOf(key.query)
    && s.reqs[r].pc.Missed? && s.reqs[r].pc.key == key
  }

  /** A request asks for a list and misses. */
  lemma AsksAndMisses(z: Sizes, from: State, s: State, r: nat, key: Key, head: bool) returns (t: State)
    requires Goes(z, from, s) && CanAsk(s) && r !in s.reqs && key.ListKey? && key.epoch == s.world.epoch
    requires !Serves(s, key, head)
    ensures Goes(z, from, t) && t.(reqs := s.reqs) == s && t.reqs.Keys == s.reqs.Keys + {r} && Missing(t, r, key, head)
    ensures forall o :: o in s.reqs ==> t.reqs[o] == s.reqs[o]
  {
    Asks(z, from, s, r, key.query, head);
    var a := s.(reqs := s.reqs[r := Asked(s, key.query, head)]);
    Misses(z, from, a, r);
    t := Goto(a, r, Missed(key, Now(s.world)));
  }

  /** Wherever a list fits the cache without its body only: two HEAD requests miss; the
      first leads a load; the second leads the next flight, whose re-check finds the short
      entry; a GET request that had missed too joins this flight and gets no body. */
  lemma GetWithoutBody(z: Sizes, db: Db, key: Key)
    requires key.ListKey? && StoreOf(z, key, db).WithoutBody?
    ensures exists s, r ::
      Goes(z, Init(db, key.epoch), s) && AnswersShort(s, r) && !s.reqs[r].head && s.reqs[r].pc.via == FlightOf(true)
  {
    var from := Init(db, key.epoch);
    Stays(z, from);
    var s := AsksAndMisses(z, from, from, 0, key, true);
    s := AsksAndMisses(z, from, s, 1, key, true);
    s := AsksAndMisses(z, from, s, 2, key, false);
    var t := Leads(z, from, s, 0, key);
    assert Missing(t, 1, key, true) && Missing(t, 2, key, false) && Serves(t, key, true);
    GetJoinsShort(z, from, t, key);
  }

  lemma GetJoinsShort(z: Sizes, from: State, s: State, key: Key)
    requires Goes(z, from, s) && CanAsk(s) && key.ListKey? && key !in s.flights && Missing(s, 1, key, true)
    requires Missing(s, 2, key, false)
    requires Serves(s, key, true) && s.cache[key].omitted
    ensures exists t, r ::
      Goes(z, from, t) && AnswersShort(t, r) && !t.reqs[r].head && t.reqs[r].pc.via == FlightOf(true)
  {
    Joins(z, from, s, 1);
    var a := AfterJoin(s, 1);
    Joins(z, from, a, 2);
    var b := AfterJoin(a, 2);
    Steps(z, from, b, OfFlight(key, Recheck(false)));
    var c := WithPc(b, key, Done(s.cache[key], true));
    Delivers(z, from, c, key);
    assert AnswersShort(AfterDeliver(c, key), 2);
  }

  // ------------------------------------------------------- lists that go back

  predicate GoneBack(s: State, first: nat, t: State, second: nat, key: Key) {
    && AnsweredUnder(s, first, key) && second !in s.reqs && AnsweredUnder(t, second, key)
    && t.reqs[second].pc.result.snap < s.reqs[first].pc.result.snap
  }

  /** Whatever happens, a list that begins after another one of this key was answered
      shows no older state. */
  ghost predicate AlwaysAdvances(z: Sizes, key: Key) {
    forall start, s, t, first, second :: Initial(start) && Goes(z, start, s) && Goes(z, s, t) ==>
        !GoneBack(s, first, t, second, key)
  }

  lemma HeadLeavesShort(z: Sizes, key: Key, db: Db) returns (s: State)
    requires key.ListKey? && StoreOf(z, key, db).WithoutBody?
    ensures Goes(z, Init(db, key.epoch), s) && s.world == World([db], key.epoch, map[]) && s.flights == map[]
    ensures s.reqs.Keys == {0}
    ensures s.cache == map[key := OK(0, Page(key.query, 0), true)]
  {
    var from := Init(db, key.epoch);
    Stays(z, from);
    s := AsksAndMisses(z, from, from, 0, key, true);
    s := Leads(z, from, s, 0, key);
  }

  /** A HEAD request leaves the old list without its body; a commit makes the list too
      long; a GET request, which needs the body, loads the new list, and the cache
      refuses it. */
  lemma RefusedOverHeld(z: Sizes, key: Key, db: Db, change: Change) returns (s: State)
    requires key.ListKey? && Plausible(z) && CrossesBy(z, key, db, change)
    ensures Goes(z, Init(db, key.epoch), s) && CanAsk(s) && s.world.epoch == key.epoch && s.reqs.Keys == {0, 1}
    ensures AnsweredUnder(s, 1, key) && s.reqs[1].pc.result.snap == 1
    ensures Serves(s, key, true) && s.cache[key].snap == 0
  {
    var from := Init(db, key.epoch);
    DigitsShort(z, key, db);
    s := HeadLeavesShort(z, key, db);
    Steps(z, from, s, OfWorld(Commit(0, change)));
    s := s.(world := AfterWorldStep(s.world, Commit(0, change)));
    s := AsksAndMisses(z, from, s, 1, key, false);
    s := Leads(z, from, s, 1, key);
  }

  lemma {:induction false} DigitsBound(n: nat, width: nat)
    requires width > 0 && n < Pow10(width)
    ensures |Keys.Digits(n)| <= width
  {
    if n >= 10 { DigitsBound(n / 10, width - 1); }
  }

  function Pow10(n: nat): nat { if n == 0 then 1 else 10 * Pow10(n - 1) }

  /** What the digits of a longer list take is less than the body of any list. */
  lemma DigitsShort(z: Sizes, key: Key, db: Db)
    requires key.ListKey? && Plausible(z) && !Refuses(z, key, db)
    requires exists other :: Refuses(z, key, other)
    ensures StoreOf(z, key, db).WithoutBody?
  {
    var other :| Refuses(z, key, other);
    assert 21 <= z.page(key.query, db) && z.page(key.query, other) < 0x8000_0000_0000_0000;
    assert Pow10(5) == 100000;
    assert Pow10(10) == 100000 * Pow10(5);
    assert Pow10(15) == 100000 * Pow10(10);
    assert Pow10(19) == 10000 * Pow10(15);
    DigitsBound(z.page(key.query, other), 19);
  }

  lemma ListGoesBack(z: Sizes, key: Key, db: Db, change: Change)
    requires key.ListKey? && Plausible(z) && CrossesBy(z, key, db, change)
    ensures !AlwaysAdvances(z, key)
  {
    var from := Init(db, key.epoch);
    var s := RefusedOverHeld(z, key, db, change);
    Stays(z, s);
    Asks(z, s, s, 2, key.query, true);
    var a := s.(reqs := s.reqs[2 := Asked(s, key.query, true)]);
    Hits(z, s, a, 2);
    var t := Answer(a, 2, s.cache[key], CacheHit, Some(key));
    assert GoneBack(s, 1, t, 2, key) && Initial(from);
  }

  /** The lists under a key never go back if and only if no commit takes the list past
      what the cache accepts without a body. */
  lemma ListsOfOneKeyAdvanceIff(z: Sizes, key: Key)
    requires key.ListKey? && Plausible(z)
    ensures AlwaysAdvances(z, key) <==> !Crosses(z, key)
  {
    if Crosses(z, key) {
      var db, change :| CrossesBy(z, key, db, change);
      ListGoesBack(z, key, db, change);
    } else {
      forall start, s, t, first, second | Initial(start) && Goes(z, start, s) && Goes(z, s, t)
          ensures !GoneBack(s, first, t, second, key) {
        var before :| RealRun(z, start, before) && Run(start, before) == Some(s);
        var rest :| RealRun(z, s, rest) && Run(s, rest) == Some(t);
        if GoneBack(s, first, t, second, key) { ListsAdvance(z, key, start, before, s, rest, t, first, second); }
      }
    }
  }

  lemma {:induction false} DigitsMonotone(m: nat, n: nat)
    requires m <= n
    ensures |Keys.Digits(m)| <= |Keys.Digits(n)|
  {
    if m >= 10 { DigitsMonotone(m / 10, n / 10); }
  }

  /** So it is enough that the budget takes the headers of the longest list, or not even
      those of the shortest. */
  lemma NeverCrosses(z: Sizes, key: Key, shortest: nat, longest: nat)
    requires key.ListKey? && forall db :: shortest <= z.page(key.query, db) <= longest
    requires z.metadata(key) + |Keys.Digits(longest)| <= z.maxBytes
      || z.maxBytes < z.metadata(key) + |Keys.Digits(shortest)|
    ensures !Crosses(z, key)
  {
    forall db, change ensures !CrossesBy(z, key, db, change) {
      var before, after := z.page(key.query, db), z.page(key.query, Changed(db, change));
      DigitsMonotone(shortest, before);
      DigitsMonotone(after, longest);
    }
  }

  /** A budget that takes a Content-Length of two digits and not of three, and a list
      that grows from the 21 bytes of an empty one to 160. */
  function TightSizes(): Sizes { Sizes(152, _ => 150, (_, db) => if db == map[] then 21 else 160) }

  lemma TightDigits()
    ensures |Keys.Digits(21)| == 2 && |Keys.Digits(160)| == 3
  {
    assert |Keys.Digits(2)| == 1 && |Keys.Digits(1)| == 1 && |Keys.Digits(16)| == |Keys.Digits(1)| + 1;
  }

  lemma ListsGoBackExample(key: Key)
    requires key.ListKey?
    ensures Plausible(TightSizes()) && !AlwaysAdvances(TightSizes(), key)
  {
    var change := Upload("id", Doc("user", false, {}, 1, false, ""));
    TightDigits();
    assert "id" in Changed(map[], change);
    assert CrossesBy(TightSizes(), key, map[], change);
    ListGoesBack(TightSizes(), key, map[], change);
  }

  // --------------------------------------------------- who loses the body

  /** What the flight has come to since its re-check, `short` when it found an entry without a body. */
  predicate InFlight(s: State, key: Key, short: bool) {
    && key in s.flights && !s.flights[key].pc.Rechecking?
    && (short ==> s.flights[key].pc.Done?)
    && (s.flights[key].pc.Loaded? || s.flights[key].pc.Done? ==>
          (s.flights[key].pc.result.OK? && s.flights[key].pc.result.omitted <==> short))
  }

  lemma FlightGoesOn(s: State, key: Key, step: Step, short: bool)
    requires Enabled(s, step) && InFlight(s, key, short) && step != OfFlight(key, Deliver)
    ensures InFlight(Next(s, step), key, short)
  {
    match step
    case OfReq(r, step) => ReqQuiet(s, r, step);
    case OfFlight(k, move) => if k == key { OwnMove(s, key, move, short); } else { OtherMove(s, key, k, move); }
    case _ =>
  }

  lemma OwnMove(s: State, key: Key, move: FlightStep, short: bool)
    requires |s.world.db| > 0 && InFlight(s, key, short) && FlightEnabled(s.flights[key], move) && !move.Deliver?
    ensures InFlight(AfterFlightStep(s, key, move), key, short)
  {
    match move
    case Recheck(_) =>
    case Load(_) =>
    case Keep(_) =>
  }

  lemma OtherMove(s: State, key: Key, k: Key, move: FlightStep)
    requires |s.world.db| > 0 && key in s.flights && k in s.flights && k != key && FlightEnabled(s.flights[k], move)
    ensures var t := AfterFlightStep(s, k, move); key in t.flights && t.flights[key] == s.flights[key]
  {
    match move
    case Recheck(_) =>
    case Load(_) =>
    case Keep(_) =>
    case Deliver =>
  }

  lemma {:induction false} FlightGoesThrough(s: State, key: Key, steps: seq<Step>, short: bool)
    requires Run(s, steps).Some? && InFlight(s, key, short) && OfFlight(key, Deliver) !in steps
    ensures InFlight(Run(s, steps).value, key, short)
  {
    if steps != [] {
      var most := steps[..|steps| - 1];
      assert forall step :: step in most ==> step in steps;
      FlightGoesThrough(s, key, most, short);
      FlightGoesOn(Run(s, most).value, key, steps[|steps| - 1], short);
    }
  }

  /** From the re-check of a flight to its delivery, whatever happens meanwhile and
      whoever joins: the GET requests that the delivery answers lose their body if and
      only if, at the re-check, the leader took entries without a body and found one. */
  lemma JoinedGetsLoseBodyIff(s: State, key: Key, cancelled: bool, steps: seq<Step>, t: State, r: nat)
    requires Inv(s) && key in s.flights && s.flights[key].pc.Rechecking?
    requires OfFlight(key, Deliver) !in steps && Run(AfterFlightStep(s, key, Recheck(cancelled)), steps) == Some(t)
    requires key in t.flights && t.flights[key].pc.Done? && r in t.reqs && t.reqs[r].pc.Waiting?
    requires t.reqs[r].pc.key == key && !t.reqs[r].head
    ensures AnswersShort(AfterDeliver(t, key), r)
      <==> !cancelled && s.flights[key].acceptOmitted && key in s.cache && s.cache[key].omitted
  {
    if key in s.cache { assert GoodResult(s.world, key, s.cache[key]); }
    var short := !cancelled && s.flights[key].acceptOmitted && key in s.cache && s.cache[key].omitted;
    FlightGoesThrough(AfterFlightStep(s, key, Recheck(cancelled)), key, steps, short);
  }
}
