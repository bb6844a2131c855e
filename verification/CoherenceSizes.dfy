/** The sizes that decide what the cache keeps of a list: internal/cache/cache.go:69-85
    on the entries that internal/httptransport/response.go:46-57 writes. */
module CoherenceSizes {
  import opened Common
  import opened Coherence
  import opened CoherenceTheorems
  import Keys = CacheKeys
  import Cache = CacheModel

  /** The cache's byte budget; the bytes of a key with the entry's tag and headers, but
      for the digits of its Content-Length; and the bytes of the encoded list. */
  datatype Sizes = Sizes(maxBytes: int, metadata: Key -> nat, page: (Query, Db) -> nat)

  /** An encoded list is never shorter than `{"data":{"docs":[]}}` with its newline, and
      its length is a 64-bit integer. */
  ghost predicate Plausible(z: Sizes) { forall q, db :: 21 <= z.page(q, db) < 0x8000_0000_0000_0000 }

  function EntryMetadata(z: Sizes, key: Key, db: Db): nat
    requires key.ListKey?
  {
    z.metadata(key) + |Keys.Digits(z.page(key.query, db))|
  }

  /** Not even without its body does the list of this state fit. */
  predicate Refuses(z: Sizes, key: Key, db: Db)
    requires key.ListKey?
  {
    EntryMetadata(z, key, db) > z.maxBytes
  }

  function StoreOf(z: Sizes, key: Key, db: Db): Store
    requires key.ListKey?
  {
    if EntryMetadata(z, key, db) + z.page(key.query, db) <= z.maxBytes then Whole
    else if !Refuses(z, key, db) then WithoutBody
    else Refused
  }

  /** The size of a list's entry decides what `Set` keeps of it in just this way. */
  lemma ListStoreIsKept(l: Cache.Limits, key: string, contentType: string, tag: string, body: seq<byte>, now: int)
    requires body != []
    ensures var header := map["Content-Type" := [contentType], "Content-Length" := [Keys.Digits(|body|)]];
      var entry := Cache.Entry(200, header, body, false, now, [tag]);
      var metadata := |key| + |"Content-Type"| + |contentType| + |"Content-Length"| + |tag| + |Keys.Digits(|body|)|;
      Cache.Kept(l, key, entry, now) ==
        if metadata + |body| <= l.maxBytes then Some(entry)
        else if metadata <= l.maxBytes then Some(entry.(body := [], bodyOmitted := true))
        else None
  {
    var header := map["Content-Type" := [contentType], "Content-Length" := [Keys.Digits(|body|)]];
    Cache.HeaderBytesAnyOrder(header, "Content-Type");
    var rest := header - {"Content-Type"};
    assert rest == map["Content-Length" := [Keys.Digits(|body|)]];
    Cache.HeaderBytesAnyOrder(rest, "Content-Length");
    assert rest - {"Content-Length"} == map[];
    OneText(contentType);
    OneText(tag);
    OneText(Keys.Digits(|body|));
  }

  /** So `StoreOf` is what the cache does to a list of those sizes. */
  lemma StoreOfIsKept(z: Sizes, l: Cache.Limits, key: Key, db: Db, name: string, contentType: string, tag: string,
                      body: seq<byte>, now: int)
    requires key.ListKey? && z.maxBytes == l.maxBytes && z.page(key.query, db) == |body| > 0
    requires z.metadata(key) == |name| + |"Content-Type"| + |contentType| + |"Content-Length"| + |tag|
    ensures var header := map["Content-Type" := [contentType], "Content-Length" := [Keys.Digits(|body|)]];
      var kept := Cache.Kept(l, name, Cache.Entry(200, header, body, false, now, [tag]), now);
      StoreOf(z, key, db) == if kept.None? then Refused else if kept.value.bodyOmitted then WithoutBody else Whole
  {
    ListStoreIsKept(l, name, contentType, tag, body, now);
  }

  lemma OneText(text: string)
    ensures Cache.TextBytes([text]) == |text|
  {
    assert [text][..0] == [];
  }

  // ------------------------------------------------------------ runs by size

  /** Lists are kept as their sizes have it. */
  ghost predicate Real(z: Sizes, s: State, step: Step) {
    step.OfFlight? && step.key.ListKey? && step.move.Keep? && step.key in s.flights
      && s.flights[step.key].pc.Loaded? ==>
      var result := s.flights[step.key].pc.result;
      result.OK? && result.snap < |s.world.db| ==> step.move.store == StoreOf(z, step.key, s.world.db[result.snap])
  }

  ghost predicate RealRun(z: Sizes, s: State, steps: seq<Step>) {
    && Run(s, steps).Some?
    && (steps != [] ==>
          RealRun(z, s, steps[..|steps| - 1]) && Real(z, Run(s, steps[..|steps| - 1]).value, steps[|steps| - 1]))
  }

  ghost predicate Initial(s: State) { exists db, epoch :: s == Init(db, epoch) }

  predicate AnsweredUnder(s: State, r: nat, key: Key) {
    r in s.reqs && s.reqs[r].pc.Answered? && s.reqs[r].pc.under == Some(key) && s.reqs[r].pc.result.OK?
  }

  // --------------------------------------------------------- commits and sizes

  predicate MayCommit(db: Db, change: Change) {
    match change
    case Upload(id, _) => id !in db
    case Delete(id, user) => id in db && db[id].owner == user
  }

  predicate CrossesBy(z: Sizes, key: Key, db: Db, change: Change)
    requires key.ListKey?
  {
    MayCommit(db, change) && !Refuses(z, key, db) && Refuses(z, key, Changed(db, change))
  }

  /** Some commit turns a list that the cache accepts, at least without its body, into
      one that it refuses. */
  ghost predicate Crosses(z: Sizes, key: Key)
    requires key.ListKey?
  {
    exists db, change :: CrossesBy(z, key, db, change)
  }

  ghost predicate Linked(db: seq<Db>, i: nat) {
    i + 1 < |db| ==> exists change :: MayCommit(db[i], change) && db[i + 1] == Changed(db[i], change)
  }

  /** Each state comes from the one before by one commit. */
  ghost predicate Chained(db: seq<Db>) { forall i: nat :: Linked(db, i) }

  lemma CommitChained(w: World, event: WorldStep)
    requires WorldEnabled(w, event) && Chained(w.db)
    ensures Chained(AfterWorldStep(w, event).db)
  {
    if event.Commit? {
      var n, more := |w.db|, w.db + [Changed(w.db[Now(w)], event.change)];
      assert w.db[n - 1] in w.db;
      forall i: nat ensures Linked(more, i) {
        assert Linked(w.db, i);
        if i + 1 == n { assert MayCommit(more[i], event.change) && more[i + 1] == Changed(more[i], event.change); }
        else if i + 1 < n { assert more[i] == w.db[i] && more[i + 1] == w.db[i + 1]; }
      }
    }
  }

  lemma NextChained(s: State, step: Step)
    requires Enabled(s, step) && Chained(s.world.db)
    ensures Chained(Next(s, step).world.db)
  {
    match step
    case OfReq(r, step) => ReqQuiet(s, r, step);
    case OfFlight(key, move) => FlightQuiet(s, key, move);
    case OfWorld(event) => CommitChained(s.world, event);
    case _ =>
  }

  lemma {:induction false} RunChained(s: State, steps: seq<Step>)
    requires Run(s, steps).Some? && Chained(s.world.db)
    ensures Chained(Run(s, steps).value.world.db)
  {
    if steps != [] {
      RunChained(s, steps[..|steps| - 1]);
      NextChained(Run(s, steps[..|steps| - 1]).value, steps[|steps| - 1]);
    }
  }
}
