/** How a file document is answered: internal/httptransport/read_handler.go, over the
    response cache and a blob that is streamed in chunks of any size. */
module FileReads {
  import opened Common
  import opened CacheModel
  import opened Memory
  import Keys = CacheKeys

  type Data = seq<byte>

  function Joined(chunks: seq<Data>): Data {
    if chunks == [] then [] else Joined(chunks[..|chunks| - 1]) + chunks[|chunks| - 1]
  }

  // ----------------------------------------------------------------- capture

  /** Keeps at most `limit` bytes of all it is given. */
  class BoundedCapture {
    var buffer: Data
    var remaining: int
    var overflow: bool
    ghost const limit: nat
    ghost var given: Data

    ghost predicate Valid()
      reads this
    {
      && buffer == given[..if |given| <= limit then |given| else limit]
      && (overflow <==> |given| > limit)
      && remaining == limit - |buffer|
    }

    constructor (limit: nat)
      ensures Valid() && given == [] && this.limit == limit
    {
      buffer, remaining, overflow := [], limit, false;
      this.limit, given := limit, [];
    }

    method Write(data: Data) returns (n: int)
      requires Valid()
      modifies this
      ensures Valid() && given == old(given) + data && n == |data|
    {
      given := given + data;
      if |data| > remaining {
        if remaining > 0 { buffer := buffer + data[..remaining]; }
        remaining := 0;
        overflow := true;
        return |data|;
      }
      remaining := remaining - |data|;
      buffer := buffer + data;
      return |data|;
    }
  }

  function Prefix(data: Data, n: nat): Data { if n <= |data| then data[..n] else data }

  /** The chunks that get through, and what gets through of the next. */
  function Through(chunks: seq<Data>, good: nat, part: nat): Data {
    if good < |chunks| then Joined(chunks[..good]) + Prefix(chunks[good], part) else Joined(chunks)
  }

  /** The copy loop to the client and, if there is one, to the capture. It stops with an
      error when a read or a write fails: after `good` chunks, of the next of which the
      client may still get a part; the capture gets whole chunks only. */
  method CopyChunks(chunks: seq<Data>, good: nat, part: nat, capture: BoundedCapture?)
      returns (sent: Data, failed: bool)
    requires capture != null ==> capture.Valid() && capture.given == []
    modifies if capture == null then {} else {capture}
    ensures failed <==> good < |chunks|
    ensures sent == Through(chunks, good, part)
    ensures capture != null ==>
      capture.Valid() && capture.given == Joined(chunks[..if good < |chunks| then good else |chunks|])
  {
    sent := [];
    for i := 0 to |chunks|
      invariant i <= good && sent == Joined(chunks[..i])
      invariant capture != null ==> capture.Valid() && capture.given == sent
    {
      if i == good { return sent + Prefix(chunks[i], part), true; }
      assert chunks[..i + 1][..i] == chunks[..i];
      sent := sent + chunks[i];
      if capture != null { var _ := capture.Write(chunks[i]); }
    }
    assert chunks[..|chunks|] == chunks;
    failed := false;
  }

  // ----------------------------------------------------------------- answers

  /** The stored or opened document; `disposition` is the formatted file name. */
  datatype Metadata = Metadata(mime: string, size: nat, disposition: string)

  function FileHeaders(m: Metadata): map<string, seq<string>> {
    map["Content-Type" := [m.mime],
        "X-Content-Type-Options" := ["nosniff"],
        "Content-Security-Policy" := ["sandbox; default-src 'none'"],
        "Content-Length" := [Keys.Digits(m.size)],
        "Content-Disposition" := [m.disposition]]
  }

  function MetadataEntry(m: Metadata, tag: string): Entry { Entry(200, FileHeaders(m), [], true, 0, [tag]) }

  method Line(text: string) returns (a: array<string>)
    ensures fresh(a) && a[..] == [text]
  {
    a := new string[1] [text];
  }

  method FileMetadataEntry(m: Metadata, tag: string) returns (e: EntryRef)
    ensures fresh(e.body) && fresh(Texts(e)) && Says(e, MetadataEntry(m, tag))
  {
    var tags := Line(tag);
    var body := new byte[0];
    var mime := Line(m.mime);
    var sniff := Line("nosniff");
    var policy := Line("sandbox; default-src 'none'");
    var length := Line(Keys.Digits(m.size));
    var disposition := Line(m.disposition);
    var header := map["Content-Type" := mime, "X-Content-Type-Options" := sniff, "Content-Security-Policy" := policy,
                      "Content-Length" := length, "Content-Disposition" := disposition];
    e := EntryRef(200, header, body, true, 0, tags);
    assert header.Keys == FileHeaders(m).Keys;
  }

  /** What the document service opened: the metadata with the blob's own size, and the
      chunks that reading the blob yields; `good` of them get through to the client, and
      `part` bytes of the next. */
  datatype Opened = Opened(m: Metadata, chunks: seq<Data>, good: nat, part: nat)

  datatype Response = Response(status: int, header: map<string, seq<string>>, body: Data)

  function Sent(o: Opened): Data { Through(o.chunks, o.good, o.part) }

  /** A status of 0 is written as 200. */
  ghost function Written(e: Entry): Response { Response(if e.status == 0 then 200 else e.status, e.header, e.body) }

  /** What a GET that had to open the blob puts into the cache: the metadata where the
      body would not fit, else the entry with its body, but only if the whole stream got
      through and was as long as declared. */
  ghost function ToKeep(l: Limits, key: string, tag: string, o: Opened): Option<Entry> {
    var entry := MetadataEntry(o.m, tag);
    if !BodyFits(l, key, entry, o.m.size) then Some(entry)
    else if o.good < |o.chunks| || |Joined(o.chunks)| != o.m.size then None
    else Some(entry.(body := Joined(o.chunks), bodyOmitted := false))
  }

  datatype Request = Request(head: bool, cancelled: bool, key: string, tag: string, m: Metadata,
      content: Option<Opened>, error: Response, ttl: int)

  /** The entry that answers at once: any for HEAD, one with a body for GET. */
  ghost function Hit(s: seq<Item>, r: Request, now: int): Option<Entry> {
    var found := Answer(s, r.cancelled, r.key, now);
    if found.Some? && (r.head || !found.value.bodyOmitted) then found else None
  }

  ghost function ReplyMissed(r: Request): Response {
    if r.head then Response(200, FileHeaders(r.m), [])
    else if r.content.None? then r.error
    else Response(200, FileHeaders(r.content.value.m), Sent(r.content.value))
  }

  ghost function Reply(s: seq<Item>, r: Request, now: int): Response {
    var hit := Hit(s, r, now);
    if hit.Some? then Written(hit.value) else ReplyMissed(r)
  }

  ghost function KeepingMissed(l: Limits, r: Request): Option<Entry> {
    if r.head then Some(MetadataEntry(r.m, r.tag)) else if r.content.None? then None
        else ToKeep(l, r.key, r.tag, r.content.value)
  }

  ghost function Keeping(l: Limits, s: seq<Item>, r: Request, now: int): Option<Entry> {
    if Hit(s, r, now).Some? then None else KeepingMissed(l, r)
  }

  /** The cache afterwards; `Set` runs outside the request's cancellation. */
  ghost function AfterRead(l: Limits, s: seq<Item>, r: Request, now: int, later: int): seq<Item> {
    var seen := AfterGet(s, r.cancelled, r.key, now);
    var keep := Keeping(l, s, r, now);
    if keep.None? then seen else AfterSet(l, seen, false, r.key, keep.value, r.ttl, later)
  }

  method HeaderOf(e: EntryRef, ghost v: Entry) returns (header: map<string, seq<string>>)
    requires Says(e, v)
    ensures header == v.header
  {
    header := map name | name in e.header :: e.header[name][..];
  }

  lemma Found(l: Limits, s: seq<Item>, r: Request, now: int, later: int)
    requires Hit(s, r, now).Some?
    ensures Reply(s, r, now) == Written(Hit(s, r, now).value)
    ensures AfterRead(l, s, r, now, later) == AfterGet(s, r.cancelled, r.key, now)
  {
  }

  lemma Missed(l: Limits, s: seq<Item>, r: Request, now: int, later: int)
    requires Hit(s, r, now).None?
    ensures Reply(s, r, now) == ReplyMissed(r)
    ensures var seen, keep := AfterGet(s, r.cancelled, r.key, now), KeepingMissed(l, r);
      AfterRead(l, s, r, now, later)
      == if keep.None? then seen else AfterSet(l, seen, false, r.key, keep.value, r.ttl, later)
  {
  }

  method ReadFile(cache: Memory, r: Request, now: int, later: int) returns (reply: Response)
    requires cache.Valid()
    modifies cache`items, cache`bytes, cache`own, cache.lru, cache.lru.nodes
    ensures cache.Valid()
    ensures reply == Reply(old(cache.Contents()), r, now)
    ensures cache.Contents() == AfterRead(cache.Bounds(), old(cache.Contents()), r, now, later)
  {
    ghost var s := cache.Contents();
    var found := cache.Get(r.cancelled, r.key, now);
    if found.Some? && (r.head || !found.value.bodyOmitted) {
      Found(cache.Bounds(), s, r, now, later);
      reply := WriteCached(found.value, Hit(s, r, now).value);
      return;
    }
    Missed(cache.Bounds(), s, r, now, later);
    reply := ReadMissed(cache, r, later);
  }

  method WriteCached(e: EntryRef, ghost said: Entry) returns (reply: Response)
    requires Says(e, said)
    ensures reply == Written(said)
  {
    var header := HeaderOf(e, said);
    reply := Response(if e.status == 0 then 200 else e.status, header, e.body[..]);
  }

  /** Where the cache has nothing of use. */
  method ReadMissed(cache: Memory, r: Request, later: int) returns (reply: Response)
    requires cache.Valid()
    modifies cache`items, cache`bytes, cache`own, cache.lru, cache.lru.nodes
    ensures cache.Valid()
    ensures reply == ReplyMissed(r)
    ensures var keep := KeepingMissed(cache.Bounds(), r);
      cache.Contents() == if keep.None? then old(cache.Contents())
                          else AfterSet(cache.Bounds(), old(cache.Contents()), false, r.key, keep.value, r.ttl, later)
  {
    if r.head {
      KeepMetadata(cache, r, r.m, later);
      return Response(200, FileHeaders(r.m), []);
    }
    if r.content.None? { return r.error; }
    reply := Stream(cache, r, r.content.value, later);
  }

  method KeepMetadata(cache: Memory, r: Request, m: Metadata, later: int)
    requires cache.Valid()
    modifies cache`items, cache`bytes, cache`own, cache.lru, cache.lru.nodes
    ensures cache.Valid()
    ensures cache.Contents() == AfterSet(cache.Bounds(), old(cache.Contents()), false, r.key, MetadataEntry(m, r.tag),
      r.ttl, later)
  {
    var entry := FileMetadataEntry(m, r.tag);
    SaysView(entry, MetadataEntry(m, r.tag));
    cache.Set(false, r.key, entry, r.ttl, later);
  }

  method ArrayOf(data: Data) returns (a: array<byte>)
    ensures fresh(a) && a[..] == data
  {
    a := new byte[|data|](i requires 0 <= i < |data| => data[i]);
    assert a[..] == data;
  }

  method KeepBody(cache: Memory, r: Request, m: Metadata, capture: BoundedCapture, later: int)
    requires cache.Valid()
    modifies cache`items, cache`bytes, cache`own, cache.lru, cache.lru.nodes
    ensures cache.Valid()
    ensures cache.Contents() == AfterSet(cache.Bounds(), old(cache.Contents()), false, r.key,
                                         MetadataEntry(m, r.tag).(body := old(capture.buffer), bodyOmitted := false),
                                           r.ttl, later)
  {
    var entry := FileMetadataEntry(m, r.tag);
    var body := ArrayOf(capture.buffer);
    var whole := entry.(body := body, bodyOmitted := false);
    SaysView(whole, MetadataEntry(m, r.tag).(body := body[..], bodyOmitted := false));
    cache.Set(false, r.key, whole, r.ttl, later);
  }

  method BodyMayBeKept(cache: Memory, r: Request, m: Metadata) returns (fits: bool)
    ensures fits <==> BodyFits(cache.Bounds(), r.key, MetadataEntry(m, r.tag), m.size)
  {
    var entry := FileMetadataEntry(m, r.tag);
    SaysView(entry, MetadataEntry(m, r.tag));
    fits := cache.EntryFits(r.key, entry, m.size);
  }

  method Stream(cache: Memory, r: Request, o: Opened, later: int) returns (reply: Response)
    requires cache.Valid()
    modifies cache`items, cache`bytes, cache`own, cache.lru, cache.lru.nodes
    ensures cache.Valid() && reply == Response(200, FileHeaders(o.m), Sent(o))
    ensures var keep := ToKeep(cache.Bounds(), r.key, r.tag, o);
      cache.Contents() == if keep.None? then old(cache.Contents())
                          else AfterSet(cache.Bounds(), old(cache.Contents()), false, r.key, keep.value, r.ttl, later)
  {
    var cacheBody := BodyMayBeKept(cache, r, o.m);
    var sent;
    if cacheBody {
      sent := StreamAndKeep(cache, r, o, later);
    } else {
      KeepMetadata(cache, r, o.m, later);
      var all, _ := CopyChunks(o.chunks, o.good, o.part, null);
      sent := all;
    }
    reply := Response(200, FileHeaders(o.m), sent);
  }

  method StreamAndKeep(cache: Memory, r: Request, o: Opened, later: int) returns (sent: Data)
    requires cache.Valid() && BodyFits(cache.Bounds(), r.key, MetadataEntry(o.m, r.tag), o.m.size)
    modifies cache`items, cache`bytes, cache`own, cache.lru, cache.lru.nodes
    ensures cache.Valid() && sent == Sent(o)
    ensures var keep := ToKeep(cache.Bounds(), r.key, r.tag, o);
      cache.Contents() == if keep.None? then old(cache.Contents())
                          else AfterSet(cache.Bounds(), old(cache.Contents()), false, r.key, keep.value, r.ttl, later)
  {
    var capture, whole;
    sent, capture, whole := StreamIntoCapture(o);
    KeepIfWhole(cache, r, o, capture, whole, later);
  }

  method KeepIfWhole(cache: Memory, r: Request, o: Opened, capture: BoundedCapture, whole: bool, later: int)
    requires cache.Valid() && BodyFits(cache.Bounds(), r.key, MetadataEntry(o.m, r.tag), o.m.size)
    requires (whole <==> o.good >= |o.chunks| && |Joined(o.chunks)| == o.m.size)
    requires (whole ==> capture.buffer == Joined(o.chunks))
    modifies cache`items, cache`bytes, cache`own, cache.lru, cache.lru.nodes
    ensures cache.Valid()
    ensures var keep := ToKeep(cache.Bounds(), r.key, r.tag, o);
      cache.Contents() == if keep.None? then old(cache.Contents())
                          else AfterSet(cache.Bounds(), old(cache.Contents()), false, r.key, keep.value, r.ttl, later)
  {
    if whole { KeepBody(cache, r, o.m, capture, later); }
  }

  method StreamIntoCapture(o: Opened) returns (sent: Data, capture: BoundedCapture, whole: bool)
    ensures fresh(capture) && sent == Sent(o)
    ensures whole <==> o.good >= |o.chunks| && |Joined(o.chunks)| == o.m.size
    ensures whole ==> capture.buffer == Joined(o.chunks)
  {
    capture := new BoundedCapture(o.m.size);
    var failed;
    sent, failed := CopyChunks(o.chunks, o.good, o.part, capture);
    assert o.chunks[..|o.chunks|] == o.chunks;
    whole := !(failed || capture.overflow || |capture.buffer| != o.m.size);
  }

  // -------------------------------------------------------------- properties

  /** The entry describes the document `m` whose blob is `blob`. */
  ghost predicate Genuine(e: Entry, m: Metadata, blob: Data) {
    e.status == 200 && e.header == FileHeaders(m) && (if e.bodyOmitted then e.body == [] else e.body == blob)
  }

  ghost predicate GenuineUnder(s: seq<Item>, key: string, m: Metadata, blob: Data) {
    forall x :: x in s && x.key == key ==> Genuine(x.entry, m, blob)
  }

  /** The request is about the document `m`, and what it opens is that document's blob. */
  ghost predicate About(r: Request, m: Metadata, blob: Data) {
    r.m == m && m.size == |blob| && (r.content.Some? ==>
      r.content.value.m == m && Joined(r.content.value.chunks) == blob)
  }

  lemma EvictMembers(l: Limits, s: seq<Item>)
    ensures forall x :: x in Evict(l, s) ==> x in s
  {
    if s != [] && !Fits(l, s) { EvictMembers(l, s[..|s| - 1]); }
  }

  lemma WithoutSubset(s: seq<Item>, key: string)
    ensures forall x :: x in Without(s, key) ==> x in s
  {
  }

  /** A body that is kept is the whole declared blob, and `Set` does keep it. */
  lemma KeptBodyIsWholeBlob(l: Limits, key: string, tag: string, o: Opened, now: int)
    requires var keep := ToKeep(l, key, tag, o); keep.Some? && !keep.value.bodyOmitted
    ensures var e := ToKeep(l, key, tag, o).value;
      && e.body == Joined(o.chunks) == Sent(o) && |e.body| == o.m.size
      && Kept(l, key, e, now) == Some(e.(storedAt := now))
  {
    var e := ToKeep(l, key, tag, o).value;
    assert o.chunks[..|o.chunks|] == o.chunks;
    assert EntrySize(key, MetadataEntry(o.m, tag).(body := [])) == EntrySize(key, e) - |e.body|;
  }

  lemma KeepingGenuine(l: Limits, s: seq<Item>, r: Request, now: int, later: int, m: Metadata, blob: Data)
    requires About(r, m, blob) && Keeping(l, s, r, now).Some?
    ensures var kept := Kept(l, r.key, Keeping(l, s, r, now).value, later); kept.Some? ==> Genuine(kept.value, m, blob)
  {
  }

  /** Reads keep the cache truthful about the document. */
  lemma ReadKeepsGenuine(l: Limits, s: seq<Item>, r: Request, now: int, later: int, m: Metadata, blob: Data)
    requires GenuineUnder(s, r.key, m, blob) && About(r, m, blob)
    ensures GenuineUnder(AfterRead(l, s, r, now, later), r.key, m, blob)
  {
    var seen := AfterGet(s, r.cancelled, r.key, now);
    WithoutSubset(s, r.key);
    assert GenuineUnder(seen, r.key, m, blob);
    var keep := Keeping(l, s, r, now);
    if keep.Some? && Accepts(l, false, r.key, keep.value, r.ttl, later) {
      KeepingGenuine(l, s, r, now, later, m, blob);
      var kept := Kept(l, r.key, keep.value, later).value;
      WithoutSubset(seen, r.key);
      EvictMembers(l, [Item(r.key, kept, later + r.ttl, EntrySize(r.key, kept))] + Without(seen, r.key));
    }
  }

  /** What may happen to the cache: a read of the file, or any operation that does not
      set the file's key. */
  datatype Event = Read(r: Request, now: int, later: int) | Other(op: Op)

  ghost predicate Proper(e: Event, key: string, m: Metadata, blob: Data) {
    match e
    case Read(r, _, _) => r.key == key && About(r, m, blob)
    case Other(op) => op.Set? ==> op.key != key
  }

  ghost predicate AllProper(events: seq<Event>, key: string, m: Metadata, blob: Data) {
    forall i :: 0 <= i < |events| ==> Proper(events[i], key, m, blob)
  }

  ghost function AfterEvents(l: Limits, events: seq<Event>): seq<Item> {
    if events == [] then []
    else
      var s := AfterEvents(l, events[..|events| - 1]);
      match events[|events| - 1]
      case Read(r, now, later) => AfterRead(l, s, r, now, later)
      case Other(op) => After(l, s, op)
  }

  lemma OtherKeepsGenuine(l: Limits, s: seq<Item>, op: Op, key: string, m: Metadata, blob: Data)
    requires GenuineUnder(s, key, m, blob) && (op.Set? ==> op.key != key)
    ensures GenuineUnder(After(l, s, op), key, m, blob)
  {
    match op
    case Get(_, k, _) => WithoutSubset(s, k);
    case Set(cancelled, k, entry, ttl, now) =>
      if Accepts(l, cancelled, k, entry, ttl, now) {
        var kept := Kept(l, k, entry, now).value;
        WithoutSubset(s, k);
        EvictMembers(l, [Item(k, kept, now + ttl, EntrySize(k, kept))] + Without(s, k));
      }
    case Delete(_, k) => WithoutSubset(s, k);
    case Invalidate(cancelled, tags) =>
      UntaggedMembers(s, set t | t in tags);
    case Close =>
  }

  lemma {:induction false} EventsKeepGenuine(l: Limits, events: seq<Event>, key: string, m: Metadata, blob: Data)
    requires AllProper(events, key, m, blob)
    ensures GenuineUnder(AfterEvents(l, events), key, m, blob)
  {
    if events != [] {
      var n := |events| - 1;
      EventsKeepGenuine(l, events[..n], key, m, blob);
      var s := AfterEvents(l, events[..n]);
      assert Proper(events[n], key, m, blob);
      match events[n] {
        case Read(r, now, later) => ReadKeepsGenuine(l, s, r, now, later, m, blob);
        case Other(op) => OtherKeepsGenuine(l, s, op, key, m, blob);
      }
    }
  }

  lemma {:induction false} JoinedConcat(a: seq<Data>, b: seq<Data>)
    ensures Joined(a + b) == Joined(a) + Joined(b)
  {
    if b == [] {
      assert a + b == a;
    } else {
      assert (a + b)[..|a + b| - 1] == a + b[..|b| - 1];
      JoinedConcat(a, b[..|b| - 1]);
    }
  }

  /** What a client gets of a stream that breaks is a prefix of it: the whole chunks that
      got through, and of the next one at most the part that did. */
  lemma SentIsPrefix(o: Opened)
    ensures Sent(o) <= Joined(o.chunks)
    ensures o.good < |o.chunks| ==>
      |Sent(o)| == |Joined(o.chunks[..o.good])| + if o.part < |o.chunks[o.good]| then o.part else |o.chunks[o.good]|
    ensures o.good >= |o.chunks| ==> Sent(o) == Joined(o.chunks)
  {
    if o.good < |o.chunks| {
      var n := o.good;
      assert o.chunks == o.chunks[..n] + o.chunks[n..] && o.chunks[n..] == [o.chunks[n]] + o.chunks[n + 1..];
      JoinedConcat(o.chunks[..n], o.chunks[n..]);
      JoinedConcat([o.chunks[n]], o.chunks[n + 1..]);
      assert [o.chunks[n]][..0] == [] && Joined([o.chunks[n]]) == o.chunks[n];
    }
  }

  /** HEAD and GET of a file answer with the same status and headers, at any two moments
      of any two runs, whether either is a hit or a miss; and a GET whose stream gets
      through carries the whole blob. */
  lemma HeadAndGetAgree(l: Limits, key: string, before: seq<Event>, head: Request, now: int, until: seq<Event>,
      get: Request, later: int, m: Metadata, blob: Data)
    requires AllProper(before, key, m, blob) && AllProper(until, key, m, blob)
    requires head.head && head.key == key && About(head, m, blob)
    requires !get.head && get.key == key && About(get, m, blob) && get.content.Some?
    ensures var h, g := Reply(AfterEvents(l, before), head, now), Reply(AfterEvents(l, until), get, later);
      && h.status == g.status == 200 && h.header == g.header == FileHeaders(m)
      && h.header["Content-Type"] == [m.mime] && h.header["Content-Disposition"] == [m.disposition]
      && |h.header["Content-Length"]| == 1 && Keys.Decimal(h.header["Content-Length"][0]) == |blob|
      && h.header["X-Content-Type-Options"] == ["nosniff"]
      && h.header["Content-Security-Policy"] == ["sandbox; default-src 'none'"]
      && g.body <= blob && (get.content.value.good >= |get.content.value.chunks| ==> g.body == blob)
  {
    EventsKeepGenuine(l, before, key, m, blob);
    EventsKeepGenuine(l, until, key, m, blob);
    FoundGenuine(AfterEvents(l, before), head, now, m, blob);
    FoundGenuine(AfterEvents(l, until), get, later, m, blob);
    Keys.DigitsSayIt(m.size);
    SentIsPrefix(get.content.value);
  }

  /** An unexpired entry, with a body if the request is a GET, answers the request, and
      the cache is as its own `Get` left it: nothing is set, and nothing expires later. */
  lemma HitAnswers(l: Limits, s: seq<Item>, r: Request, now: int, later: int, x: Item)
    requires WellFormed(l, s) && x in s && x.key == r.key && !r.cancelled && now < x.expiresAt
    requires r.head || !x.entry.bodyOmitted
    ensures Reply(s, r, now)
         == Response(if x.entry.status == 0 then 200 else x.entry.status, x.entry.header, x.entry.body)
    ensures AfterRead(l, s, r, now, later) == After(l, s, Get(false, r.key, now))
  {
    var i, j := IndexOf(s, r.key), 0;
    j :| 0 <= j < |s| && s[j] == x;
    assert i < |s| && s[i].key == s[j].key;
  }

  /** A GET whose blob could not be opened, where no unexpired entry has a body, answers the
      error. It keeps nothing: the cache is as its own `Get` left it. */
  lemma UnopenedAnswer(l: Limits, s: seq<Item>, r: Request, now: int, later: int)
    requires WellFormed(l, s) && !r.head && r.content.None?
    ensures (forall x :: x in s && x.key == r.key ==> r.cancelled || now >= x.expiresAt || x.entry.bodyOmitted) ==>
      Reply(s, r, now) == r.error
    ensures AfterRead(l, s, r, now, later) == After(l, s, Get(r.cancelled, r.key, now))
  {
    var i := IndexOf(s, r.key);
    if i < |s| { assert s[i] in s; }
  }

  lemma FoundGenuine(s: seq<Item>, r: Request, now: int, m: Metadata, blob: Data)
    requires GenuineUnder(s, r.key, m, blob)
    ensures var found := Answer(s, r.cancelled, r.key, now); found.Some? ==> Genuine(found.value, m, blob)
  {
    var i := IndexOf(s, r.key);
    if i < |s| { assert s[i] in s; }
  }

  /** The stream of a GET gets through and is as long as declared, and the cache has room
      for it. */
  ghost predicate ReadsWhole(l: Limits, r: Request) {
    && !r.head && r.key != "" && r.ttl > 0 && l.maxItems > 0 && r.content.Some?
    && r.content.value.good >= |r.content.value.chunks|
    && |Joined(r.content.value.chunks)| == r.content.value.m.size
    && BodyFits(l, r.key, MetadataEntry(r.content.value.m, r.tag), r.content.value.m.size)
  }

  /** What a GET has read whole it need not open again: until it expires, GET and HEAD
      answer the same blob and headers from the cache. */
  lemma WholeReadIsKept(l: Limits, s: seq<Item>, r: Request, now: int, later: int, again: Request, when: int)
    requires WellFormed(l, s) && Hit(s, r, now).None? && ReadsWhole(l, r) && l.maxBytes > 0
    requires again.key == r.key && !again.cancelled && when < later + r.ttl
    ensures var o, reply := r.content.value, Reply(AfterRead(l, s, r, now, later), again, when);
      reply == Response(200, FileHeaders(o.m), Joined(o.chunks))
  {
    var o := r.content.value;
    var keep := ToKeep(l, r.key, r.tag, o);
    var seen := AfterGet(s, r.cancelled, r.key, now);
    GetFacts(l, s, r.cancelled, r.key, now);
    KeptBodyIsWholeBlob(l, r.key, r.tag, o, later);
    var op := Set(false, r.key, keep.value, r.ttl, later);
    SetFacts(l, seen, op);
    assert AfterRead(l, s, r, now, later) == After(l, seen, op);
    assert IndexOf(After(l, seen, op), r.key) == 0;
  }

  /** And once a HEAD or a GET has kept the metadata, HEAD is answered from the cache. */
  lemma MetadataIsKept(l: Limits, s: seq<Item>, r: Request, now: int, later: int, when: int)
    requires WellFormed(l, s) && Hit(s, r, now).None? && r.key != "" && r.ttl > 0 && l.maxItems > 0 && l.maxBytes > 0
    requires r.head || (r.content.Some? && !BodyFits(l, r.key, MetadataEntry(r.content.value.m, r.tag),
      r.content.value.m.size))
    requires var m := if r.head then r.m else r.content.value.m; EntrySize(r.key, MetadataEntry(m, r.tag)) <= l.maxBytes
    requires when < later + r.ttl
    ensures var m, again := if r.head then r.m else r.content.value.m, AfterRead(l, s, r, now, later);
      Answer(again, false, r.key, when) == Some(Entry(200, FileHeaders(m), [], true, later, [r.tag]))
  {
    var m := if r.head then r.m else r.content.value.m;
    var seen := AfterGet(s, r.cancelled, r.key, now);
    var op := Set(false, r.key, MetadataEntry(m, r.tag), r.ttl, later);
    GetFacts(l, s, r.cancelled, r.key, now);
    assert EntrySize(r.key, MetadataEntry(m, r.tag).(storedAt := later)) == EntrySize(r.key, MetadataEntry(m, r.tag));
    SetFacts(l, seen, op);
    assert AfterRead(l, s, r, now, later) == After(l, seen, op);
    assert IndexOf(After(l, seen, op), r.key) == 0;
  }
}
