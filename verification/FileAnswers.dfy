/** File answers over the blob protocol: what a read opens is what the store holds at that
    moment (internal/document/read.go:12-33), so the length that HEAD takes from the
    metadata and the one that GET takes from the opened blob are the same. */
module FileAnswers {
  import opened Common
  import opened CacheModel
  import opened FileReads
  import Blobs = Outbox
  import Protocol = OutboxTheorems
  import Schedule = CleanupSchedule

  /** The store, on some state after `s`, yielded this blob and size. */
  ghost predicate OpenedFrom(c: Blobs.Config, s: Blobs.State, key: string, o: Opened, m: Metadata) {
    Schedule.Valid(c.schedule)
    && exists rest, t :: && Blobs.Run(c, s, rest) == Some(t) && key in t.blobs
                         && Joined(o.chunks) == t.blobs[key] && o.m == m.(size := |t.blobs[key]|)
  }

  /** A read of the file: with its stored metadata, and a blob from the store or none. */
  ghost predicate Reads(c: Blobs.Config, s: Blobs.State, key: string, r: Request, m: Metadata) {
    r.m == m && (r.content.Some? ==> OpenedFrom(c, s, key, r.content.value, m))
  }

  ghost predicate ReadsOnly(c: Blobs.Config, s: Blobs.State, stored: string, events: seq<Event>, key: string,
      m: Metadata) {
    forall i :: 0 <= i < |events| ==>
      match events[i]
      case Read(r, _, _) => r.key == key && Reads(c, s, stored, r, m)
      case Other(op) => op.Set? ==> op.key != key
  }

  lemma ReadsAbout(c: Blobs.Config, s: Blobs.State, id: string, r: Request, m: Metadata)
    requires Protocol.Reachable(c, s) && id in s.files && m.size == s.files[id].size
    requires Reads(c, s, s.files[id].key, r, m)
    ensures var key := s.files[id].key; key in s.blobs && About(r, m, s.blobs[key])
  {
    var key := s.files[id].key;
    Protocol.LiveBlobs(c, s, id);
    if r.content.Some? {
      var o := r.content.value;
      var rest, t :| Blobs.Run(c, s, rest) == Some(t) && key in t.blobs && Joined(o.chunks) == t.blobs[key]
        && o.m == m.(size := |t.blobs[key]|);
      Protocol.OpenedLater(c, s, rest, t, id);
    }
  }

  lemma ReadsProper(c: Blobs.Config, s: Blobs.State, id: string, events: seq<Event>, key: string, m: Metadata)
    requires Protocol.Reachable(c, s) && id in s.files && m.size == s.files[id].size
    requires ReadsOnly(c, s, s.files[id].key, events, key, m)
    ensures s.files[id].key in s.blobs && AllProper(events, key, m, s.blobs[s.files[id].key])
  {
    Protocol.LiveBlobs(c, s, id);
    forall i | 0 <= i < |events| ensures Proper(events[i], key, m, s.blobs[s.files[id].key]) {
      match events[i] {
        case Read(r, _, _) => ReadsAbout(c, s, id, r, m);
        case Other(_) =>
      }
    }
  }

  /** From any reachable state that has the file: HEAD and GET answer with the same status
      and headers, each a hit or a miss, whatever the protocol and the cache did meanwhile;
      and a GET whose stream gets through carries the uploaded blob. */
  lemma HeadAndGetAgreeOverStore(c: Blobs.Config, s: Blobs.State, id: string, l: Limits, key: string, m: Metadata,
                                 before: seq<Event>, head: Request, now: int, until: seq<Event>, get: Request,
                                   later: int)
    requires Protocol.Reachable(c, s) && id in s.files && m.size == s.files[id].size
    requires ReadsOnly(c, s, s.files[id].key, before, key, m) && ReadsOnly(c, s, s.files[id].key, until, key, m)
    requires head.head && head.key == key && Reads(c, s, s.files[id].key, head, m)
    requires !get.head && get.key == key && Reads(c, s, s.files[id].key, get, m) && get.content.Some?
    ensures var h, g := Reply(AfterEvents(l, before), head, now), Reply(AfterEvents(l, until), get, later);
      && h.status == g.status == 200 && h.header == g.header == FileHeaders(m)
      && (get.content.value.good >= |get.content.value.chunks| ==>
        s.files[id].key in s.made && g.body == s.made[s.files[id].key])
  {
    Protocol.LiveBlobs(c, s, id);
    ReadsProper(c, s, id, before, key, m);
    ReadsProper(c, s, id, until, key, m);
    ReadsAbout(c, s, id, head, m);
    ReadsAbout(c, s, id, get, m);
    HeadAndGetAgree(l, key, before, head, now, until, get, later, m, s.blobs[s.files[id].key]);
  }

  /** From any reachable state that has the file: a GET that cannot open the blob answers
      from the cache with the whole uploaded blob, or it answers the error. */
  lemma UnopenedOverStore(c: Blobs.Config, s: Blobs.State, id: string, l: Limits, key: string, m: Metadata,
                          before: seq<Event>, get: Request, now: int)
    requires Protocol.Reachable(c, s) && id in s.files && m.size == s.files[id].size
    requires ReadsOnly(c, s, s.files[id].key, before, key, m)
    requires !get.head && get.key == key && get.content.None?
    ensures var reply := Reply(AfterEvents(l, before), get, now);
      || reply == get.error
      || (s.files[id].key in s.made && reply == Response(200, FileHeaders(m), s.made[s.files[id].key]))
  {
    Protocol.LiveBlobs(c, s, id);
    ReadsProper(c, s, id, before, key, m);
    EventsKeepGenuine(l, before, key, m, s.blobs[s.files[id].key]);
    FoundGenuine(AfterEvents(l, before), get, now, m, s.blobs[s.files[id].key]);
  }
}
