/** internal/cache/cache.go: the bounded LRU response cache, with its map, its
    linked list and its byte counter, over entries whose bodies, header values
    and tags are mutable Go slices (arrays here) that must not be shared with
    callers. */
module Memory {
  import opened Common
  import opened CacheModel
  import opened LinkedList

  /** An entry as callers hold it: every slice is an array of its own. */
  datatype EntryRef = EntryRef(
    status: int,
    header: map<string, array<string>>,
    body: array<byte>,
    bodyOmitted: bool,
    storedAt: int,
    tags: array<string>)

  /** A list item; `said` is what its entry said when it was stored. */
  datatype Stored = Stored(key: string, entry: EntryRef, ghost said: Entry, expiresAt: int, size: nat)

  ghost function Texts(e: EntryRef): set<array<string>> {
    {e.tags} + set name | name in e.header :: e.header[name]
  }

  /** What an entry says at this moment. */
  ghost function View(e: EntryRef): Entry
    reads e.body, Texts(e)
  {
    Entry(e.status, map name | name in e.header :: e.header[name][..], e.body[..], e.bodyOmitted, e.storedAt,
      e.tags[..])
  }

  /** `e` says exactly `v`, field by field. */
  ghost predicate Says(e: EntryRef, v: Entry)
    reads e.body, Texts(e)
  {
    && e.status == v.status && e.bodyOmitted == v.bodyOmitted && e.storedAt == v.storedAt
    && e.body[..] == v.body && e.tags[..] == v.tags
    && e.header.Keys == v.header.Keys
    && (forall name :: name in e.header ==> e.header[name][..] == v.header[name])
  }

  lemma SaysView(e: EntryRef, v: Entry)
    ensures Says(e, v) <==> View(e) == v
  {
    if Says(e, v) { assert View(e).header == v.header; }
  }

  method CopyBytes(a: array<byte>) returns (r: array<byte>)
    ensures fresh(r) && r[..] == a[..]
  {
    r := new byte[a.Length](i requires 0 <= i < a.Length reads a => a[i]);
    assert r[..] == a[..];
  }

  method CopyText(a: array<string>) returns (r: array<string>)
    ensures fresh(r) && r[..] == a[..]
  {
    r := new string[a.Length](i requires 0 <= i < a.Length reads a => a[i]);
    assert r[..] == a[..];
  }

  /** A deep copy: it says the same and shares nothing. */
  method CloneEntry(e: EntryRef, ghost said: Entry) returns (r: EntryRef)
    requires Says(e, said)
    ensures Says(r, said) && fresh(r.body) && fresh(Texts(r))
  {
    var body := CopyBytes(e.body);
    var tags := CopyText(e.tags);
    var header: map<string, array<string>> := map[];
    var todo := e.header.Keys;
    while todo != {}
      invariant todo <= e.header.Keys && header.Keys == e.header.Keys - todo
      invariant fresh(body) && fresh(tags) && body[..] == e.body[..] && tags[..] == e.tags[..]
      invariant forall name :: name in header ==> fresh(header[name]) && header[name][..] == said.header[name]
      decreases todo
    {
      var name :| name in todo;
      var values := CopyText(e.header[name]);
      header := header[name := values];
      todo := todo - {name};
    }
    r := e.(header := header, body := body, tags := tags);
  }

  /** The accounted size: a running sum over key, body, header lines in whatever
      order the map yields them, and tags. */
  method SizeOf(key: string, e: EntryRef, ghost said: Entry) returns (size: nat)
    requires Says(e, said)
    ensures size == EntrySize(key, said)
  {
    size := |key| + e.body.Length;
    var todo := e.header.Keys;
    ghost var rest := said.header;
    while todo != {}
      invariant todo <= e.header.Keys && rest.Keys == todo
      invariant forall name :: name in rest ==> rest[name] == said.header[name]
      invariant size + HeaderBytes(rest) == |key| + |said.body| + HeaderBytes(said.header)
      decreases todo
    {
      var name :| name in todo;
      HeaderBytesAnyOrder(rest, name);
      rest := rest - {name};
      size := size + |name|;
      var values := SumText(e.header[name]);
      size := size + values;
      todo := todo - {name};
    }
    assert rest == map[];
    var tagBytes := SumText(e.tags);
    size := size + tagBytes;
  }

  method SumText(a: array<string>) returns (n: nat)
    ensures n == TextBytes(a[..])
  {
    n := 0;
    for i := 0 to a.Length
      invariant n == TextBytes(a[..i])
    {
      assert a[..i + 1][..i] == a[..i];
      n := n + |a[i]|;
    }
    assert a[..a.Length] == a[..];
  }

  method HasTag(tags: array<string>, wanted: set<string>) returns (found: bool)
    ensures found <==> exists t :: t in tags[..] && t in wanted
  {
    for i := 0 to tags.Length
      invariant forall t :: t in tags[..i] ==> t !in wanted
    {
      assert tags[..i + 1] == tags[..i] + [tags[i]];
      if tags[i] in wanted {
        assert tags[i] in tags[..];
        return true;
      }
    }
    assert tags[..tags.Length] == tags[..];
    return false;
  }

  ghost predicate Filed(items: map<string, Element<Stored>>, e: Element<Stored>) {
    e.value.key in items && items[e.value.key] == e
  }

  ghost predicate Listed(elems: seq<Element<Stored>>, items: map<string, Element<Stored>>, key: string)
    requires key in items
  {
    items[key] in elems && items[key].value.key == key
  }

  /** The map holds exactly the listed elements, each under its own key. */
  ghost predicate Mapped(elems: seq<Element<Stored>>, items: map<string, Element<Stored>>) {
    && (forall e {:trigger Filed(items, e)} :: e in elems ==> Filed(items, e))
    && (forall key {:trigger Listed(elems, items, key)} :: key in items ==> Listed(elems, items, key))
  }

  /** The arrays only the cache may hold, and what they were filled with. */
  datatype Private = Private(bodies: map<array<byte>, seq<byte>>, texts: map<array<string>, seq<string>>)

  /** Nobody has written them since. */
  ghost predicate Unwritten(p: Private)
    reads p.bodies.Keys, p.texts.Keys
  {
    && (forall a :: a in p.bodies ==> a[..] == p.bodies[a])
    && (forall a :: a in p.texts ==> a[..] == p.texts[a])
  }

  /** The stored entry lives in private arrays, filled with what it said. */
  ghost predicate Sound(s: Stored, p: Private) {
    && s.entry.status == s.said.status && s.entry.bodyOmitted == s.said.bodyOmitted
    && s.entry.storedAt == s.said.storedAt
    && s.entry.body in p.bodies && p.bodies[s.entry.body] == s.said.body
    && s.entry.tags in p.texts && p.texts[s.entry.tags] == s.said.tags
    && s.entry.header.Keys == s.said.header.Keys
    && (forall name :: name in s.entry.header ==>
          s.entry.header[name] in p.texts && p.texts[s.entry.header[name]] == s.said.header[name])
  }

  lemma SoundSays(s: Stored, p: Private)
    requires Sound(s, p) && Unwritten(p)
    ensures Says(s.entry, s.said)
  {
  }

  ghost predicate Intact(elems: seq<Element<Stored>>, p: Private) {
    forall e {:trigger Sound(e.value, p)} :: e in elems ==> Sound(e.value, p)
  }

  /** The private arrays once those of `e` are among them. */
  ghost function Adopted(p: Private, e: EntryRef): Private
    reads e.body, Texts(e)
  {
    Private(p.bodies[e.body := e.body[..]], p.texts + map a | a in Texts(e) :: a[..])
  }

  lemma AdoptedSound(elems: seq<Element<Stored>>, p: Private, stored: Stored)
    requires Unwritten(p) && Intact(elems, p) && Says(stored.entry, stored.said)
    ensures var q := Adopted(p, stored.entry); Unwritten(q) && Intact(elems, q) && Sound(stored, q)
  {
    var q := Adopted(p, stored.entry);
    forall x | x in elems ensures Sound(x.value, q) {
      assert Sound(x.value, p);
    }
  }

  ghost function ItemOf(s: Stored): Item {
    Item(s.key, s.said, s.expiresAt, s.size)
  }

  ghost function ItemsOf(elems: seq<Element<Stored>>): (items: seq<Item>)
    ensures |items| == |elems|
    ensures forall i :: 0 <= i < |elems| ==> items[i] == ItemOf(elems[i].value)
  {
    seq(|elems|, i requires 0 <= i < |elems| => ItemOf(elems[i].value))
  }

  /** One step of the walk on the contents. */
  lemma SweepStep(all: seq<Item>, k: nat, now: seq<Item>, wanted: set<string>)
    requires k < |all| && now == all[..k + 1] + Untagged(all[k + 1..], wanted)
    ensures k < |now| && (if Tagged(now[k], wanted) then Drop(now, k) else now) == all[..k] + Untagged(all[k..], wanted)
  {
    UntaggedFrom(all, k, wanted);
    var rest := Untagged(all[k + 1..], wanted);
    assert now == all[..k] + [all[k]] + rest;
    assert Drop(now, k) == all[..k] + rest;
    assert all[..k] + ([all[k]] + rest) == now;
  }

  lemma ItemsDrop(elems: seq<Element<Stored>>, i: nat)
    requires i < |elems|
    ensures ItemsOf(Drop(elems, i)) == Drop(ItemsOf(elems), i)
  {
    var a, b := ItemsOf(Drop(elems, i)), Drop(ItemsOf(elems), i);
    forall j | 0 <= j < |a| ensures a[j] == b[j] {
      var k := if j < i then j else j + 1;
      assert Drop(elems, i)[j] == elems[k] && b[j] == ItemsOf(elems)[k];
    }
  }

  lemma MappedDrop(elems: seq<Element<Stored>>, items: map<string, Element<Stored>>, i: nat)
    requires Mapped(elems, items) && i < |elems|
    requires Distinct(elems)
    ensures Mapped(Drop(elems, i), items - {elems[i].value.key})
    ensures forall e :: e in Drop(elems, i) ==> e in elems
  {
    DropDistinct(elems, i);
    var rest, less := Drop(elems, i), items - {elems[i].value.key};
    assert Filed(items, elems[i]);
    forall e | e in rest ensures Filed(less, e) {
      assert Filed(items, e);
    }
    forall key | key in less ensures Listed(rest, less, key) {
      assert Listed(elems, items, key);
    }
  }

  /** Where the map's element for `key` is listed. */
  lemma Position(elems: seq<Element<Stored>>, items: map<string, Element<Stored>>, key: string) returns (i: nat)
    requires Mapped(elems, items) && Distinct(elems)
    ensures key in items ==> i < |elems| && elems[i] == items[key]
    ensures i == IndexOf(ItemsOf(elems), key)
    ensures key !in items ==> i == |elems|
  {
    i := IndexOf(ItemsOf(elems), key);
    if i < |elems| {
      assert Filed(items, elems[i]);
    }
    assert key in items ==> Listed(elems, items, key);
  }

  /** Adding or moving an element to the front, under the key it is filed at. */
  lemma MappedFront(elems: seq<Element<Stored>>, items: map<string, Element<Stored>>, e: Element<Stored>)
    requires Mapped(elems, items) && e.value.key !in items
    ensures Mapped([e] + elems, items[e.value.key := e])
  {
    var more, all := items[e.value.key := e], [e] + elems;
    forall x | x in all ensures Filed(more, x) {
      assert x == e || x in elems;
      if x != e { assert Filed(items, x); }
    }
    forall key | key in more ensures Listed(all, more, key) {
      if key == e.value.key {
        assert all[0] == e;
      } else {
        assert Listed(elems, items, key);
        assert more[key] in elems;
      }
    }
  }

  lemma ItemsFront(e: Element<Stored>, elems: seq<Element<Stored>>)
    ensures ItemsOf([e] + elems) == [ItemOf(e.value)] + ItemsOf(elems)
  {
  }

  class Memory {
    const maxBytes: int
    const maxItems: int
    var items: map<string, Element<Stored>>
    const lru: List<Stored>
    var bytes: int
    ghost var own: Private  // every array the cache has ever stored in

    ghost function Bounds(): Limits { Limits(maxBytes, maxItems) }

    /** What the cache holds, most recently used first. */
    ghost function Contents(): seq<Item>
      reads lru
    {
      ItemsOf(lru.elems)
    }

    /** Map, list and byte counter agree. */
    ghost predicate Indexed()
      reads this, lru, lru.nodes
    {
      && lru.Valid()
      && Mapped(lru.elems, items)
      && bytes == TotalSize(Contents())
    }

    ghost predicate Unchanged(p: Private, elems: seq<Element<Stored>>)
      reads this, lru, lru.nodes, own.bodies.Keys, own.texts.Keys
    {
      Valid() && own == p && lru.elems == elems
    }

    ghost predicate Valid()
      reads this, lru, lru.nodes, own.bodies.Keys, own.texts.Keys
    {
      Indexed() && Intact(lru.elems, own) && Unwritten(own) && WellFormed(Bounds(), Contents())
    }

    constructor (maxBytes: int, maxItems: int)
      ensures Valid() && Contents() == []
      ensures this.maxBytes == maxBytes && this.maxItems == maxItems
      ensures fresh(lru) && lru.nodes == {}
    {
      this.maxBytes, this.maxItems := maxBytes, maxItems;
      items, bytes := map[], 0;
      lru := new List();
      own := Private(map[], map[]);
    }

    /** Takes the element at position `i` out of map, list and counter. */
    method Unlink(e: Element<Stored>, ghost i: nat)
      requires Indexed() && i < |lru.elems| && lru.elems[i] == e
      modifies this`items, this`bytes, lru, lru.nodes
      ensures lru.nodes == old(lru.nodes)
      ensures Indexed() && lru.elems == Drop(old(lru.elems), i) && items == old(items) - {e.value.key}
    {
      ghost var was := lru.elems;
      TotalSizeDrop(ItemsOf(was), i);
      ItemsDrop(was, i);
      MappedDrop(was, items, i);
      items := items - {e.value.key};
      bytes := bytes - e.value.size;
      lru.Remove(e, i);
    }

    /** `remove`: what is left is as it was. */
    method Remove(e: Element<Stored>, ghost i: nat)
      requires Indexed() && Intact(lru.elems, own) && i < |lru.elems| && lru.elems[i] == e
      modifies this`items, this`bytes, lru, lru.nodes
      ensures lru.nodes == old(lru.nodes)
      ensures Indexed() && Intact(lru.elems, own) && lru.elems == Drop(old(lru.elems), i)
      ensures Contents() == Drop(old(Contents()), i) && items == old(items) - {e.value.key}
    {
      MappedDrop(lru.elems, items, i);
      ItemsDrop(lru.elems, i);
      Unlink(e, i);
    }

    /** Lists and files a new item in front. */
    method File(stored: Stored) returns (e: Element<Stored>)
      requires Indexed() && stored.key !in items
      modifies this`items, this`bytes, lru, lru.nodes
      ensures Indexed() && fresh(e) && e.value == stored
      ensures lru.elems == [e] + old(lru.elems) && lru.nodes == old(lru.nodes) + {e}
    {
      ghost var was := lru.elems;
      e := lru.PushFront(stored);
      MappedFront(was, items, e);
      ItemsFront(e, was);
      items := items[stored.key := e];
      bytes := bytes + stored.size;
      assert Contents()[1..] == ItemsOf(was);
    }

    method Insert(stored: Stored)
      requires Indexed() && Intact(lru.elems, own) && Sound(stored, own) && stored.key !in items
      modifies this`items, this`bytes, lru, lru.nodes
      ensures Indexed() && Intact(lru.elems, own)
      ensures fresh(lru.nodes - old(lru.nodes))
      ensures Contents() == [ItemOf(stored)] + old(Contents())
    {
      var e := File(stored);
      ItemsFront(e, old(lru.elems));
      forall x | x in lru.elems ensures Sound(x.value, own) {
        assert x == e || x in old(lru.elems);
      }
    }

    /** Moves the element at position `i` to the front. */
    method Touch(e: Element<Stored>, ghost i: nat)
      requires Indexed() && Intact(lru.elems, own) && Unwritten(own) && i < |lru.elems| && lru.elems[i] == e
      modifies lru, lru.nodes
      ensures lru.nodes == old(lru.nodes)
      ensures Indexed() && Intact(lru.elems, own) && Unwritten(own)
      ensures lru.elems == [e] + Drop(old(lru.elems), i)
      ensures Contents() == [ItemOf(e.value)] + Drop(old(Contents()), i)
    {
      ghost var was := lru.elems;
      assert Filed(items, e);
      MappedDrop(was, items, i);
      MappedFront(Drop(was, i), items - {e.value.key}, e);
      assert (items - {e.value.key})[e.value.key := e] == items;
      ItemsDrop(was, i);
      ItemsFront(e, Drop(was, i));
      TotalSizeDrop(ItemsOf(was), i);
      lru.MoveToFront(e, i);
      assert Contents()[1..] == Drop(ItemsOf(was), i);
    }

    /** What the caller gets on a hit. */
    method Copy(e: Element<Stored>) returns (copy: EntryRef)
      requires e in lru.elems && Valid()
      ensures fresh(copy.body) && fresh(Texts(copy)) && Says(copy, e.value.said)
      ensures Valid() && Contents() == old(Contents()) && lru.nodes == old(lru.nodes)
    {
      assert Sound(e.value, own);
      SoundSays(e.value, own);
      copy := CloneEntry(e.value.entry, e.value.said);
    }

    /** Drops the item listed at `i`. */
    method Expire(e: Element<Stored>, ghost i: nat)
      requires Valid() && i < |lru.elems| && lru.elems[i] == e && WellFormed(Bounds(), Drop(Contents(), i))
      modifies this`items, this`bytes, lru, lru.nodes
      ensures lru.nodes == old(lru.nodes)
      ensures Valid() && Contents() == Drop(old(Contents()), i)
    {
      Remove(e, i);
    }

    /** Makes the item listed at `i` the most recently used. */
    method Promote(e: Element<Stored>, ghost i: nat)
      requires Valid() && i < |lru.elems| && lru.elems[i] == e
      requires WellFormed(Bounds(), [ItemOf(e.value)] + Drop(Contents(), i))
      modifies lru, lru.nodes
      ensures lru.nodes == old(lru.nodes)
      ensures Valid() && lru.elems == [e] + Drop(old(lru.elems), i)
      ensures Contents() == [ItemOf(e.value)] + Drop(old(Contents()), i)
    {
      Touch(e, i);
    }

    /** Finds a live item and makes it the most recent; drops a dead one. */
    method Lookup(cancelled: bool, key: string, now: int) returns (e: Element?<Stored>)
      requires Valid()
      modifies this`items, this`bytes, lru, lru.nodes
      ensures lru.nodes == old(lru.nodes)
      ensures Valid() && Contents() == AfterGet(old(Contents()), cancelled, key, now)
      ensures e == null <==> Answer(old(Contents()), cancelled, key, now).None?
      ensures e != null ==> e in lru.elems && e.value.said == Answer(old(Contents()), cancelled, key, now).value
    {
      if cancelled { return null; }
      ghost var i := Position(lru.elems, items, key);
      GetFacts(Bounds(), Contents(), cancelled, key, now);
      if key !in items { return null; }
      e := items[key];
      if now >= e.value.expiresAt {
        Expire(e, i);
        return null;
      }
      Promote(e, i);
      assert lru.elems[0] == e;
    }

    method Get(cancelled: bool, key: string, now: int) returns (r: Option<EntryRef>)
      requires Valid()
      modifies this`items, this`bytes, lru, lru.nodes
      ensures lru.nodes == old(lru.nodes)
      ensures Valid() && Contents() == AfterGet(old(Contents()), cancelled, key, now)
      ensures r.Some? <==> Answer(old(Contents()), cancelled, key, now).Some?
      ensures r.Some? ==> fresh(r.value.body) && fresh(Texts(r.value))
      ensures r.Some? ==> Says(r.value, Answer(old(Contents()), cancelled, key, now).value)
    {
      var e := Lookup(cancelled, key, now);
      if e == null { return None; }
      var copy := Copy(e);
      return Some(copy);
    }

    method Delete(cancelled: bool, key: string)
      requires Valid()
      modifies this`items, this`bytes, lru, lru.nodes
      ensures lru.nodes == old(lru.nodes)
      ensures Valid() && Contents() == AfterDelete(old(Contents()), cancelled, key)
    {
      if cancelled { return; }
      ghost var i := Position(lru.elems, items, key);
      WithoutFacts(Bounds(), Contents(), key);
      if key in items { Remove(items[key], i); }
    }

    /** What `Set` does before it takes the lock: a private copy, stamped, with
        its body dropped when only that makes it fit. */
    method Prepare(key: string, entry: EntryRef, now: int, ghost said: Entry)
      returns (kept: bool, e: EntryRef, size: nat, ghost keptSaid: Entry)
      requires Says(entry, said)
      ensures fresh(e.body) && fresh(Texts(e)) && Says(e, keptSaid) && size == EntrySize(key, keptSaid)
      ensures kept <==> Kept(Bounds(), key, said, now).Some?
      ensures kept ==> keptSaid == Kept(Bounds(), key, said, now).value
    {
      e := CloneEntry(entry, said);
      e := e.(storedAt := now);
      keptSaid := said.(storedAt := now);
      size := SizeOf(key, e, keptSaid);
      if size > maxBytes && e.body.Length != 0 {
        var none := new byte[0];
        e := e.(body := none, bodyOmitted := true);
        keptSaid := keptSaid.(body := [], bodyOmitted := true);
        size := SizeOf(key, e, keptSaid);
      }
      kept := size <= maxBytes;
    }

    /** The eviction loop. */
    method Shrink()
      requires Indexed() && Intact(lru.elems, own) && maxItems > 0 && maxBytes > 0
      modifies this`items, this`bytes, lru, lru.nodes
      ensures lru.nodes == old(lru.nodes)
      ensures Indexed() && Intact(lru.elems, own)
      ensures Contents() == Evict(Bounds(), old(Contents()))
    {
      while lru.len > maxItems || bytes > maxBytes
        invariant Indexed() && Intact(lru.elems, own) && lru.nodes == old(lru.nodes)
        invariant Evict(Bounds(), Contents()) == Evict(Bounds(), old(Contents()))
        decreases lru.len
      {
        assert Contents() != [];
        RemoveLast();
      }
    }

    method RemoveLast()
      requires Indexed() && Intact(lru.elems, own) && Contents() != []
      modifies this`items, this`bytes, lru, lru.nodes
      ensures lru.nodes == old(lru.nodes) && lru.len < old(lru.len)
      ensures Indexed() && Intact(lru.elems, own)
      ensures Contents() == old(Contents()[..|Contents()| - 1])
    {
      ghost var last := |lru.elems| - 1;
      assert Drop(Contents(), last) == Contents()[..last];
      Remove(lru.tail, last);
    }

    method Set(cancelled: bool, key: string, entry: EntryRef, ttl: int, now: int)
      requires Valid()
      modifies this`items, this`bytes, this`own, lru, lru.nodes
      ensures fresh(lru.nodes - old(lru.nodes))
      ensures Valid()
      ensures Contents() == AfterSet(Bounds(), old(Contents()), cancelled, key, old(View(entry)), ttl, now)
      ensures fresh(own.bodies.Keys - old(own.bodies.Keys)) && fresh(own.texts.Keys - old(own.texts.Keys))
    {
      if cancelled || key == "" || ttl <= 0 || maxBytes <= 0 || maxItems <= 0 { return; }
      ghost var said := View(entry);
      SaysView(entry, said);
      SetSaying(key, entry, ttl, now, said);
    }

    /** `Set` past its guards. */
    method SetSaying(key: string, entry: EntryRef, ttl: int, now: int, ghost said: Entry)
      requires Valid() && Says(entry, said) && key != "" && ttl > 0 && maxBytes > 0 && maxItems > 0
      modifies this`items, this`bytes, this`own, lru, lru.nodes
      ensures fresh(lru.nodes - old(lru.nodes))
      ensures Valid()
      ensures Contents() == AfterSet(Bounds(), old(Contents()), false, key, said, ttl, now)
      ensures fresh(own.bodies.Keys - old(own.bodies.Keys)) && fresh(own.texts.Keys - old(own.texts.Keys))
    {
      var kept, e, size, keptSaid := PrepareHere(key, entry, now, said);
      Install(kept, key, e, size, ttl, now, said, keptSaid);
    }

    /** As `Prepare`, which leaves the cache alone. */
    method PrepareHere(key: string, entry: EntryRef, now: int, ghost said: Entry)
      returns (kept: bool, e: EntryRef, size: nat, ghost keptSaid: Entry)
      requires Valid() && Says(entry, said)
      ensures Valid() && Contents() == old(Contents()) && own == old(own) && lru.nodes == old(lru.nodes)
      ensures fresh(e.body) && fresh(Texts(e)) && Says(e, keptSaid) && size == EntrySize(key, keptSaid)
      ensures kept <==> Kept(Bounds(), key, said, now).Some?
      ensures kept ==> keptSaid == Kept(Bounds(), key, said, now).value
    {
      kept, e, size, keptSaid := Prepare(key, entry, now, said);
    }

    /** The rest of `Set`: under the lock, if the entry is kept. */
    method Install(kept: bool, key: string, e: EntryRef, size: nat, ttl: int, now: int, ghost said: Entry,
        ghost keptSaid: Entry)
      requires Valid() && Says(e, keptSaid) && key != "" && ttl > 0 && maxBytes > 0 && maxItems > 0
      requires (kept <==> Kept(Bounds(), key, said, now).Some?) && size == EntrySize(key, keptSaid)
      requires kept ==> keptSaid == Kept(Bounds(), key, said, now).value
      modifies this`items, this`bytes, this`own, lru, lru.nodes
      ensures fresh(lru.nodes - old(lru.nodes))
      ensures Valid() && Contents() == AfterSet(Bounds(), old(Contents()), false, key, said, ttl, now)
      ensures own.bodies.Keys <= old(own.bodies.Keys) + {e.body} && own.texts.Keys <= old(own.texts.Keys) + Texts(e)
    {
      if !kept { return; }
      ghost var item := Item(key, keptSaid, now + ttl, size);
      SetAccepted(Bounds(), Contents(), false, key, said, ttl, now, item);
      Admit(Stored(key, e, keptSaid, now + ttl, size), item);
    }

    /** Lets a prepared item in. */
    method Admit(stored: Stored, ghost item: Item)
      requires Valid() && Says(stored.entry, stored.said) && maxItems > 0 && maxBytes > 0 && item == ItemOf(stored)
      requires WellFormed(Bounds(), Evict(Bounds(), [item] + Without(Contents(), item.key)))
      modifies this`items, this`bytes, this`own, lru, lru.nodes
      ensures fresh(lru.nodes - old(lru.nodes))
      ensures Valid() && Contents() == Evict(Bounds(), [item] + Without(old(Contents()), item.key))
      ensures own.bodies.Keys == old(own.bodies.Keys) + {stored.entry.body}
      ensures own.texts.Keys == old(own.texts.Keys) + Texts(stored.entry)
    {
      Take(stored);
    }

    method Take(stored: Stored)
      requires Indexed() && Intact(lru.elems, own) && Unwritten(own)
      requires Says(stored.entry, stored.said) && maxItems > 0 && maxBytes > 0
      modifies this`items, this`bytes, this`own, lru, lru.nodes
      ensures fresh(lru.nodes - old(lru.nodes))
      ensures Indexed() && Intact(lru.elems, own) && Unwritten(own)
      ensures Contents() == Evict(Bounds(), [ItemOf(stored)] + Without(old(Contents()), stored.key))
      ensures own.bodies.Keys == old(own.bodies.Keys) + {stored.entry.body}
      ensures own.texts.Keys == old(own.texts.Keys) + Texts(stored.entry)
    {
      Adopt(stored);
      Store(stored);
    }

    /** Makes the arrays of a prepared item the cache's own. */
    ghost method Adopt(stored: Stored)
      requires Intact(lru.elems, own) && Unwritten(own) && Says(stored.entry, stored.said)
      modifies this`own
      ensures Intact(lru.elems, own) && Unwritten(own) && Sound(stored, own)
      ensures own.bodies.Keys == old(own.bodies.Keys) + {stored.entry.body}
      ensures own.texts.Keys == old(own.texts.Keys) + Texts(stored.entry)
    {
      AdoptedSound(lru.elems, own, stored);
      own := Adopted(own, stored.entry);
    }

    /** The locked part of `Set`. */
    method Store(stored: Stored)
      requires Indexed() && Intact(lru.elems, own) && Unwritten(own)
      requires Sound(stored, own) && maxItems > 0 && maxBytes > 0
      modifies this`items, this`bytes, lru, lru.nodes
      ensures fresh(lru.nodes - old(lru.nodes))
      ensures Indexed() && Intact(lru.elems, own) && Unwritten(own)
      ensures Contents() == Evict(Bounds(), [ItemOf(stored)] + Without(old(Contents()), stored.key))
    {
      Discard(stored.key);
      Insert(stored);
      Shrink();
    }

    /** Removes whatever the key holds. */
    method Discard(key: string)
      requires Indexed() && Intact(lru.elems, own)
      modifies this`items, this`bytes, lru, lru.nodes
      ensures lru.nodes == old(lru.nodes)
      ensures Indexed() && Intact(lru.elems, own) && key !in items
      ensures Contents() == Without(old(Contents()), key)
    {
      ghost var i := Position(lru.elems, items, key);
      if key in items {
        DropDistinct(lru.elems, i);
        MappedDrop(lru.elems, items, i);
        Remove(items[key], i);
      }
    }

    method Invalidate(cancelled: bool, tags: seq<string>)
      requires Valid()
      modifies this`items, this`bytes, lru, lru.nodes
      ensures lru.nodes == old(lru.nodes)
      ensures Valid() && Contents() == AfterInvalidate(old(Contents()), cancelled, tags)
    {
      if cancelled || |tags| == 0 {
        UntaggedNothing(Contents());
        assert |tags| == 0 ==> (set t | t in tags) == {};
        return;
      }
      var wanted := set t | t in tags;
      InvalidateKeepsWellFormed(Bounds(), Contents(), wanted);
      Sweep(wanted);
    }

    /** The walk, back to front. */
    method Sweep(wanted: set<string>)
      requires Indexed() && Intact(lru.elems, own) && Unwritten(own)
      modifies this`items, this`bytes, lru, lru.nodes
      ensures lru.nodes == old(lru.nodes)
      ensures Indexed() && Intact(lru.elems, own) && Unwritten(own)
      ensures Contents() == Untagged(old(Contents()), wanted)
    {
      ghost var all := Contents();
      var element := lru.tail;
      ghost var k: nat := |all|;
      assert all[..k] == all && Untagged(all[k..], wanted) == [];
      while element != null
        invariant Indexed() && Intact(lru.elems, own) && Unwritten(own) && lru.nodes == old(lru.nodes)
        invariant k <= |all| && k <= |lru.elems| && element == Before(lru.elems, k)
        invariant Contents() == all[..k] + Untagged(all[k..], wanted)
        decreases k
      {
        k := k - 1;
        SweepStep(all, k, Contents(), wanted);
        element := Visit(element, k, wanted);
      }
      assert k == 0 && all[..k] == [] && all[k..] == all;
    }

    /** One element of the walk: its predecessor is read before it may go. */
    method Visit(e: Element<Stored>, ghost k: nat, wanted: set<string>) returns (previous: Element?<Stored>)
      requires Indexed() && Intact(lru.elems, own) && Unwritten(own) && k < |lru.elems| && lru.elems[k] == e
      modifies this`items, this`bytes, lru, lru.nodes
      ensures lru.nodes == old(lru.nodes)
      ensures Indexed() && Intact(lru.elems, own) && Unwritten(own)
      ensures k <= |lru.elems| && previous == Before(lru.elems, k)
      ensures lru.elems == if Tagged(old(Contents())[k], wanted) then Drop(old(lru.elems), k) else old(lru.elems)
      ensures Contents() == if Tagged(old(Contents())[k], wanted) then Drop(old(Contents()), k) else old(Contents())
    {
      previous := lru.Previous(e, k);
      var tagged := Carries(e, wanted);
      if tagged {
        DropDistinct(lru.elems, k);
        Remove(e, k);
      }
    }

    method Carries(e: Element<Stored>, wanted: set<string>) returns (found: bool)
      requires Intact(lru.elems, own) && Unwritten(own) && e in lru.elems
      ensures found <==> Tagged(ItemOf(e.value), wanted)
    {
      assert Sound(e.value, own);
      SoundSays(e.value, own);
      found := HasTag(e.value.entry.tags, wanted);
    }

    method Close()
      requires Valid()
      modifies this`items, this`bytes, lru
      ensures Valid() && Contents() == []
    {
      items := map[];
      lru.Init();
      bytes := 0;
    }

    /** The footprint: what the items weigh, and how many there are. */
    method Stats() returns (bytes: int, items: nat)
      requires Valid()
      ensures bytes == TotalSize(Contents()) && items == |Contents()|
      ensures items > 0 ==> bytes <= maxBytes && items <= maxItems
    {
      bytes, items := this.bytes, lru.len;
    }

    method EntryFits(key: string, entry: EntryRef, bodyBytes: int) returns (fits: bool)
      ensures fits <==> BodyFits(Bounds(), key, old(View(entry)), bodyBytes)
    {
      if bodyBytes < 0 { return false; }
      ghost var said := View(entry);
      SaysView(entry, said);
      var none := new byte[0];
      var bare := entry.(body := none, bodyOmitted := false);
      var metadata := SizeOf(key, bare, said.(body := [], bodyOmitted := false));
      fits := metadata <= maxBytes && bodyBytes <= maxBytes - metadata;
    }
  }
  /** Writing any array the cache did not make its own changes nothing in it. */
  method CallerWrites(c: Memory, body: array<byte>, b: byte, texts: array<string>, t: string)
    requires c.Valid() && body !in c.own.bodies && texts !in c.own.texts
    modifies body, texts
    ensures c.Valid() && c.Contents() == old(c.Contents())
  {
    for i := 0 to body.Length
      invariant c.Unchanged(old(c.own), old(c.lru.elems))
    {
      body[i] := b;
    }
    for i := 0 to texts.Length
      invariant c.Unchanged(old(c.own), old(c.lru.elems))
    {
      texts[i] := t;
    }
  }

  /** The header's arrays too. */
  method Overwrite(c: Memory, e: EntryRef, b: byte, t: string)
    requires c.Valid() && e.body !in c.own.bodies && Texts(e) !! c.own.texts.Keys
    modifies e.body, Texts(e)
    ensures c.Valid() && c.Contents() == old(c.Contents())
  {
    var todo := e.header.Keys;
    while todo != {}
      invariant todo <= e.header.Keys && c.Valid() && c.Contents() == old(c.Contents())
      decreases todo
    {
      var name :| name in todo;
      CallerWrites(c, e.body, b, e.header[name], t);
      todo := todo - {name};
    }
  }

  /** What a hit hands out is the caller's to overwrite: the next `Get` answers
      as if it had not been. */
  method OverwrittenAnswer(c: Memory, key: string, now: int, b: byte, t: string) returns (r: Option<EntryRef>)
    requires c.Valid()
    modifies c`items, c`bytes, c.lru, c.lru.nodes
    ensures c.Valid()
    ensures r.Some? <==> Answer(old(c.Contents()), false, key, now).Some?
    ensures r.Some? ==> Says(r.value, Answer(old(c.Contents()), false, key, now).value)
  {
    GetAgain(c.Bounds(), c.Contents(), key, now);
    var first := c.Get(false, key, now);
    if first.Some? {
      CallerWrites(c, first.value.body, b, first.value.tags, t);
      Overwrite(c, first.value, b, t);
    }
    r := c.Get(false, key, now);
  }
}
