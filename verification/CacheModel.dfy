/** The response cache as a value: what internal/cache/cache.go computes, on a
    sequence of items ordered from most to least recently used, and what a whole
    run of operations may answer. Strings stand for Go byte strings. */
module CacheModel {
  import opened Common

  datatype Entry = Entry(
    status: int,
    header: map<string, seq<string>>,
    body: seq<byte>,
    bodyOmitted: bool,
    storedAt: int,
    tags: seq<string>)

  datatype Item = Item(key: string, entry: Entry, expiresAt: int, size: nat)

  datatype Limits = Limits(maxBytes: int, maxItems: int)

  // ---------------------------------------------------------------- sizes

  function TextBytes(texts: seq<string>): (n: nat)
  {
    if texts == [] then 0 else TextBytes(texts[..|texts| - 1]) + |texts[|texts| - 1]|
  }

  /** One header line: its name and all of its values. */
  function LineBytes(name: string, values: seq<string>): nat {
    |name| + TextBytes(values)
  }

  ghost function HeaderBytes(header: map<string, seq<string>>): (n: nat) {
    if header == map[] then 0
    else var name :| name in header;
         LineBytes(name, header[name]) + HeaderBytes(header - {name})
  }

  /** A header's size does not depend on the order its names are visited in. */
  lemma {:induction false} HeaderBytesAnyOrder(header: map<string, seq<string>>, name: string)
    requires name in header
    ensures HeaderBytes(header) == LineBytes(name, header[name]) + HeaderBytes(header - {name})
    decreases |header|
  {
    var first :| first in header
      && HeaderBytes(header) == LineBytes(first, header[first]) + HeaderBytes(header - {first});
    if first != name {
      assert |header - {first}| < |header| by { assert (header - {first}).Keys == header.Keys - {first}; }
      assert |header - {name}| < |header| by { assert (header - {name}).Keys == header.Keys - {name}; }
      HeaderBytesAnyOrder(header - {first}, name);
      HeaderBytesAnyOrder(header - {name}, first);
      assert header - {first} - {name} == header - {name} - {first};
    }
  }

  ghost function EntrySize(key: string, entry: Entry): nat {
    |key| + |entry.body| + HeaderBytes(entry.header) + TextBytes(entry.tags)
  }

  function TotalSize(items: seq<Item>): nat {
    if items == [] then 0 else items[0].size + TotalSize(items[1..])
  }

  lemma {:induction false} TotalSizeConcat(a: seq<Item>, b: seq<Item>)
    ensures TotalSize(a + b) == TotalSize(a) + TotalSize(b)
  {
    if a == [] {
      assert a + b == b;
    } else {
      assert (a + b)[1..] == a[1..] + b;
      TotalSizeConcat(a[1..], b);
    }
  }

  lemma TotalSizeDrop(s: seq<Item>, i: nat)
    requires i < |s|
    ensures TotalSize(s[..i] + s[i + 1..]) == TotalSize(s) - s[i].size
  {
    TotalSizeConcat(s[..i], s[i..]);
    assert s[..i] + s[i..] == s;
    assert s[i..][1..] == s[i + 1..];
    TotalSizeConcat(s[..i], s[i + 1..]);
  }

  // ------------------------------------------------------------ well-formed

  ghost predicate DistinctKeys(s: seq<Item>) {
    forall i, j :: 0 <= i < j < |s| ==> s[i].key != s[j].key
  }

  ghost predicate Fits(l: Limits, s: seq<Item>) {
    |s| <= l.maxItems && TotalSize(s) <= l.maxBytes
  }

  /** What holds of every reachable cache: one item a key, recorded sizes are
      the real ones, and a cache that holds anything is inside both bounds. */
  ghost predicate WellFormed(l: Limits, s: seq<Item>) {
    && DistinctKeys(s)
    && (forall i :: 0 <= i < |s| ==> s[i].size == EntrySize(s[i].key, s[i].entry))
    && (s != [] ==> Fits(l, s))
  }

  ghost function IndexOf(s: seq<Item>, key: string): (i: nat)
    ensures i <= |s|
    ensures i < |s| ==> s[i].key == key
    ensures i == |s| ==> forall j :: 0 <= j < |s| ==> s[j].key != key
  {
    if s == [] then 0 else if s[0].key == key then 0 else IndexOf(s[1..], key) + 1
  }

  ghost predicate Holds(s: seq<Item>, key: string) {
    IndexOf(s, key) < |s|
  }

  // -------------------------------------------------------------- operations

  ghost function Without(s: seq<Item>, key: string): seq<Item> {
    var i := IndexOf(s, key);
    if i < |s| then s[..i] + s[i + 1..] else s
  }

  /** The entry a `Set` keeps: stamped, and without its body when the whole
      does not fit but the rest does; nothing when not even that fits. */
  ghost function Kept(l: Limits, key: string, entry: Entry, now: int): Option<Entry> {
    var stamped := entry.(storedAt := now);
    if EntrySize(key, stamped) <= l.maxBytes then Some(stamped)
    else if |entry.body| == 0 then None
    else
      var omitted := stamped.(body := [], bodyOmitted := true);
      if EntrySize(key, omitted) <= l.maxBytes then Some(omitted) else None
  }

  ghost predicate Accepts(l: Limits, cancelled: bool, key: string, entry: Entry, ttl: int, now: int) {
    && !cancelled && key != "" && ttl > 0 && l.maxBytes > 0 && l.maxItems > 0
    && Kept(l, key, entry, now).Some?
  }

  /** The eviction loop: drop from the back until both bounds hold. */
  ghost function Evict(l: Limits, s: seq<Item>): seq<Item> {
    if s == [] || Fits(l, s) then s else Evict(l, s[..|s| - 1])
  }

  ghost predicate Tagged(item: Item, wanted: set<string>) {
    exists t :: t in item.entry.tags && t in wanted
  }

  ghost function Untagged(s: seq<Item>, wanted: set<string>): seq<Item> {
    if s == [] then []
    else (if Tagged(s[0], wanted) then [] else [s[0]]) + Untagged(s[1..], wanted)
  }

  ghost function AfterGet(s: seq<Item>, cancelled: bool, key: string, now: int): seq<Item> {
    var i := IndexOf(s, key);
    if cancelled || i == |s| then s
    else if now >= s[i].expiresAt then Without(s, key)
    else [s[i]] + Without(s, key)
  }

  ghost function Answer(s: seq<Item>, cancelled: bool, key: string, now: int): Option<Entry> {
    var i := IndexOf(s, key);
    if !cancelled && i < |s| && now < s[i].expiresAt then Some(s[i].entry) else None
  }

  ghost function AfterSet(l: Limits, s: seq<Item>, cancelled: bool, key: string, entry: Entry, ttl: int,
      now: int): seq<Item> {
    if Accepts(l, cancelled, key, entry, ttl, now) then
      var kept := Kept(l, key, entry, now).value;
      Evict(l, [Item(key, kept, now + ttl, EntrySize(key, kept))] + Without(s, key))
    else s
  }

  ghost function AfterDelete(s: seq<Item>, cancelled: bool, key: string): seq<Item> {
    if cancelled then s else Without(s, key)
  }

  ghost function AfterInvalidate(s: seq<Item>, cancelled: bool, tags: seq<string>): seq<Item> {
    if cancelled then s else Untagged(s, set t | t in tags)
  }

  /** Whether a body of `bodyBytes` could be kept with this entry's metadata. */
  ghost predicate BodyFits(l: Limits, key: string, entry: Entry, bodyBytes: int) {
    var metadata := EntrySize(key, entry.(body := []));
    bodyBytes >= 0 && metadata <= l.maxBytes && bodyBytes <= l.maxBytes - metadata
  }

  /** `EntryFits` promises exactly what a `Set` that reaches the size test does:
      the body of that length is kept whole. */
  lemma BodyFitsIffKept(l: Limits, key: string, entry: Entry, now: int)
    ensures BodyFits(l, key, entry, |entry.body|)
       <==> Kept(l, key, entry, now).Some? && Kept(l, key, entry, now).value.body == entry.body
  {
    if |entry.body| == 0 { assert entry.body == []; }
  }

  /** When a `Set` is accepted does not depend on its body. What it keeps is the entry
      itself, or the entry without a body that is too much. */
  lemma AcceptedIff(l: Limits, s: seq<Item>, cancelled: bool, key: string, entry: Entry, ttl: int, now: int)
    ensures Accepts(l, cancelled, key, entry, ttl, now)
       <==> !cancelled && key != "" && ttl > 0 && l.maxItems > 0
            && 0 < |key| + HeaderBytes(entry.header) + TextBytes(entry.tags) <= l.maxBytes
    ensures !Accepts(l, cancelled, key, entry, ttl, now) ==> AfterSet(l, s, cancelled, key, entry, ttl, now) == s
    ensures Accepts(l, cancelled, key, entry, ttl, now) ==>
      Kept(l, key, entry, now) == Some(
        if |key| + HeaderBytes(entry.header) + TextBytes(entry.tags) + |entry.body| <= l.maxBytes
        then Entry(entry.status, entry.header, entry.body, entry.bodyOmitted, now, entry.tags)
        else Entry(entry.status, entry.header, [], true, now, entry.tags))
  {
  }

  // --------------------------------------------- what the operations preserve

  /** Where position `j` of `Without(s, key)` comes from. */
  lemma WithoutAt(s: seq<Item>, key: string, j: nat)
    requires j < |Without(s, key)|
    ensures var k := if j < IndexOf(s, key) then j else j + 1;
            k < |s| && Without(s, key)[j] == s[k]
  {
  }

  lemma WithoutMembers(s: seq<Item>, key: string)
    requires DistinctKeys(s)
    ensures DistinctKeys(Without(s, key))
    ensures forall x :: x in Without(s, key) <==> x in s && x.key != key
  {
    var w, i := Without(s, key), IndexOf(s, key);
    if i < |s| {
      forall x ensures x in w <==> x in s && x.key != key {
        assert s == s[..i] + [s[i]] + s[i + 1..];
        assert x in s <==> x in s[..i] || x == s[i] || x in s[i + 1..];
        WithoutOtherKeys(s, i, x);
      }
      forall j, k | 0 <= j < k < |w| ensures w[j].key != w[k].key {
        WithoutAt(s, key, j);
        WithoutAt(s, key, k);
      }
    }
  }

  lemma WithoutOtherKeys(s: seq<Item>, i: nat, x: Item)
    requires DistinctKeys(s) && i < |s|
    ensures x in s[..i] || x in s[i + 1..] ==> x.key != s[i].key
  {
    if x in s[i + 1..] {
      var j :| 0 <= j < |s[i + 1..]| && s[i + 1..][j] == x;
      assert s[i + 1 + j] == x;
    }
  }

  lemma WithoutFacts(l: Limits, s: seq<Item>, key: string)
    requires WellFormed(l, s)
    ensures WellFormed(l, Without(s, key))
    ensures forall x :: x in Without(s, key) <==> x in s && x.key != key
  {
    WithoutMembers(s, key);
    var w, i := Without(s, key), IndexOf(s, key);
    forall j | 0 <= j < |w| ensures w[j].size == EntrySize(w[j].key, w[j].entry) {
      assert w[j] in s;
    }
    if i < |s| { TotalSizeDrop(s, i); }
  }

  /** `Set`'s eviction keeps exactly the longest most-recently-used prefix
      inside both bounds, and never the just inserted front's loss. */
  lemma {:induction false} EvictKeepsLongestPrefix(l: Limits, s: seq<Item>)
    requires l.maxItems > 0 && l.maxBytes > 0
    ensures var r := Evict(l, s);
            && |r| <= |s| && r == s[..|r|] && Fits(l, r)
            && (forall m :: |r| < m <= |s| ==> !Fits(l, s[..m]))
            && (s != [] && s[0].size <= l.maxBytes ==> r != [] && r[0] == s[0])
  {
    if s != [] && !Fits(l, s) {
      var t := s[..|s| - 1];
      EvictKeepsLongestPrefix(l, t);
      assert forall m :: 0 <= m <= |t| ==> t[..m] == s[..m];
      assert s[..|s|] == s;
      if |s| == 1 { assert TotalSize(s) == s[0].size + TotalSize(s[1..]); }
    } else {
      assert s[..|s|] == s;
    }
  }

  lemma SetKeepsWellFormed(l: Limits, s: seq<Item>, cancelled: bool, key: string, entry: Entry, ttl: int, now: int)
    requires WellFormed(l, s)
    ensures WellFormed(l, AfterSet(l, s, cancelled, key, entry, ttl, now))
  {
    if Accepts(l, cancelled, key, entry, ttl, now) {
      var kept := Kept(l, key, entry, now).value;
      var w := Without(s, key);
      var full := [Item(key, kept, now + ttl, EntrySize(key, kept))] + w;
      WithoutFacts(l, s, key);
      EvictKeepsLongestPrefix(l, full);
      forall j, k | 0 <= j < k < |full| ensures full[j].key != full[k].key {
        assert full[k] == w[k - 1] && full[k] in w;
        if j > 0 { assert full[j] == w[j - 1]; }
      }
      forall j | 0 <= j < |full| ensures full[j].size == EntrySize(full[j].key, full[j].entry) {
        if j > 0 { assert full[j] == w[j - 1]; }
      }
    }
  }

  lemma SetAccepted(l: Limits, s: seq<Item>, cancelled: bool, key: string, entry: Entry, ttl: int, now: int, item: Item)
    requires WellFormed(l, s) && Accepts(l, cancelled, key, entry, ttl, now)
    requires item.key == key && item.expiresAt == now + ttl && item.size == EntrySize(key, item.entry)
    requires item.entry == Kept(l, key, entry, now).value
    ensures AfterSet(l, s, cancelled, key, entry, ttl, now) == Evict(l, [item] + Without(s, key))
    ensures WellFormed(l, Evict(l, [item] + Without(s, key)))
  {
    SetKeepsWellFormed(l, s, cancelled, key, entry, ttl, now);
  }

  ghost predicate InOrder(s: seq<Item>, x: Item, y: Item) {
    exists a, b :: 0 <= a < b < |s| && s[a] == x && s[b] == y
  }

  lemma InOrderTail(s: seq<Item>, x: Item, y: Item)
    requires s != [] && InOrder(s[1..], x, y)
    ensures InOrder(s, x, y)
  {
    var a, b :| 0 <= a < b < |s[1..]| && s[1..][a] == x && s[1..][b] == y;
    assert s[a + 1] == x && s[b + 1] == y;
  }

  lemma InOrderHead(s: seq<Item>, y: Item)
    requires s != [] && y in s[1..]
    ensures InOrder(s, s[0], y)
  {
    var b :| 0 <= b < |s[1..]| && s[1..][b] == y;
    assert s[b + 1] == y;
  }

  lemma {:induction false} UntaggedMembers(s: seq<Item>, wanted: set<string>)
    ensures var r := Untagged(s, wanted);
            && |r| <= |s| && TotalSize(r) <= TotalSize(s)
            && (forall x :: x in r <==> x in s && !Tagged(x, wanted))
  {
    if s != [] {
      UntaggedMembers(s[1..], wanted);
      assert forall x :: x in s <==> x == s[0] || x in s[1..];
      var t := Untagged(s[1..], wanted);
      if !Tagged(s[0], wanted) {
        assert Untagged(s, wanted) == [s[0]] + t && ([s[0]] + t)[1..] == t;
      } else {
        assert Untagged(s, wanted) == t;
      }
    }
  }

  /** The invalidation walk removes exactly the entries carrying a wanted tag
      and keeps the order of the others. */
  lemma {:induction false} UntaggedFacts(s: seq<Item>, wanted: set<string>)
    ensures var r := Untagged(s, wanted);
            && |r| <= |s| && TotalSize(r) <= TotalSize(s)
            && (forall x :: x in r <==> x in s && !Tagged(x, wanted))
            && Ordered(s, r)
  {
    UntaggedMembers(s, wanted);
    UntaggedOrder(s, wanted);
  }

  lemma {:induction false} UntaggedOrder(s: seq<Item>, wanted: set<string>)
    ensures Ordered(s, Untagged(s, wanted))
  {
    if s != [] {
      UntaggedOrder(s[1..], wanted);
      UntaggedMembers(s[1..], wanted);
      var t := Untagged(s[1..], wanted);
      OrderedTail(s, t);
      if Tagged(s[0], wanted) { assert Untagged(s, wanted) == t; } else { OrderedHead(s, t); }
    }
  }

  /** `t` lists items of `s` in their order. */
  ghost predicate Ordered(s: seq<Item>, t: seq<Item>) { forall i, j :: 0 <= i < j < |t| ==> InOrder(s, t[i], t[j]) }

  lemma OrderedTail(s: seq<Item>, t: seq<Item>)
    requires s != [] && Ordered(s[1..], t)
    ensures Ordered(s, t)
  {
    forall i, j | 0 <= i < j < |t| ensures InOrder(s, t[i], t[j]) { InOrderTail(s, t[i], t[j]); }
  }

  lemma OrderedHead(s: seq<Item>, t: seq<Item>)
    requires s != [] && Ordered(s, t) && forall x :: x in t ==> x in s[1..]
    ensures Ordered(s, [s[0]] + t)
  {
    var r := [s[0]] + t;
    forall i, j | 0 <= i < j < |r| ensures InOrder(s, r[i], r[j]) {
      assert r[j] == t[j - 1] && t[j - 1] in t;
      if i == 0 { InOrderHead(s, r[j]); } else { assert InOrder(s, t[i - 1], t[j - 1]); }
    }
  }

  lemma {:induction false} UntaggedNothing(s: seq<Item>)
    ensures Untagged(s, {}) == s
  {
    if s != [] { UntaggedNothing(s[1..]); }
  }

  /** One step of the walk, which goes from the back towards the front. */
  lemma UntaggedFrom(s: seq<Item>, k: nat, wanted: set<string>)
    requires k < |s|
    ensures Untagged(s[k..], wanted) == (if Tagged(s[k], wanted) then [] else [s[k]]) + Untagged(s[k + 1..], wanted)
    ensures s[..k + 1] == s[..k] + [s[k]]
  {
    assert s[k..][1..] == s[k + 1..];
  }

  lemma InvalidateKeepsWellFormed(l: Limits, s: seq<Item>, wanted: set<string>)
    requires WellFormed(l, s)
    ensures WellFormed(l, Untagged(s, wanted))
  {
    var r := Untagged(s, wanted);
    UntaggedFacts(s, wanted);
    forall i, j | 0 <= i < j < |r| ensures r[i].key != r[j].key {
      assert InOrder(s, r[i], r[j]);
    }
    forall i | 0 <= i < |r| ensures r[i].size == EntrySize(r[i].key, r[i].entry) {
      assert r[i] in s;
    }
  }

  // ------------------------------------------------------------ whole runs

  datatype Op =
    | Get(cancelled: bool, key: string, now: int)
    | Set(cancelled: bool, key: string, entry: Entry, ttl: int, now: int)
    | Delete(cancelled: bool, key: string)
    | Invalidate(cancelled: bool, tags: seq<string>)
    | Close

  ghost function After(l: Limits, s: seq<Item>, op: Op): seq<Item> {
    match op
    case Get(cancelled, key, now) => AfterGet(s, cancelled, key, now)
    case Set(cancelled, key, entry, ttl, now) => AfterSet(l, s, cancelled, key, entry, ttl, now)
    case Delete(cancelled, key) => AfterDelete(s, cancelled, key)
    case Invalidate(cancelled, tags) => AfterInvalidate(s, cancelled, tags)
    case Close => []
  }

  ghost function Run(l: Limits, ops: seq<Op>): seq<Item> {
    if ops == [] then [] else After(l, Run(l, ops[..|ops| - 1]), ops[|ops| - 1])
  }

  datatype Slot = Slot(entry: Entry, expiresAt: int)

  /** The plain timed history the cache refines, read backwards for one key: the
      last accepted `Set`, unless something took it away since. It has no
      order, no bounds and no list. */
  ghost function LastAccepted(l: Limits, ops: seq<Op>, key: string): Option<Slot> {
    if ops == [] then None
    else
      var earlier := LastAccepted(l, ops[..|ops| - 1], key);
      match ops[|ops| - 1]
      case Get(_, _, _) => earlier
      case Set(cancelled, k, entry, ttl, now) =>
        if k == key && Accepts(l, cancelled, k, entry, ttl, now)
        then Some(Slot(Kept(l, k, entry, now).value, now + ttl))
        else earlier
      case Delete(cancelled, k) => if k == key && !cancelled then None else earlier
      case Invalidate(cancelled, tags) =>
        if earlier.Some? && !cancelled && (exists t :: t in earlier.value.entry.tags && t in tags)
        then None else earlier
      case Close => None
  }

  ghost predicate Refines(l: Limits, ops: seq<Op>, s: seq<Item>) {
    forall x :: x in s ==> LastAccepted(l, ops, x.key) == Some(Slot(x.entry, x.expiresAt))
  }

  lemma GetFacts(l: Limits, s: seq<Item>, cancelled: bool, key: string, now: int)
    requires WellFormed(l, s)
    ensures WellFormed(l, AfterGet(s, cancelled, key, now))
    ensures forall x :: x in AfterGet(s, cancelled, key, now) ==> x in s
  {
    var i := IndexOf(s, key);
    if !cancelled && i < |s| {
      var w := Without(s, key);
      WithoutFacts(l, s, key);
      TotalSizeDrop(s, i);
      if now < s[i].expiresAt { MovedToFrontWellFormed(l, s, i, w); }
    }
  }

  lemma MovedToFrontWellFormed(l: Limits, s: seq<Item>, i: nat, w: seq<Item>)
    requires WellFormed(l, s) && WellFormed(l, w) && i < |s| && |w| == |s| - 1
    requires TotalSize(w) == TotalSize(s) - s[i].size
    requires forall x :: x in w ==> x in s && x.key != s[i].key
    ensures WellFormed(l, [s[i]] + w)
    ensures forall x :: x in [s[i]] + w ==> x in s
  {
    var r := [s[i]] + w;
    assert r[1..] == w;
    forall j, k | 0 <= j < k < |r| ensures r[j].key != r[k].key {
      assert r[k] == w[k - 1] && r[k] in w;
      if j > 0 { assert r[j] == w[j - 1]; }
    }
    forall j | 0 <= j < |r| ensures r[j].size == EntrySize(r[j].key, r[j].entry) {
      if j > 0 { assert r[j] == w[j - 1]; }
    }
  }

  /** An accepted `Set` puts the new item in front, ahead of earlier items
      under other keys. */
  lemma SetFacts(l: Limits, s: seq<Item>, op: Op)
    requires WellFormed(l, s) && op.Set?
    requires Accepts(l, op.cancelled, op.key, op.entry, op.ttl, op.now)
    ensures var r := After(l, s, op); var kept := Kept(l, op.key, op.entry, op.now).value;
            && WellFormed(l, r)
            && r != [] && r[0] == Item(op.key, kept, op.now + op.ttl, EntrySize(op.key, kept))
            && (forall x :: x in r[1..] ==> x in s && x.key != op.key)
  {
    SetKeepsWellFormed(l, s, op.cancelled, op.key, op.entry, op.ttl, op.now);
    WithoutFacts(l, s, op.key);
    var kept := Kept(l, op.key, op.entry, op.now).value;
    var item := Item(op.key, kept, op.now + op.ttl, EntrySize(op.key, kept));
    EvictAhead(l, item, Without(s, op.key));
  }

  lemma EvictAhead(l: Limits, item: Item, w: seq<Item>)
    requires l.maxItems > 0 && l.maxBytes > 0 && item.size <= l.maxBytes
    ensures var r := Evict(l, [item] + w);
            r != [] && r[0] == item && forall x :: x in r[1..] ==> x in w
  {
    var full := [item] + w;
    EvictKeepsLongestPrefix(l, full);
    var r := Evict(l, full);
    assert full[1..] == w;
    assert r[1..] == w[..|r| - 1];
  }

  lemma {:induction false} RunRefines(l: Limits, ops: seq<Op>)
    ensures WellFormed(l, Run(l, ops)) && Refines(l, ops, Run(l, ops))
  {
    if ops != [] {
      RunRefines(l, ops[..|ops| - 1]);
      StepRefines(l, ops, Run(l, ops[..|ops| - 1]));
    }
  }

  /** What one operation leaves: well formed, and what the history says. */
  ghost predicate StepOk(l: Limits, ops: seq<Op>, s: seq<Item>) {
    ops != [] && WellFormed(l, After(l, s, ops[|ops| - 1])) && Refines(l, ops, After(l, s, ops[|ops| - 1]))
  }

  lemma GetRefines(l: Limits, ops: seq<Op>, s: seq<Item>)
    requires ops != [] && ops[|ops| - 1].Get? && WellFormed(l, s) && Refines(l, ops[..|ops| - 1], s)
    ensures StepOk(l, ops, s)
  {
    var op := ops[|ops| - 1];
    GetFacts(l, s, op.cancelled, op.key, op.now);
  }

  lemma SetRefines(l: Limits, ops: seq<Op>, s: seq<Item>)
    requires ops != [] && ops[|ops| - 1].Set? && WellFormed(l, s) && Refines(l, ops[..|ops| - 1], s)
    ensures StepOk(l, ops, s)
  {
    var op := ops[|ops| - 1];
    var r := After(l, s, op);
    if Accepts(l, op.cancelled, op.key, op.entry, op.ttl, op.now) {
      SetFacts(l, s, op);
      forall x | x in r ensures LastAccepted(l, ops, x.key) == Some(Slot(x.entry, x.expiresAt)) {
        if x != r[0] { assert x in r[1..]; }
      }
    } else {
      assert r == s;
    }
  }

  lemma DeleteRefines(l: Limits, ops: seq<Op>, s: seq<Item>)
    requires ops != [] && ops[|ops| - 1].Delete? && WellFormed(l, s) && Refines(l, ops[..|ops| - 1], s)
    ensures StepOk(l, ops, s)
  {
    WithoutFacts(l, s, ops[|ops| - 1].key);
  }

  lemma InvalidateRefines(l: Limits, ops: seq<Op>, s: seq<Item>)
    requires ops != [] && ops[|ops| - 1].Invalidate? && WellFormed(l, s) && Refines(l, ops[..|ops| - 1], s)
    ensures StepOk(l, ops, s)
  {
    var op := ops[|ops| - 1];
    if !op.cancelled {
      var wanted := set t | t in op.tags;
      UntaggedFacts(s, wanted);
      InvalidateKeepsWellFormed(l, s, wanted);
      assert forall x :: x in After(l, s, op) ==> !Tagged(x, wanted);
    }
  }

  lemma StepRefines(l: Limits, ops: seq<Op>, s: seq<Item>)
    requires ops != [] && WellFormed(l, s) && Refines(l, ops[..|ops| - 1], s)
    ensures WellFormed(l, After(l, s, ops[|ops| - 1])) && Refines(l, ops, After(l, s, ops[|ops| - 1]))
  {
    match ops[|ops| - 1]
    case Get(_, _, _) => GetRefines(l, ops, s);
    case Set(_, _, _, _, _) => SetRefines(l, ops, s);
    case Delete(_, _) => DeleteRefines(l, ops, s);
    case Invalidate(_, _) => InvalidateRefines(l, ops, s);
    case Close =>
  }

  /** Asking twice at one instant gives one answer. */
  lemma GetAgain(l: Limits, s: seq<Item>, key: string, now: int)
    requires WellFormed(l, s)
    ensures Answer(AfterGet(s, false, key, now), false, key, now) == Answer(s, false, key, now)
  {
    WithoutFacts(l, s, key);
    FindMember(Without(s, key), key);
  }

  lemma FindMember(s: seq<Item>, key: string)
    ensures var i := IndexOf(s, key); i < |s| ==> s[i] in s
  {
  }

  /** The cache refines the timed history: after any run, what `Get` answers is
      the last accepted `Set` of that key, unexpired, and not deleted,
      invalidated or closed since. */
  lemma AnswerIsLastAccepted(l: Limits, ops: seq<Op>, cancelled: bool, key: string, now: int)
    ensures var a := Answer(Run(l, ops), cancelled, key, now);
            var slot := LastAccepted(l, ops, key);
            a.Some? ==> slot.Some? && slot.value.entry == a.value && now < slot.value.expiresAt
  {
    RunRefines(l, ops);
    FindMember(Run(l, ops), key);
  }

  /** An accepted `Set` is served until it expires, whatever the cache held. */
  lemma AcceptedSetIsServed(l: Limits, ops: seq<Op>, op: Op, later: int)
    requires op.Set? && Accepts(l, op.cancelled, op.key, op.entry, op.ttl, op.now)
    ensures Answer(Run(l, ops + [op]), false, op.key, later)
         == (if later < op.now + op.ttl then Kept(l, op.key, op.entry, op.now) else None)
  {
    RunRefines(l, ops);
    SetFacts(l, Run(l, ops), op);
    assert (ops + [op])[..|ops|] == ops;
  }

  /** A well-formed `Set` makes `Get` answer with what it stored or a miss,
      exactly when it was accepted or the key was not being served before. A
      refused one leaves the older entry in place. */
  lemma OnlyLastSetServed(l: Limits, ops: seq<Op>, op: Op)
    requires op.Set? && !op.cancelled && op.key != "" && op.ttl > 0 && l.maxBytes > 0 && l.maxItems > 0
    ensures var before := Answer(Run(l, ops), false, op.key, op.now);
            var answer := Answer(Run(l, ops + [op]), false, op.key, op.now);
            var kept := Kept(l, op.key, op.entry, op.now);
            (answer.None? || answer == kept) <==> (kept.Some? || before.None?)
  {
    assert (ops + [op])[..|ops|] == ops;
    if Kept(l, op.key, op.entry, op.now).Some? { AcceptedSetIsServed(l, ops, op, op.now); }
  }

  /** Whether an entry is refused depends on its key, header and tags alone: what
      replaces an entry still held, with the same header and tags, is accepted. */
  lemma ReplacementAccepted(l: Limits, ops: seq<Op>, key: string, entry: Entry, now: int)
    requires Holds(Run(l, ops), key)
    requires var held := Run(l, ops)[IndexOf(Run(l, ops), key)].entry;
      held.header == entry.header && held.tags == entry.tags
    ensures Kept(l, key, entry, now).Some? && l.maxItems > 0
    ensures var kept := Kept(l, key, entry, now).value;
      kept.bodyOmitted != entry.bodyOmitted ==> kept.body == [] && |entry.body| > 0
  {
    var s := Run(l, ops);
    var i := IndexOf(s, key);
    RunRefines(l, ops);
    HeldSize(l, s, i);
    assert s[i].size == EntrySize(key, s[i].entry);
    assert EntrySize(key, entry.(storedAt := now, body := [], bodyOmitted := true)) == EntrySize(key,
      s[i].entry) - |s[i].entry.body|;
  }

  lemma HeldSize(l: Limits, s: seq<Item>, i: nat)
    requires WellFormed(l, s) && i < |s|
    ensures s[i].size <= TotalSize(s) <= l.maxBytes && l.maxItems > 0
  {
    TotalSizeDrop(s, i);
  }

  /** With a three byte cache: the second `Set` of "k" is refused because its
      header alone is too long, and `Get` still answers the first. */
  lemma RefusedSetExample()
    ensures var l := Limits(3, 8);
            var small := Entry(200, map[], [1], false, 0, []);
            var wide := Entry(200, map["a" := ["bcd"]], [], false, 0, []);
            var ops := [Set(false, "k", small, 10, 0), Set(false, "k", wide, 10, 1)];
            Answer(Run(l, ops), false, "k", 1) == Some(small)
  {
    var l := Limits(3, 8);
    var small := Entry(200, map[], [1], false, 0, []);
    var wide := Entry(200, map["a" := ["bcd"]], [], false, 0, []);
    var first, second := Set(false, "k", small, 10, 0), Set(false, "k", wide, 10, 1);
    HeaderBytesAnyOrder(wide.header, "a");
    assert ([first] + [second])[..1] == [first] && [first] + [second] == [first, second];
    assert ([] + [first])[..0] == [] && [] + [first] == [first];
    AcceptedSetIsServed(l, [], first, 1);
    assert Run(l, [first, second]) == After(l, Run(l, [first]), second);
  }
}
