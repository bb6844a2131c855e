/** That internal/cache/cache.go keeps what was used last: `Get` and `Set` move an item to
    the front, nothing else reorders, and an item stays while it and what was used after
    it fit both bounds. */
module CacheRetention {
  import opened Common
  import opened CacheModel

  // ------------------------------------------------------------- single steps

  /** The key's item after a `Get`: in front on a hit, gone alone when expired. */
  lemma GetOrder(l: Limits, s: seq<Item>, cancelled: bool, key: string, now: int, i: nat)
    requires WellFormed(l, s) && i < |s| && s[i].key == key
    ensures var r := After(l, s, Get(cancelled, key, now));
      r == if cancelled then s
           else if now < s[i].expiresAt then [s[i]] + s[..i] + s[i + 1..]
           else s[..i] + s[i + 1..]
  {
    var k := IndexOf(s, key);
    assert k < |s| && s[k].key == s[i].key;
    assert k == i;
  }

  /** A `Get` of an absent key changes nothing, and neither does a `Delete`. */
  lemma AbsentKey(l: Limits, s: seq<Item>, cancelled: bool, key: string, now: int)
    requires forall x :: x in s ==> x.key != key
    ensures After(l, s, Get(cancelled, key, now)) == s && After(l, s, Delete(cancelled, key)) == s
  {
    forall j | 0 <= j < |s| ensures s[j].key != key { assert s[j] in s; }
  }

  /** A `Delete` takes away the key's item alone. */
  lemma DeleteOrder(l: Limits, s: seq<Item>, cancelled: bool, key: string, i: nat)
    requires WellFormed(l, s) && i < |s| && s[i].key == key
    ensures After(l, s, Delete(cancelled, key)) == if cancelled then s else s[..i] + s[i + 1..]
  {
    var k := IndexOf(s, key);
    assert k < |s| && s[k].key == s[i].key;
    assert k == i;
  }

  // ------------------------------------------------------------------- usage

  ghost function SumSizes(m: map<string, nat>): nat {
    if m == map[] then 0
    else var key :| key in m;
         m[key] + SumSizes(m - {key})
  }

  lemma {:induction false} SumAnyOrder(m: map<string, nat>, key: string)
    requires key in m
    ensures SumSizes(m) == m[key] + SumSizes(m - {key})
    decreases |m|
  {
    var first :| first in m && SumSizes(m) == m[first] + SumSizes(m - {first});
    if first != key {
      assert |m - {first}| < |m| by { assert (m - {first}).Keys == m.Keys - {first}; }
      assert |m - {key}| < |m| by { assert (m - {key}).Keys == m.Keys - {key}; }
      SumAnyOrder(m - {first}, key);
      SumAnyOrder(m - {key}, first);
      assert m - {first} - {key} == m - {key} - {first};
    }
  }

  /** Whether an operation leaves the item alone, but for its place: it does not set,
      delete, invalidate or close it, nor ask for it when it has expired. */
  ghost predicate Spares(l: Limits, op: Op, x: Item) {
    match op
    case Get(cancelled, key, now) => cancelled || key != x.key || now < x.expiresAt
    case Set(cancelled, key, entry, ttl, now) => key != x.key || !Accepts(l, cancelled, key, entry, ttl, now)
    case Delete(cancelled, key) => cancelled || key != x.key
    case Invalidate(cancelled, tags) => cancelled || forall t :: t in tags ==> t !in x.entry.tags
    case Close => false
  }

  /** The other items used by then, by key, with the size each had at its last use: an
      accepted `Set` and a `Get` that hits are uses. */
  ghost function Used(l: Limits, s: seq<Item>, m: map<string, nat>, op: Op, key: string): map<string, nat> {
    match op
    case Set(cancelled, k, entry, ttl, now) =>
      if k != key && Accepts(l, cancelled, k, entry, ttl, now)
      then m[k := EntrySize(k, Kept(l, k, entry, now).value)] else m
    case Get(cancelled, k, now) =>
      if k != key && Answer(s, cancelled, k, now).Some?
      then m[k := EntrySize(k, Answer(s, cancelled, k, now).value)] else m
    case _ => m
  }

  ghost function RunFrom(l: Limits, s: seq<Item>, ops: seq<Op>): seq<Item> {
    if ops == [] then s else After(l, RunFrom(l, s, ops[..|ops| - 1]), ops[|ops| - 1])
  }

  ghost function UsedSince(l: Limits, s: seq<Item>, ops: seq<Op>, key: string): map<string, nat> {
    if ops == [] then map[]
    else
      var n := |ops| - 1;
      Used(l, RunFrom(l, s, ops[..n]), UsedSince(l, s, ops[..n], key), ops[n], key)
  }

  /** The item and what was used since fit both bounds, at every moment of the run. */
  ghost predicate AlwaysFits(l: Limits, s: seq<Item>, ops: seq<Op>, x: Item) {
    && (ops != [] ==> AlwaysFits(l, s, ops[..|ops| - 1], x))
    && var m := UsedSince(l, s, ops, x.key);
       |m| + 1 <= l.maxItems && SumSizes(m) + x.size <= l.maxBytes
  }

  // ---------------------------------------------------------- what is ahead

  /** Items of a list that are among the used ones, with their sizes. */
  ghost predicate Among(a: seq<Item>, m: map<string, nat>) {
    forall y :: y in a ==> y.key in m && y.size == m[y.key]
  }

  /** The list has `x`, and ahead of it only used items. */
  ghost predicate HasBehind(s: seq<Item>, x: Item, m: map<string, nat>) {
    exists a, b :: Split(s, a, x, b) && Among(a, m)
  }

  ghost predicate Split(s: seq<Item>, a: seq<Item>, x: Item, b: seq<Item>) { s == a + [x] + b }

  lemma {:induction false} AmongSize(a: seq<Item>, m: map<string, nat>)
    requires DistinctKeys(a) && Among(a, m)
    ensures TotalSize(a) <= SumSizes(m) && |a| <= |m|
  {
    if a != [] {
      var key, rest := a[0].key, a[1..];
      assert a[0] in a;
      forall y | y in rest ensures y.key in m - {key} && y.size == (m - {key})[y.key] {
        var j :| 0 <= j < |rest| && rest[j] == y;
        assert a[j + 1] == y && y in a;
      }
      AmongSize(rest, m - {key});
      SumAnyOrder(m, key);
      assert (m - {key}).Keys == m.Keys - {key};
    }
  }

  function Cut(s: seq<Item>, i: nat): seq<Item>
    requires i < |s|
  {
    s[..i] + s[i + 1..]
  }

  lemma CutLeft(u: seq<Item>, v: seq<Item>, i: nat)
    requires i < |u|
    ensures Cut(u + v, i) == Cut(u, i) + v
  {
    assert (u + v)[..i] == u[..i] && (u + v)[i + 1..] == u[i + 1..] + v;
  }

  lemma CutRight(u: seq<Item>, v: seq<Item>, i: nat)
    requires i < |v|
    ensures Cut(u + v, |u| + i) == u + Cut(v, i)
  {
    assert (u + v)[..|u| + i] == u + v[..i] && (u + v)[|u| + i + 1..] == v[i + 1..];
  }

  lemma WithoutLeft(u: seq<Item>, v: seq<Item>, key: string)
    requires IndexOf(u + v, key) == IndexOf(u, key) < |u|
    ensures Without(u + v, key) == Without(u, key) + v
  {
    CutLeft(u, v, IndexOf(u, key));
  }

  lemma WithoutRight(u: seq<Item>, v: seq<Item>, key: string)
    requires IndexOf(u + v, key) == |u| + IndexOf(v, key)
    ensures Without(u + v, key) == u + Without(v, key)
  {
    if IndexOf(v, key) < |v| { CutRight(u, v, IndexOf(v, key)); }
  }

  lemma Regroup(a: seq<Item>, x: Item, b: seq<Item>)
    ensures a + [x] + b == a + ([x] + b)
  {
  }

  lemma WithoutAhead(s: seq<Item>, a: seq<Item>, x: Item, b: seq<Item>, key: string)
    requires Split(s, a, x, b) && IndexOf(s, key) == IndexOf(a, key) < |a|
    ensures Split(Without(s, key), Without(a, key), x, b)
  {
    Regroup(a, x, b);
    WithoutLeft(a, [x] + b, key);
    Regroup(Without(a, key), x, b);
  }

  /** Taking one key away from a list leaves what is at either side of another in place. */
  lemma WithoutOther(s: seq<Item>, a: seq<Item>, x: Item, b: seq<Item>, key: string)
    requires Split(s, a, x, b) && key != x.key
    ensures if IndexOf(a, key) < |a| then Split(Without(s, key), Without(a, key), x, b)
            else Split(Without(s, key), a, x, Without(b, key))
  {
    IndexIn(a, x, b, key);
    if IndexOf(a, key) < |a| { WithoutAhead(s, a, x, b, key); } else { WithoutRight(a + [x], b, key); }
  }

  lemma {:induction false} IndexIn(a: seq<Item>, x: Item, b: seq<Item>, key: string)
    requires key != x.key
    ensures IndexOf(a + [x] + b, key) == if IndexOf(a, key) < |a| then IndexOf(a, key) else |a| + 1 + IndexOf(b, key)
  {
    if a == [] {
      assert (a + [x] + b)[1..] == b;
    } else {
      assert (a + [x] + b)[1..] == a[1..] + [x] + b;
      IndexIn(a[1..], x, b, key);
    }
  }

  /** So `x` stays behind used items only. */
  lemma WithoutBehind(s: seq<Item>, x: Item, m: map<string, nat>, key: string)
    requires HasBehind(s, x, m) && key != x.key
    ensures HasBehind(Without(s, key), x, m)
  {
    var a, b :| Split(s, a, x, b) && Among(a, m);
    WithoutOther(s, a, x, b, key);
    if IndexOf(a, key) < |a| {
      assert Among(Without(a, key), m) && Split(Without(s, key), Without(a, key), x, b);
    } else {
      assert Split(Without(s, key), a, x, Without(b, key));
    }
  }

  lemma {:induction false} UntaggedConcat(a: seq<Item>, b: seq<Item>, wanted: set<string>)
    ensures Untagged(a + b, wanted) == Untagged(a, wanted) + Untagged(b, wanted)
  {
    if a == [] {
      assert a + b == b;
    } else {
      assert (a + b)[1..] == a[1..] + b;
      UntaggedConcat(a[1..], b, wanted);
    }
  }

  lemma UntaggedBehind(s: seq<Item>, x: Item, m: map<string, nat>, wanted: set<string>)
    requires HasBehind(s, x, m) && !Tagged(x, wanted)
    ensures HasBehind(Untagged(s, wanted), x, m)
  {
    var a, b :| Split(s, a, x, b) && Among(a, m);
    UntaggedConcat(a + [x], b, wanted);
    UntaggedConcat(a, [x], wanted);
    UntaggedMembers(a, wanted);
    assert Untagged([x], wanted) == [x] + Untagged([x][1..], wanted);
    assert Split(Untagged(s, wanted), Untagged(a, wanted), x, Untagged(b, wanted));
  }

  /** A used item comes to the front. */
  lemma FrontBehind(s: seq<Item>, x: Item, m: map<string, nat>, y: Item)
    requires HasBehind(s, x, m) && y.key != x.key && forall z :: z in s ==> z.key != y.key
    ensures HasBehind([y] + s, x, m[y.key := y.size])
  {
    var a, b :| Split(s, a, x, b) && Among(a, m);
    assert forall z :: z in a ==> z in s;
    assert Among([y] + a, m[y.key := y.size]);
    assert Split([y] + s, [y] + a, x, b);
  }

  /** Eviction spares a prefix that fits. */
  lemma PrefixStays(l: Limits, s: seq<Item>, n: nat)
    requires l.maxItems > 0 && l.maxBytes > 0 && n <= |s| && Fits(l, s[..n])
    ensures n <= |Evict(l, s)| && Evict(l, s)[..n] == s[..n]
  {
    EvictKeepsLongestPrefix(l, s);
    assert !(|Evict(l, s)| < n);
  }

  /** An item fits with the used ones ahead of it. */
  lemma AheadFits(l: Limits, a: seq<Item>, x: Item, m: map<string, nat>)
    requires DistinctKeys(a) && Among(a, m) && |m| + 1 <= l.maxItems && SumSizes(m) + x.size <= l.maxBytes
    ensures Fits(l, a + [x])
  {
    AmongSize(a, m);
    TotalSizeConcat(a, [x]);
    assert TotalSize([x]) == x.size + TotalSize([x][1..]);
  }

  lemma EvictBehind(l: Limits, s: seq<Item>, x: Item, m: map<string, nat>)
    requires HasBehind(s, x, m) && DistinctKeys(s) && |m| + 1 <= l.maxItems && SumSizes(m) + x.size <= l.maxBytes
    requires l.maxItems > 0 && l.maxBytes > 0
    ensures HasBehind(Evict(l, s), x, m)
  {
    var a, b :| Split(s, a, x, b) && Among(a, m);
    var n := |a| + 1;
    assert forall j :: 0 <= j < |a| ==> a[j] == s[j];
    AheadFits(l, a, x, m);
    assert s[..n] == a + [x];
    PrefixStays(l, s, n);
    var r := Evict(l, s);
    assert r == r[..n] + r[n..];
    assert Split(r, a, x, r[n..]);
  }

  // --------------------------------------------------------------- one step

  lemma BehindIndex(l: Limits, s: seq<Item>, x: Item, m: map<string, nat>) returns (i: nat)
    requires WellFormed(l, s) && HasBehind(s, x, m)
    ensures i < |s| && s[i] == x && IndexOf(s, x.key) == i
  {
    var a, b :| Split(s, a, x, b) && Among(a, m);
    i := |a|;
    var k := IndexOf(s, x.key);
    assert s[i] == x && s[k].key == s[i].key;
  }

  lemma HitBehind(l: Limits, s: seq<Item>, x: Item, m: map<string, nat>, y: Item)
    requires WellFormed(l, s) && HasBehind(s, x, m) && y.key != x.key
    ensures HasBehind([y] + Without(s, y.key), x, m[y.key := y.size])
  {
    WithoutBehind(s, x, m, y.key);
    WithoutFacts(l, s, y.key);
    FrontBehind(Without(s, y.key), x, m, y);
  }

  lemma OwnHit(s: seq<Item>, x: Item, m: map<string, nat>)
    ensures HasBehind([x] + Without(s, x.key), x, m)
  {
    assert Split([x] + Without(s, x.key), [], x, Without(s, x.key)) && Among([], m);
  }

  lemma GetBehind(l: Limits, s: seq<Item>, x: Item, m: map<string, nat>, op: Op)
    requires WellFormed(l, s) && HasBehind(s, x, m) && op.Get? && Spares(l, op, x)
    ensures HasBehind(After(l, s, op), x, Used(l, s, m, op, x.key))
  {
    var k := IndexOf(s, op.key);
    if !op.cancelled && k < |s| {
      if op.key == x.key {
        var i := BehindIndex(l, s, x, m);
        OwnHit(s, x, m);
      } else if op.now < s[k].expiresAt {
        HitBehind(l, s, x, m, s[k]);
        assert s[k].size == EntrySize(s[k].key, s[k].entry);
      } else {
        WithoutBehind(s, x, m, op.key);
      }
    }
  }

  lemma SetBehind(l: Limits, s: seq<Item>, x: Item, m: map<string, nat>, op: Op)
    requires WellFormed(l, s) && HasBehind(s, x, m) && op.Set? && Spares(l, op, x)
    requires var u := Used(l, s, m, op, x.key); |u| + 1 <= l.maxItems && SumSizes(u) + x.size <= l.maxBytes
    ensures HasBehind(After(l, s, op), x, Used(l, s, m, op, x.key))
  {
    if Accepts(l, op.cancelled, op.key, op.entry, op.ttl, op.now) {
      var kept := Kept(l, op.key, op.entry, op.now).value;
      var item := Item(op.key, kept, op.now + op.ttl, EntrySize(op.key, kept));
      var w := Without(s, op.key);
      WithoutBehind(s, x, m, op.key);
      WithoutFacts(l, s, op.key);
      FrontBehind(w, x, m, item);
      InFrontDistinct(item, w);
      EvictBehind(l, [item] + w, x, Used(l, s, m, op, x.key));
    }
  }

  lemma InFrontDistinct(item: Item, w: seq<Item>)
    requires DistinctKeys(w) && forall z :: z in w ==> z.key != item.key
    ensures DistinctKeys([item] + w)
  {
    var r := [item] + w;
    forall i, j | 0 <= i < j < |r| ensures r[i].key != r[j].key { assert r[j] == w[j - 1] && w[j - 1] in w; }
  }

  lemma StepBehind(l: Limits, s: seq<Item>, x: Item, m: map<string, nat>, op: Op)
    requires WellFormed(l, s) && HasBehind(s, x, m) && Spares(l, op, x)
    requires var u := Used(l, s, m, op, x.key); |u| + 1 <= l.maxItems && SumSizes(u) + x.size <= l.maxBytes
    ensures HasBehind(After(l, s, op), x, Used(l, s, m, op, x.key))
  {
    match op
    case Get(_, _, _) => GetBehind(l, s, x, m, op);
    case Set(_, _, _, _, _) => SetBehind(l, s, x, m, op);
    case Delete(cancelled, key) => if !cancelled { WithoutBehind(s, x, m, key); }
    case Invalidate(cancelled, tags) => if !cancelled { UntaggedBehind(s, x, m, set t | t in tags); }
  }

  // ------------------------------------------------------------- whole runs

  lemma AfterWellFormed(l: Limits, s: seq<Item>, op: Op)
    requires WellFormed(l, s)
    ensures WellFormed(l, After(l, s, op))
  {
    match op
    case Get(cancelled, key, now) => GetFacts(l, s, cancelled, key, now);
    case Set(cancelled, key, entry, ttl, now) => SetKeepsWellFormed(l, s, cancelled, key, entry, ttl, now);
    case Delete(cancelled, key) => WithoutFacts(l, s, key);
    case Invalidate(cancelled, tags) => InvalidateKeepsWellFormed(l, s, set t | t in tags);
    case Close =>
  }

  lemma {:induction false} RunBehind(l: Limits, s: seq<Item>, x: Item, ops: seq<Op>)
    requires WellFormed(l, s) && s != [] && s[0] == x && AlwaysFits(l, s, ops, x)
    requires forall i :: 0 <= i < |ops| ==> Spares(l, ops[i], x)
    ensures WellFormed(l, RunFrom(l, s, ops)) && HasBehind(RunFrom(l, s, ops), x, UsedSince(l, s, ops, x.key))
  {
    if ops == [] {
      assert Split(s, [], x, s[1..]) && Among([], map[]);
    } else {
      var n := |ops| - 1;
      RunBehind(l, s, x, ops[..n]);
      StepBehind(l, RunFrom(l, s, ops[..n]), x, UsedSince(l, s, ops[..n], x.key), ops[n]);
      AfterWellFormed(l, RunFrom(l, s, ops[..n]), ops[n]);
    }
  }

  lemma {:induction false} RunParts(l: Limits, before: seq<Op>, rest: seq<Op>)
    ensures Run(l, before + rest) == RunFrom(l, Run(l, before), rest)
  {
    if rest == [] {
      assert before + rest == before;
    } else {
      var n := |rest| - 1;
      assert (before + rest)[..|before + rest| - 1] == before + rest[..n];
      RunParts(l, before, rest[..n]);
    }
  }

  /** The operation uses the item: an accepted `Set` of it, or a `Get` that hits it. */
  ghost predicate Uses(l: Limits, s: seq<Item>, op: Op, x: Item) {
    match op
    case Set(cancelled, key, entry, ttl, now) =>
      && Accepts(l, cancelled, key, entry, ttl, now)
      && x == Item(key, Kept(l, key, entry, now).value, now + ttl, EntrySize(key, Kept(l, key, entry, now).value))
    case Get(cancelled, key, now) => !cancelled && x in s && x.key == key && now < x.expiresAt
    case _ => false
  }

  lemma UsedInFront(l: Limits, s: seq<Item>, op: Op, x: Item)
    requires WellFormed(l, s) && Uses(l, s, op, x)
    ensures var r := After(l, s, op); WellFormed(l, r) && r != [] && r[0] == x
  {
    AfterWellFormed(l, s, op);
    match op
    case Set(_, _, _, _, _) => SetFacts(l, s, op);
    case Get(cancelled, key, now) =>
      var i :| 0 <= i < |s| && s[i] == x;
      GetOrder(l, s, cancelled, key, now, i);
  }

  /** Retention: after any run, what an accepted `Set` stored or a `Get` hit is answered
      until it expires, as long as nothing has set, deleted, invalidated or closed it, and
      it and the items used since have always fitted both bounds. So what is evicted is
      always what was used least recently. */
  lemma RecentlyUsedIsServed(l: Limits, ops: seq<Op>, op: Op, x: Item, rest: seq<Op>, later: int)
    requires Uses(l, Run(l, ops), op, x) && AlwaysFits(l, Run(l, ops + [op]), rest, x)
    requires forall i :: 0 <= i < |rest| ==> Spares(l, rest[i], x)
    ensures later < x.expiresAt ==> Answer(Run(l, ops + [op] + rest), false, x.key, later) == Some(x.entry)
  {
    var s := Run(l, ops + [op]);
    assert (ops + [op])[..|ops|] == ops;
    RunRefines(l, ops);
    UsedInFront(l, Run(l, ops), op, x);
    RunParts(l, ops + [op], rest);
    RunBehind(l, s, x, rest);
    var i := BehindIndex(l, RunFrom(l, s, rest), x, UsedSince(l, s, rest, x.key));
  }
}
