/** The list query of internal/repository/postgres/documents.go on a table: which rows a
    request is answered with, and in which order. */
module DocumentLists {
  import opened Common
  import opened CacheKeys

  /** A document with its grantees; a mime type may be NULL. */
  datatype Row = Row(id: int, owner: Text, name: Text, mime: Option<Text>, isFile: bool, isPublic: bool, created: int,
      grants: set<Text>)

  datatype Listing = Rows(rows: seq<Row>) | NotFound | Invalid

  /** What the database and the formatter of the response do: how names sort, and how a
      time prints with seconds. */
  datatype Printer = Printer(nameLess: (Text, Text) -> bool, formatPlain: int -> Text)

  ghost predicate NamesSort(p: Printer) {
    && (forall a, b :: p.nameLess(a, b) ==> a != b && !p.nameLess(b, a))
    && (forall a, b :: p.nameLess(a, b) || a == b || p.nameLess(b, a))
  }

  // --------------------------------------------------------------- the filter

  /** What a condition with its parameter says of a row. */
  predicate Meets(lib: Library, condition: (string, Param), x: Row) {
    match condition.1
    case NoParam => true
    case TextParam(text) =>
      if condition.0 == "d.id =" then lib.parseId(text) == Some(x.id)
      else if condition.0 == "d.name =" then x.name == text
      else condition.0 == "d.mime =" && x.mime == Some(text)
    case BoolParam(value) =>
      if condition.0 == "d.is_file =" then x.isFile == value
      else condition.0 == "d.is_public =" && x.isPublic == value
    case TimeParam(second) =>
      condition.0 == "date_trunc('second', d.created_at) =" && x.created / 1_000_000_000 == second
  }

  /** What a request's key and value ask of a row. */
  ghost predicate Asked(lib: Library, f: Filter, x: Row) {
    && (f.key == Ascii("id") ==> lib.parseId(f.value) == Some(x.id))
    && (f.key == Ascii("name") ==> x.name == f.value)
    && (f.key == Ascii("mime") ==> x.mime == Some(f.value))
    && (f.key == Ascii("file") ==> f.value == Ascii(if x.isFile then "true" else "false"))
    && (f.key == Ascii("public") ==> f.value == Ascii(if x.isPublic then "true" else "false"))
    && (f.key == Ascii("created") ==> AskedSecond(lib, f.value, x))
  }

  predicate AskedSecond(lib: Library, value: Text, x: Row) {
    ParseTime(lib, value).Some? && ParseTime(lib, value).value / 1_000_000_000 == x.created / 1_000_000_000
  }

  /** The condition that is built selects the rows whose own field has the value. */
  lemma FilterSelects(lib: Library, f: Filter, x: Row)
    requires ValidFilter(lib, f) && IdsReadBack(lib)
    ensures BuildFilter(lib, f.key, f.value).Some?
    ensures Meets(lib, BuildFilter(lib, f.key, f.value).value, x) <==> Asked(lib, f, x)
  {
    NamesDiffer();
    if f.key == Ascii("file") || f.key == Ascii("public") { FlagSelects(lib, f, x); }
  }

  lemma FlagSelects(lib: Library, f: Filter, x: Row)
    requires ValidFilter(lib, f) && (f.key == Ascii("file") || f.key == Ascii("public"))
    ensures BuildFilter(lib, f.key, f.value).Some?
    ensures Meets(lib, BuildFilter(lib, f.key, f.value).value, x) <==> Asked(lib, f, x)
  {
    NamesDiffer();
    assert Ascii("true")[0] == Rune('t') && Ascii("false")[0] == Rune('f');
  }

  // ---------------------------------------------------------------- the query

  /** `ORDER BY d.name ASC, d.created_at DESC, d.id ASC`. */
  predicate Before(p: Printer, x: Row, y: Row) {
    if x.name != y.name then p.nameLess(x.name, y.name)
    else if x.created != y.created then x.created > y.created
    else x.id < y.id
  }

  ghost predicate Sorted(p: Printer, r: seq<Row>) { forall i, j :: 0 <= i < j < |r| ==> Before(p, r[i], r[j]) }

  /** The first rows of a set, in order. */
  ghost predicate FirstOf(p: Printer, s: set<Row>, r: seq<Row>) {
    && Sorted(p, r)
    && (forall x :: x in r ==> x in s)
    && (forall x, y :: x in s && x !in r && y in r ==> Before(p, y, x))
  }

  predicate Visible(x: Row, owner: Text, requester: Text) {
    x.owner == owner && (owner == requester || x.isPublic || requester in x.grants)
  }

  ghost function Selected(lib: Library, t: set<Row>, owner: Text, requester: Text,
      condition: (string, Param)): set<Row> {
    set x | x in t && Visible(x, owner, requester) && Meets(lib, condition, x)
  }

  function Length(limit: int, found: nat): nat { if 0 < limit < found then limit else found }

  /** Whether `List` may answer this, where `users` maps logins to ids. */
  ghost predicate Answers(lib: Library, p: Printer, users: map<Text, Text>, t: set<Row>, requester: Text, f: Filter,
      a: Listing) {
    if f.limit < 0 then a.Invalid?
    else if f.owner != [] && f.owner !in users then a.NotFound?
    else
      var owner, built := if f.owner == [] then requester else users[f.owner], BuildFilter(lib, f.key, f.value);
      if built.None? then a.Invalid?
      else
        var s := Selected(lib, t, owner, requester, built.value);
        a.Rows? && FirstOf(p, s, a.rows) && |a.rows| == Length(f.limit, |s|)
  }

  /** A row that the request asks for. */
  ghost predicate Wanted(lib: Library, users: map<Text, Text>, requester: Text, f: Filter, x: Row) {
    && (f.owner != [] ==> f.owner in users)
    && x.owner == (if f.owner == [] then requester else users[f.owner])
    && (x.owner == requester || x.isPublic || requester in x.grants)
    && Asked(lib, f, x)
  }

  /** A valid request lists the wanted rows and no others: all of them, or as many as the
      limit says, and then the missing ones come after the listed ones. Rows are in the
      order of their names, and of one name the newest is first. */
  lemma ListsWanted(lib: Library, p: Printer, users: map<Text, Text>, t: set<Row>, requester: Text, f: Filter,
                    a: Listing)
    requires ValidFilter(lib, f) && IdsReadBack(lib) && f.limit >= 0
    requires Answers(lib, p, users, t, requester, f, a)
    ensures a.NotFound? <==> f.owner != [] && f.owner !in users
    ensures !a.Invalid?
    ensures a.Rows? ==>
      && (forall x :: x in a.rows ==> x in t && Wanted(lib, users, requester, f, x))
      && (forall x :: x in t && Wanted(lib, users, requester, f, x) && x !in a.rows ==>
            0 < f.limit == |a.rows| && forall y :: y in a.rows ==> Before(p, y, x))
      && (f.limit > 0 ==> |a.rows| <= f.limit)
      && (forall i, j :: 0 <= i < j < |a.rows| ==>
        a.rows[i].name == a.rows[j].name || p.nameLess(a.rows[i].name, a.rows[j].name))
      && (forall i, j :: 0 <= i < j < |a.rows| && a.rows[i].name == a.rows[j].name ==>
        a.rows[i].created >= a.rows[j].created)
  {
    var built := FilterSelectsAll(lib, f);
    if a.Rows? {
      var s := Selected(lib, t, if f.owner == [] then requester else users[f.owner], requester, built);
      SelectedIsWanted(lib, users, t, requester, f, built);
      if |a.rows| == |s| { AllListed(p, s, a.rows); }
    }
  }

  lemma FilterSelectsAll(lib: Library, f: Filter) returns (built: (string, Param))
    requires ValidFilter(lib, f) && IdsReadBack(lib)
    ensures BuildFilter(lib, f.key, f.value) == Some(built)
    ensures forall x :: Meets(lib, built, x) <==> Asked(lib, f, x)
  {
    ValidIffBuilds(lib, f);
    built := BuildFilter(lib, f.key, f.value).value;
    forall x: Row ensures Meets(lib, built, x) <==> Asked(lib, f, x) { FilterSelects(lib, f, x); }
  }

  lemma SelectedIsWanted(lib: Library, users: map<Text, Text>, t: set<Row>, requester: Text, f: Filter,
                         built: (string, Param))
    requires (f.owner != [] ==> f.owner in users) && forall x :: Meets(lib, built, x) <==> Asked(lib, f, x)
    ensures Selected(lib, t, if f.owner == [] then requester else users[f.owner], requester, built)
         == set x | x in t && Wanted(lib, users, requester, f, x)
  {
  }

  lemma {:induction false} SortedCount(p: Printer, r: seq<Row>)
    requires Sorted(p, r)
    ensures |set x | x in r| == |r|
  {
    if r != [] {
      var n := |r| - 1;
      SortedCount(p, r[..n]);
      assert r[n] !in r[..n];
      assert (set x | x in r) == (set x | x in r[..n]) + {r[n]} by { assert r == r[..n] + [r[n]]; }
    }
  }

  lemma AllListed(p: Printer, s: set<Row>, r: seq<Row>)
    requires FirstOf(p, s, r) && |r| == |s|
    ensures forall x :: x in s ==> x in r
  {
    SortedCount(p, r);
    var listed := set x | x in r;
    forall x | x in s ensures x in r {
      if x !in r { SmallerCount(listed, s - {x}); }
    }
  }

  lemma {:induction false} SmallerCount(a: set<Row>, b: set<Row>)
    requires a <= b
    ensures |a| <= |b|
  {
    if a != {} {
      var x :| x in a;
      SmallerCount(a - {x}, b - {x});
    }
  }

  /** The answer is determined by the table. */
  lemma OneAnswer(lib: Library, p: Printer, users: map<Text, Text>, t: set<Row>, requester: Text, f: Filter, a: Listing,
                  b: Listing)
    requires NamesSort(p)
    requires Answers(lib, p, users, t, requester, f, a) && Answers(lib, p, users, t, requester, f, b)
    ensures a == b
  {
    if a.Rows? {
      var owner := if f.owner == [] then requester else users[f.owner];
      OneFirst(p, Selected(lib, t, owner, requester, BuildFilter(lib, f.key, f.value).value), a.rows, b.rows);
    }
  }

  lemma {:induction false} OneFirst(p: Printer, s: set<Row>, r: seq<Row>, q: seq<Row>)
    requires NamesSort(p) && FirstOf(p, s, r) && FirstOf(p, s, q) && |r| == |q|
    ensures r == q
  {
    if r != [] {
      var n := |r| - 1;
      ButLast(p, s, r);
      ButLast(p, s, q);
      OneFirst(p, s, r[..n], q[..n]);
      assert r == r[..n] + [r[n]] && q == q[..n] + [q[n]];
      assert r[n] in q <==> r[n] == q[n];
      NotBoth(p, r[n], q[n]);
    }
  }

  lemma NotBoth(p: Printer, x: Row, y: Row)
    requires NamesSort(p)
    ensures !(Before(p, x, y) && Before(p, y, x))
  {
  }

  lemma ButLast(p: Printer, s: set<Row>, r: seq<Row>)
    requires FirstOf(p, s, r) && r != []
    ensures FirstOf(p, s, r[..|r| - 1]) && r[|r| - 1] !in r[..|r| - 1]
  {
    var n := |r| - 1;
    assert r == r[..n] + [r[n]];
    forall x, y | x in s && x !in r[..n] && y in r[..n] ensures Before(p, y, x) {
      var i :| 0 <= i < n && r[i] == y;
      if x == r[n] { assert Before(p, r[i], r[n]); } else { assert x !in r; }
    }
  }

  /** Two valid requests under one cache key have the same answer, whatever the table
      holds. */
  lemma SameKeySameAnswer(lib: Library, p: Printer, users: map<Text, Text>, t: set<Row>, epoch: nat, user: Text,
                          f: Filter, epoch': nat, user': Text, f': Filter, a: Listing, b: Listing)
    requires InstantsDiffer(lib) && NamesSort(p) && ValidFilter(lib, f) && ValidFilter(lib, f')
    requires ListKey(lib, epoch, user, f) == ListKey(lib, epoch', user', f')
    requires Answers(lib, p, users, t, user, f, a) && Answers(lib, p, users, t, user', f', b)
    ensures a == b
  {
    SameKeySameQuery(lib, epoch, user, f, epoch', user', f');
    OneAnswer(lib, p, users, t, user, f, a, b);
  }

  // ------------------------------------------------------------ found once more

  /** A row's own field as the response prints it. */
  function Printed(lib: Library, p: Printer, x: Row, key: Text): Text {
    if key == Ascii("id") then lib.formatId(x.id)
    else if key == Ascii("name") then x.name
    else if key == Ascii("mime") then if x.mime.Some? then x.mime.value else []
    else if key == Ascii("file") then Ascii(if x.isFile then "true" else "false")
    else if key == Ascii("public") then Ascii(if x.isPublic then "true" else "false")
    else if key == Ascii("created") then p.formatPlain(x.created)
    else []
  }

  /** The printed id is an id, and the printed time tells the second. */
  ghost predicate PrintsWell(lib: Library, p: Printer, x: Row) {
    && lib.parseId(lib.formatId(x.id)) == Some(x.id)
    && lib.parsePlain(p.formatPlain(x.created)).Some?
    && lib.parsePlain(p.formatPlain(x.created)).value / 1_000_000_000 == x.created / 1_000_000_000
  }

  /** What a list shows of a document can be asked for: a request for any one of its
      fields with the value printed lists it again, as long as nothing is written. */
  lemma ListedIsFoundAgain(lib: Library, p: Printer, users: map<Text, Text>, t: set<Row>, requester: Text, f: Filter,
                           a: Listing, x: Row, key: Text, b: Listing)
    requires ValidFilter(lib, f) && IdsReadBack(lib) && f.limit >= 0
    requires Answers(lib, p, users, t, requester, f, a) && a.Rows? && x in a.rows
    requires PrintsWell(lib, p, x) && Printed(lib, p, x, key) != []
    requires Answers(lib, p, users, t, requester, Filter(f.owner, key, Printed(lib, p, x, key), 0), b)
    ensures b.Rows? && x in b.rows
  {
    var again := Filter(f.owner, key, Printed(lib, p, x, key), 0);
    ListsWanted(lib, p, users, t, requester, f, a);
    PrintedAsked(lib, p, again, x);
    ListsWanted(lib, p, users, t, requester, again, b);
  }

  lemma PrintedAsked(lib: Library, p: Printer, f: Filter, x: Row)
    requires PrintsWell(lib, p, x) && f.value == Printed(lib, p, x, f.key) && f.value != []
    ensures ValidFilter(lib, f) && Asked(lib, f, x)
  {
    NamesDiffer();
  }
}
