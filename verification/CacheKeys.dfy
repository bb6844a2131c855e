/** The names of cached answers: internal/httptransport/response_cache.go and
    list_handler.go, next to the queries they stand for
    (internal/repository/postgres/documents.go). */
module CacheKeys {
  import opened Common

  /** A Go string, decoded: characters, and bytes that are not UTF-8. */
  type StrayByte = b: int | 0x80 <= b < 0x100 witness 0x80
  datatype Unit = Rune(c: char) | Raw(b: StrayByte)
  type Text = seq<Unit>

  /** Library functions: which characters are printable, and the parsers and printers
      of ids and instants, in nanoseconds. A time is written in UTC, so its text tells
      the instant. */
  datatype Library = Library(
    isPrint: char -> bool,
    parseId: Text -> Option<int>,
    formatId: int -> Text,
    parsePlain: Text -> Option<int>,
    parseRFC3339: Text -> Option<int>,
    formatInstant: int -> Text)

  ghost predicate InstantsDiffer(lib: Library) {
    forall a, b {:trigger lib.formatInstant(a), lib.formatInstant(b)} ::
        lib.formatInstant(a) == lib.formatInstant(b) ==> a == b
  }

  ghost predicate IdsReadBack(lib: Library) {
    forall t :: lib.parseId(t).Some? ==> lib.parseId(lib.formatId(lib.parseId(t).value)) == lib.parseId(t)
  }

  // ----------------------------------------------------------------- numbers

  function HexDigit(d: int): char
    requires 0 <= d < 16
  {
    if d < 10 then '0' + (d as char) else 'a' + ((d - 10) as char)
  }

  function Hex(n: nat, width: nat): (s: string)
    ensures |s| == width
  {
    if width == 0 then "" else Hex(n / 16, width - 1) + [HexDigit(n % 16)]
  }

  function Pow16(width: nat): nat { if width == 0 then 1 else 16 * Pow16(width - 1) }

  lemma {:induction false} HexInjective(m: nat, n: nat, width: nat)
    requires m < Pow16(width) && n < Pow16(width) && Hex(m, width) == Hex(n, width)
    ensures m == n
  {
    if width > 0 {
      var a, b := Hex(m / 16, width - 1) + [HexDigit(m % 16)], Hex(n / 16, width - 1) + [HexDigit(n % 16)];
      assert a[..width - 1] == Hex(m / 16, width - 1) && b[..width - 1] == Hex(n / 16, width - 1);
      assert a[width - 1] == b[width - 1];
      HexInjective(m / 16, n / 16, width - 1);
    }
  }

  function Digits(n: nat): (s: string)
    ensures |s| > 0 && forall i :: 0 <= i < |s| ==> '0' <= s[i] <= '9'
  {
    var last := ['0' + ((n % 10) as char)];
    if n < 10 then last else Digits(n / 10) + last
  }

  /** What digits say, in base ten. */
  function Decimal(s: string): int {
    if s == "" then 0 else 10 * Decimal(s[..|s| - 1]) + (s[|s| - 1] as int - '0' as int)
  }

  /** They say the number, without a leading zero. */
  lemma {:induction false} DigitsSayIt(n: nat)
    ensures Decimal(Digits(n)) == n && (Digits(n)[0] == '0' <==> n == 0)
  {
    if n >= 10 {
      DigitsSayIt(n / 10);
      assert Digits(n)[..|Digits(n)| - 1] == Digits(n / 10);
      assert Digits(n)[0] == Digits(n / 10)[0];
    } else {
      assert Digits(n)[..0] == "";
    }
  }

  lemma DigitsInjective(m: nat, n: nat)
    requires Digits(m) == Digits(n)
    ensures m == n
  {
    DigitsSayIt(m);
    DigitsSayIt(n);
  }

  /** A number ends where its digits end. */
  lemma DigitsThen(m: nat, a: string, n: nat, b: string)
    requires Digits(m) + a == Digits(n) + b
    requires a != "" && !('0' <= a[0] <= '9') && b != "" && !('0' <= b[0] <= '9')
    ensures m == n && a == b
  {
    var x, y := Digits(m), Digits(n);
    var whole := x + a;
    assert whole[|x|] == a[0] && whole[|y|] == b[0];
    assert (forall i :: 0 <= i < |x| ==> whole[i] == x[i]) && (forall i :: 0 <= i < |y| ==> whole[i] == y[i]);
    assert |x| == |y|;
    assert x == (x + a)[..|x|] && y == (y + b)[..|y|] && a == (x + a)[|x|..] && b == (y + b)[|y|..];
    DigitsInjective(m, n);
  }

  function Number(n: int): string { if n < 0 then "-" + Digits(-n) else Digits(n) }

  lemma NumberInjective(m: int, n: int)
    requires Number(m) == Number(n)
    ensures m == n
  {
    assert m < 0 ==> Number(m)[0] == '-' && Number(m)[1..] == Digits(-m);
    assert n < 0 ==> Number(n)[0] == '-' && Number(n)[1..] == Digits(-n);
    if m < 0 && n < 0 { DigitsInjective(-m, -n); } else if m >= 0 && n >= 0 { DigitsInjective(m, n); }
  }

  // ----------------------------------------------------------------- quoting

  /** The letter of a one-letter escape. */
  function Letter(c: char): Option<char> {
    match c as int
    case 7 => Some('a')
    case 8 => Some('b')
    case 9 => Some('t')
    case 10 => Some('n')
    case 11 => Some('v')
    case 12 => Some('f')
    case 13 => Some('r')
    case _ => None
  }

  /** One character or byte, as `%q` writes it. */
  function Escape(lib: Library, u: Unit): (s: string)
    ensures |s| > 0 && s[0] != '"'
  {
    match u
    case Raw(b) => "\\x" + Hex(b, 2)
    case Rune(c) =>
      if c == '"' || c == '\\' then ['\\', c]
      else if lib.isPrint(c) then [c]
      else if Letter(c).Some? then ['\\', Letter(c).value]
      else if (c as int) < 0x20 || c as int == 0x7f then "\\x" + Hex(c as int, 2)
      else if (c as int) < 0x10000 then "\\u" + Hex(c as int, 4)
      else "\\U" + Hex(c as int, 8)
  }

  function EscapeAll(lib: Library, t: Text): string
  {
    if t == [] then "" else Escape(lib, t[0]) + EscapeAll(lib, t[1..])
  }

  function Quote(lib: Library, t: Text): string
  {
    "\"" + EscapeAll(lib, t) + "\""
  }

  /** How long an escape is can be told from its first two characters. */
  function EscapeLength(s: string): nat
    requires |s| > 0 && (s[0] == '\\' ==> |s| > 1)
  {
    if s[0] != '\\' then 1 else if s[1] == 'x' then 4 else if s[1] == 'u' then 6 else if s[1] == 'U' then 10 else 2
  }

  lemma EscapeShape(lib: Library, u: Unit)
    ensures var s := Escape(lib, u); (s[0] == '\\' ==> |s| > 1) && |s| == EscapeLength(s)
  {
  }

  lemma EscapeInjective(lib: Library, u: Unit, v: Unit)
    requires Escape(lib, u) == Escape(lib, v)
    ensures u == v
  {
    var s, t := Escape(lib, u), Escape(lib, v);
    EscapeShape(lib, u);
    var code := (x: Unit) => if x.Raw? then x.b else x.c as int;
    if s[0] == '\\' && s[1] == 'x' {
      assert s[2..] == Hex(code(u), 2) && t[2..] == Hex(code(v), 2);
      assert Pow16(2) == 256;
      HexInjective(code(u), code(v), 2);
    } else if s[0] == '\\' && s[1] == 'u' {
      assert s[2..] == Hex(code(u), 4) && t[2..] == Hex(code(v), 4);
      assert Pow16(2) == 256 && Pow16(4) == 0x10000;
      HexInjective(code(u), code(v), 4);
    } else if s[0] == '\\' && s[1] == 'U' {
      assert s[2..] == Hex(code(u), 8) && t[2..] == Hex(code(v), 8);
      assert Pow16(2) == 256 && Pow16(4) == 0x10000 && Pow16(8) == 0x1_0000_0000;
      HexInjective(code(u), code(v), 8);
    }
  }

  lemma EscapeThen(lib: Library, u: Unit, a: string, v: Unit, b: string)
    requires Escape(lib, u) + a == Escape(lib, v) + b
    ensures u == v && a == b
  {
    var s, t := Escape(lib, u), Escape(lib, v);
    EscapeShape(lib, u);
    EscapeShape(lib, v);
    assert (s + a)[0] == s[0] && (t + b)[0] == t[0];
    if s[0] == '\\' { assert (s + a)[1] == s[1] && (t + b)[1] == t[1]; }
    assert |s| == |t|;
    assert s == (s + a)[..|s|] && t == (t + b)[..|t|] && a == (s + a)[|s|..] && b == (t + b)[|t|..];
    EscapeInjective(lib, u, v);
  }

  /** A quoted text ends at its closing quote, and tells what was quoted. */
  lemma {:induction false} EscapeAllThen(lib: Library, t: Text, a: string, u: Text, b: string)
    requires EscapeAll(lib, t) + "\"" + a == EscapeAll(lib, u) + "\"" + b
    ensures t == u && a == b
  {
    EscapeAllHead(lib, t, a);
    EscapeAllHead(lib, u, b);
    if t != [] && u != [] {
      EscapeThen(lib, t[0], EscapeAll(lib, t[1..]) + "\"" + a, u[0], EscapeAll(lib, u[1..]) + "\"" + b);
      EscapeAllThen(lib, t[1..], a, u[1..], b);
      assert t == [t[0]] + t[1..] && u == [u[0]] + u[1..];
    }
  }

  lemma EscapeAllHead(lib: Library, t: Text, a: string)
    ensures var x := EscapeAll(lib, t) + "\"" + a;
      if t == [] then x[0] == '"' && x[1..] == a
      else x[0] != '"' && x == Escape(lib, t[0]) + (EscapeAll(lib, t[1..]) + "\"" + a)
  {
  }

  lemma Unquoted(lib: Library, t: Text, a: string)
    ensures (Quote(lib, t) + a)[1..] == EscapeAll(lib, t) + "\"" + a
  {
    var inner := EscapeAll(lib, t) + "\"";
    assert Quote(lib, t) == "\"" + inner;
    assert ("\"" + inner + a)[1..] == inner + a;
  }

  lemma QuoteThen(lib: Library, t: Text, a: string, u: Text, b: string)
    requires Quote(lib, t) + a == Quote(lib, u) + b
    ensures t == u && a == b
  {
    Unquoted(lib, t, a);
    Unquoted(lib, u, b);
    EscapeAllThen(lib, t, a, u, b);
  }

  // -------------------------------------------------------------------- keys

  /** A validated list request: whose documents, which filter, how many. */
  datatype Filter = Filter(owner: Text, key: Text, value: Text, limit: int)

  function Ascii(s: string): Text { if s == "" then [] else [Rune(s[0])] + Ascii(s[1..]) }

  /** First the plain format, then RFC 3339. */
  function ParseTime(lib: Library, value: Text): Option<int> {
    if lib.parsePlain(value).Some? then lib.parsePlain(value) else lib.parseRFC3339(value)
  }

  function Normalized(lib: Library, key: Text, value: Text): Text {
    if key == Ascii("id") && lib.parseId(value).Some? then lib.formatId(lib.parseId(value).value)
    else if key == Ascii("created") && ParseTime(lib, value).Some? then lib.formatInstant(ParseTime(lib, value).value)
    else value
  }

  predicate ValidFilter(lib: Library, f: Filter) {
    if f.key == [] then f.value == []
    else
      && f.value != []
      && if f.key == Ascii("id") then lib.parseId(f.value).Some?
         else if f.key == Ascii("created") then ParseTime(lib, f.value).Some?
         else if f.key == Ascii("file") || f.key == Ascii("public") then f.value == Ascii("true")
             || f.value == Ascii("false")
         else f.key == Ascii("name") || f.key == Ascii("mime")
  }

  datatype Param = NoParam | TextParam(text: Text) | BoolParam(value: bool) | TimeParam(second: int)

  /** The condition on the documents and its parameter; `None` is an error. */
  function BuildFilter(lib: Library, key: Text, raw: Text): Option<(string, Param)> {
    if key != [] && raw == [] then None
    else if key == [] then if raw == [] then Some(("", NoParam)) else None
    else if key == Ascii("id") then
      if lib.parseId(raw).Some? then Some(("d.id =", TextParam(lib.formatId(lib.parseId(raw).value)))) else None
    else if key == Ascii("name") then Some(("d.name =", TextParam(raw)))
    else if key == Ascii("mime") then Some(("d.mime =", TextParam(raw)))
    else if key == Ascii("file") || key == Ascii("public") then
      if raw != Ascii("true") && raw != Ascii("false") then None
      else Some((if key == Ascii("public") then "d.is_public =" else "d.is_file =", BoolParam(raw == Ascii("true"))))
    else if key == Ascii("created") then
      if ParseTime(lib, raw).Some? then Some(("date_trunc('second', d.created_at) =",
          TimeParam(ParseTime(lib, raw).value / 1_000_000_000))) else None
    else None
  }

  function ListTail(lib: Library, user: Text, f: Filter): string {
    ":u=" + Quote(lib, user) + (":o=" + Quote(lib, f.owner) + (":k=" + Quote(lib, f.key)
      + (":value=" + Quote(lib, Normalized(lib, f.key, f.value)) + (":limit=" + Number(f.limit)))))
  }

  function ListKey(lib: Library, epoch: nat, user: Text, f: Filter): string {
    "list:v" + (Digits(epoch) + ListTail(lib, user, f))
  }

  function DocumentTail(lib: Library, id: Text, version: int): string {
    ":id=" + Quote(lib, id) + (":version=" + Number(version))
  }

  function DocumentKey(lib: Library, epoch: nat, id: Text, version: int): string {
    "document:v" + (Digits(epoch) + DocumentTail(lib, id, version))
  }

  lemma SamePrefix(prefix: string, a: string, b: string)
    requires prefix + a == prefix + b
    ensures a == b
  {
    assert a == (prefix + a)[|prefix|..] && b == (prefix + b)[|prefix|..];
  }

  lemma FieldThen(lib: Library, name: string, t: Text, a: string, u: Text, b: string)
    requires name + Quote(lib, t) + a == name + Quote(lib, u) + b
    ensures t == u && a == b
  {
    assert name + Quote(lib, t) + a == name + (Quote(lib, t) + a);
    assert name + Quote(lib, u) + b == name + (Quote(lib, u) + b);
    SamePrefix(name, Quote(lib, t) + a, Quote(lib, u) + b);
    QuoteThen(lib, t, a, u, b);
  }

  lemma ListTailInjective(lib: Library, user: Text, f: Filter, user': Text, f': Filter)
    requires ListTail(lib, user, f) == ListTail(lib, user', f')
    ensures user == user' && f.owner == f'.owner && f.key == f'.key && f.limit == f'.limit
    ensures Normalized(lib, f.key, f.value) == Normalized(lib, f'.key, f'.value)
  {
    var d, d' := ":limit=" + Number(f.limit), ":limit=" + Number(f'.limit);
    var v, v' := Normalized(lib, f.key, f.value), Normalized(lib, f'.key, f'.value);
    var c, c' := ":value=" + Quote(lib, v) + d, ":value=" + Quote(lib, v') + d';
    var b, b' := ":k=" + Quote(lib, f.key) + c, ":k=" + Quote(lib, f'.key) + c';
    var a, a' := ":o=" + Quote(lib, f.owner) + b, ":o=" + Quote(lib, f'.owner) + b';
    FieldThen(lib, ":u=", user, a, user', a');
    FieldThen(lib, ":o=", f.owner, b, f'.owner, b');
    FieldThen(lib, ":k=", f.key, c, f'.key, c');
    FieldThen(lib, ":value=", v, d, v', d');
    SamePrefix(":limit=", Number(f.limit), Number(f'.limit));
    NumberInjective(f.limit, f'.limit);
  }

  /** Every part of a list key can be read back from it. */
  lemma ListKeyInjective(lib: Library, epoch: nat, user: Text, f: Filter, epoch': nat, user': Text, f': Filter)
    requires ListKey(lib, epoch, user, f) == ListKey(lib, epoch', user', f')
    ensures epoch == epoch' && user == user' && f.owner == f'.owner && f.key == f'.key && f.limit == f'.limit
    ensures Normalized(lib, f.key, f.value) == Normalized(lib, f'.key, f'.value)
  {
    var a, a' := ListTail(lib, user, f), ListTail(lib, user', f');
    SamePrefix("list:v", Digits(epoch) + a, Digits(epoch') + a');
    assert a[0] == ':' && a'[0] == ':';
    DigitsThen(epoch, a, epoch', a');
    ListTailInjective(lib, user, f, user', f');
  }

  lemma DocumentKeyInjective(lib: Library, epoch: nat, id: Text, version: int, epoch': nat, id': Text, version': int)
    requires DocumentKey(lib, epoch, id, version) == DocumentKey(lib, epoch', id', version')
    ensures epoch == epoch' && id == id' && version == version'
  {
    var a, a' := DocumentTail(lib, id, version), DocumentTail(lib, id', version');
    SamePrefix("document:v", Digits(epoch) + a, Digits(epoch') + a');
    assert a[0] == ':' && a'[0] == ':';
    DigitsThen(epoch, a, epoch', a');
    var b, b' := ":version=" + Number(version), ":version=" + Number(version');
    FieldThen(lib, ":id=", id, b, id', b');
    SamePrefix(":version=", Number(version), Number(version'));
    NumberInjective(version, version');
  }

  lemma KeysDiffer(lib: Library, epoch: nat, user: Text, f: Filter, epoch': nat, id: Text, version: int)
    ensures ListKey(lib, epoch, user, f) != DocumentKey(lib, epoch', id, version)
  {
    assert ListKey(lib, epoch, user, f)[0] == 'l' && DocumentKey(lib, epoch', id, version)[0] == 'd';
  }

  /** Two values of a filter that mean the same. */
  predicate SameValue(lib: Library, key: Text, value: Text, value': Text) {
    if key == Ascii("id") then lib.parseId(value) == lib.parseId(value')
    else if key == Ascii("created") then ParseTime(lib, value) == ParseTime(lib, value')
    else value == value'
  }

  /** Valid list requests share a key exactly if they agree in every part, where an id
      and an instant may be written in several ways. */
  lemma ListKeysEqualIff(lib: Library, epoch: nat, user: Text, f: Filter, epoch': nat, user': Text, f': Filter)
    requires InstantsDiffer(lib) && IdsReadBack(lib) && ValidFilter(lib, f) && ValidFilter(lib, f')
    ensures ListKey(lib, epoch, user, f) == ListKey(lib, epoch', user', f')
       <==> epoch == epoch' && user == user' && f.owner == f'.owner && f.key == f'.key && f.limit == f'.limit
            && SameValue(lib, f.key, f.value, f'.value)
  {
    if f.key == f'.key { NormalizedIff(lib, f, f'); }
    if ListKey(lib, epoch, user, f) == ListKey(lib, epoch', user', f') {
      ListKeyInjective(lib, epoch, user, f, epoch', user', f');
    }
  }

  lemma NormalizedIff(lib: Library, f: Filter, f': Filter)
    requires InstantsDiffer(lib) && IdsReadBack(lib) && ValidFilter(lib, f) && ValidFilter(lib, f') && f.key == f'.key
    ensures Normalized(lib, f.key, f.value) == Normalized(lib, f.key, f'.value)
       <==> SameValue(lib, f.key, f.value, f'.value)
  {
    NamesDiffer();
    if f.key == Ascii("created") {
      var t, t' := ParseTime(lib, f.value).value, ParseTime(lib, f'.value).value;
      assert lib.formatInstant(t) == lib.formatInstant(t') ==> t == t';
    }
  }

  /** Two valid list requests with one key ask the database the same question. */
  lemma SameKeySameQuery(lib: Library, epoch: nat, user: Text, f: Filter, epoch': nat, user': Text, f': Filter)
    requires InstantsDiffer(lib) && ValidFilter(lib, f) && ValidFilter(lib, f')
    requires ListKey(lib, epoch, user, f) == ListKey(lib, epoch', user', f')
    ensures epoch == epoch' && user == user' && f.owner == f'.owner && f.limit == f'.limit
    ensures BuildFilter(lib, f.key, f.value).Some?
    ensures BuildFilter(lib, f.key, f.value) == BuildFilter(lib, f'.key, f'.value)
  {
    ListKeyInjective(lib, epoch, user, f, epoch', user', f');
    SameValueSameParam(lib, f, f');
  }

  /** The list handler lets through exactly the filters that the query can be built for. */
  lemma ValidIffBuilds(lib: Library, f: Filter)
    ensures ValidFilter(lib, f) <==> BuildFilter(lib, f.key, f.value).Some?
  {
    NamesDiffer();
  }

  lemma SameValueSameParam(lib: Library, f: Filter, f': Filter)
    requires InstantsDiffer(lib) && ValidFilter(lib, f) && ValidFilter(lib, f') && f.key == f'.key
    requires Normalized(lib, f.key, f.value) == Normalized(lib, f'.key, f'.value)
    ensures BuildFilter(lib, f.key, f.value).Some?
    ensures BuildFilter(lib, f.key, f.value) == BuildFilter(lib, f'.key, f'.value)
  {
    NamesDiffer();
    if f.key == Ascii("created") {
      var t, t' := ParseTime(lib, f.value).value, ParseTime(lib, f'.value).value;
      assert lib.formatInstant(t) == lib.formatInstant(t');
    } else if f.key != Ascii("id") {
      assert Normalized(lib, f.key, f.value) == f.value && Normalized(lib, f.key, f'.value) == f'.value;
    }
  }

  lemma NamesDiffer()
    ensures Ascii("id")[0] == Rune('i') && Ascii("created")[0] == Rune('c') && Ascii("file")[0] == Rune('f')
    ensures Ascii("public")[0] == Rune('p') && Ascii("name")[0] == Rune('n') && Ascii("mime")[0] == Rune('m')
  {
  }
}
