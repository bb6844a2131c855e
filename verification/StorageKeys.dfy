/** The names of new blobs (internal/document/upload.go, `randomStorageKey`): random bytes
    in the base64 of section 5 of RFC 4648, for file names, without padding. */
module StorageKeys {
  import opened Common
  import opened FileStorage

  const STORAGE_KEY_BYTES: nat := 32

  function Digit(v: int): char
    requires 0 <= v < 64
  {
    if v < 26 then 'A' + (v as char)
    else if v < 52 then 'a' + ((v - 26) as char)
    else if v < 62 then '0' + ((v - 52) as char)
    else if v == 62 then '-' else '_'
  }

  /** Six bits a character; three bytes make four. */
  function Encode(d: Data): string {
    if d == [] then ""
    else
      var a := d[0] as int;
      if |d| == 1 then [Digit(a / 4), Digit(a % 4 * 16)]
      else
        var b := d[1] as int;
        if |d| == 2 then [Digit(a / 4), Digit(a % 4 * 16 + b / 16), Digit(b % 16 * 4)]
        else
          var c := d[2] as int;
          [Digit(a / 4), Digit(a % 4 * 16 + b / 16), Digit(b % 16 * 4 + c / 64), Digit(c % 64)] + Encode(d[3..])
  }

  lemma DigitIsKeyChar(v: int)
    requires 0 <= v < 64
    ensures KeyChar(Digit(v))
  {
  }

  lemma DigitsDiffer(v: int, w: int)
    requires 0 <= v < 64 && 0 <= w < 64 && Digit(v) == Digit(w)
    ensures v == w
  {
  }

  /** Every generated name is one that the store accepts. */
  lemma {:induction false} NewKeyIsValid(d: Data)
    ensures |Encode(d)| == (4 * |d| + 2) / 3
    ensures forall i :: 0 <= i < |Encode(d)| ==> KeyChar(Encode(d)[i])
    ensures d != [] ==> ValidKey(Encode(d))
    ensures |d| == STORAGE_KEY_BYTES ==> |Encode(d)| == 43
  {
    if |d| > 2 { NewKeyIsValid(d[3..]); }
  }

  /** A byte can be told from its six high bits and the digit that has its two low ones. */
  lemma SixAndTwo(a: int, b: int, a': int, b': int)
    requires 0 <= b < 256 && 0 <= b' < 256 && a / 4 == a' / 4 && a % 4 * 16 + b / 16 == a' % 4 * 16 + b' / 16
    ensures a == a' && b / 16 == b' / 16
  {
    var x, y, x', y' := a % 4, b / 16, a' % 4, b' / 16;
    assert 0 <= y < 16 && 0 <= y' < 16 && 16 * x + y == 16 * x' + y';
    assert x == x';
  }

  /** And from four and four. */
  lemma FourAndFour(b: int, c: int, b': int, c': int)
    requires 0 <= c < 256 && 0 <= c' < 256 && b / 16 == b' / 16 && b % 16 * 4 + c / 64 == b' % 16 * 4 + c' / 64
    ensures b == b' && c / 64 == c' / 64
  {
    var x, y, x', y' := b % 16, c / 64, b' % 16, c' / 64;
    assert 0 <= y < 4 && 0 <= y' < 4 && 4 * x + y == 4 * x' + y';
    assert x == x';
  }

  lemma FirstTwo(d: Data, a: int, b: int)
    requires d != [] && a == d[0] as int && b == if |d| > 1 then d[1] as int else 0
    ensures |Encode(d)| > 1 && Encode(d)[0] == Digit(a / 4) && Encode(d)[1] == Digit(a % 4 * 16 + b / 16)
  {
  }

  lemma SameFirst(d: Data, e: Data)
    requires |d| == |e| && d != [] && Encode(d) == Encode(e)
    ensures d[0] == e[0]
  {
    var a, a' := d[0] as int, e[0] as int;
    var b, b' := if |d| > 1 then d[1] as int else 0, if |d| > 1 then e[1] as int else 0;
    FirstTwo(d, a, b);
    FirstTwo(e, a', b');
    DigitsDiffer(a / 4, a' / 4);
    DigitsDiffer(a % 4 * 16 + b / 16, a' % 4 * 16 + b' / 16);
    SixAndTwo(a, b, a', b');
  }

  lemma NextTwo(d: Data, a: int, b: int, c: int)
    requires |d| > 1 && a == d[0] as int && b == d[1] as int && c == if |d| > 2 then d[2] as int else 0
    ensures |Encode(d)| > 2
    ensures Encode(d)[1] == Digit(a % 4 * 16 + b / 16) && Encode(d)[2] == Digit(b % 16 * 4 + c / 64)
  {
    if |d| == 2 { assert c / 64 == 0; }
  }

  lemma SameSecond(d: Data, e: Data)
    requires |d| == |e| > 1 && d[0] == e[0] && Encode(d) == Encode(e)
    ensures d[1] == e[1]
  {
    var a, b, b' := d[0] as int, d[1] as int, e[1] as int;
    var c, c' := if |d| > 2 then d[2] as int else 0, if |d| > 2 then e[2] as int else 0;
    NextTwo(d, a, b, c);
    NextTwo(e, a, b', c');
    SecondByte(a, b, c, b', c');
  }

  lemma SecondByte(a: int, b: int, c: int, b': int, c': int)
    requires 0 <= a < 256 && 0 <= b < 256 && 0 <= c < 256 && 0 <= b' < 256 && 0 <= c' < 256
    requires Digit(a % 4 * 16 + b / 16) == Digit(a % 4 * 16 + b' / 16)
    requires Digit(b % 16 * 4 + c / 64) == Digit(b' % 16 * 4 + c' / 64)
    ensures b == b'
  {
    DigitsDiffer(a % 4 * 16 + b / 16, a % 4 * 16 + b' / 16);
    DigitsDiffer(b % 16 * 4 + c / 64, b' % 16 * 4 + c' / 64);
    FourAndFour(b, c, b', c');
  }

  lemma SameThird(d: Data, e: Data)
    requires |d| == |e| > 2 && d[1] == e[1] && Encode(d) == Encode(e)
    ensures d[2] == e[2]
  {
    var b, c, c' := d[1] as int, d[2] as int, e[2] as int;
    assert Encode(d)[2] == Digit(b % 16 * 4 + c / 64) && Encode(e)[2] == Digit(b % 16 * 4 + c' / 64);
    assert Encode(d)[3] == Digit(c % 64) && Encode(e)[3] == Digit(c' % 64);
    DigitsDiffer(b % 16 * 4 + c / 64, b % 16 * 4 + c' / 64);
    DigitsDiffer(c % 64, c' % 64);
    assert c == 64 * (c / 64) + c % 64 && c' == 64 * (c' / 64) + c' % 64;
  }

  /** And two names are the same only if the same bytes were drawn. */
  lemma {:induction false} NewKeysDiffer(d: Data, e: Data)
    requires Encode(d) == Encode(e)
    ensures d == e
  {
    NewKeyIsValid(d);
    NewKeyIsValid(e);
    assert |d| == |e|;
    if d != [] { SameFirst(d, e); }
    if |d| > 1 { SameSecond(d, e); }
    if |d| > 2 {
      SameThird(d, e);
      assert Encode(d)[4..] == Encode(d[3..]) && Encode(e)[4..] == Encode(e[3..]);
      NewKeysDiffer(d[3..], e[3..]);
      assert d == [d[0], d[1], d[2]] + d[3..] && e == [e[0], e[1], e[2]] + e[3..];
    }
  }
}
