/** The `"x,y,z"` key of js/block-registry.js: a template literal that
    writes each integer coordinate in decimal, with a leading minus sign
    when negative, joined by commas. A decoder is given as the key's left
    inverse, which makes the encoding injective. */
module KeyCodec {
  import opened Wrappers

  /** A block position. */
  datatype Pos = Pos(x: int, y: int, z: int)

  function DigitChar(d: nat): (c: char)
    requires d < 10
    ensures '0' <= c <= '9'
  {
    "0123456789"[d]
  }

  function DigitValue(c: char): (d: nat)
    requires '0' <= c <= '9'
    ensures d < 10
  {
    (c as int - '0' as int) as nat
  }

  predicate IsDigits(s: string)
  {
    |s| > 0 && forall i :: 0 <= i < |s| ==> '0' <= s[i] <= '9'
  }

  /** The decimal digits of n, most significant first, without leading
      zeros. */
  function Digits(n: nat): (s: string)
    ensures IsDigits(s)
    decreases n
  {
    if n < 10 then [DigitChar(n)] else Digits(n / 10) + [DigitChar(n % 10)]
  }

  /** The value of a digit string read in decimal. */
  function DigitsValue(s: string): nat
    requires IsDigits(s)
    decreases |s|
  {
    if |s| == 1 then DigitValue(s[0])
    else DigitsValue(s[..|s| - 1]) * 10 + DigitValue(s[|s| - 1])
  }

  /** `String(n)` for an integer. */
  function IntToString(n: int): (s: string)
    ensures |s| > 0 && ',' !in s
  {
    var s := if n < 0 then "-" + Digits(-n) else Digits(n);
    assert forall i :: 0 <= i < |s| ==> s[i] != ',';
    s
  }

  /** Reads an optional minus sign followed by decimal digits. */
  function ParseInt(s: string): Option<int>
  {
    if |s| > 0 && s[0] == '-' && IsDigits(s[1..]) then Some(0 - DigitsValue(s[1..]))
    else if IsDigits(s) then Some(DigitsValue(s))
    else None
  }

  lemma {:induction false} DigitsRoundTrip(n: nat)
    ensures DigitsValue(Digits(n)) == n
    decreases n
  {
    if n >= 10 {
      var s := Digits(n);
      assert s[..|s| - 1] == Digits(n / 10);
      DigitsRoundTrip(n / 10);
    }
  }

  /** Reading back a written integer gives the integer. */
  lemma IntRoundTrip(n: int)
    ensures ParseInt(IntToString(n)) == Some(n)
  {
    if n < 0 {
      var s := "-" + Digits(-n);
      assert s[1..] == Digits(-n);
      DigitsRoundTrip(-n);
    } else {
      DigitsRoundTrip(n);
    }
  }

  /** The block key `${x},${y},${z}`. */
  function Key(p: Pos): string
  {
    IntToString(p.x) + "," + IntToString(p.y) + "," + IntToString(p.z)
  }

  /** The index of the first comma in s. */
  function FirstComma(s: string): (i: nat)
    requires ',' in s
    ensures i < |s| && s[i] == ','
    ensures forall j :: 0 <= j < i ==> s[j] != ','
  {
    if s[0] == ',' then 0 else FirstComma(s[1..]) + 1
  }

  /** The fields of s between commas, as `String.prototype.split(',')`
      returns them. */
  function Split(s: string): (parts: seq<string>)
    ensures |parts| > 0
    decreases |s|
  {
    if ',' !in s then [s]
    else
      var i := FirstComma(s);
      [s[..i]] + Split(s[i + 1..])
  }

  /** Decodes a key into its position; None for a string that is not three
      comma-separated integers. */
  function ParseKey(s: string): Option<Pos>
  {
    var parts := Split(s);
    if |parts| != 3 then None
    else match (ParseInt(parts[0]), ParseInt(parts[1]), ParseInt(parts[2]))
      case (Some(x), Some(y), Some(z)) => Some(Pos(x, y, z))
      case _ => None
  }

  lemma SplitField(a: string, b: string)
    requires ',' !in a
    ensures Split(a + "," + b) == [a] + Split(b)
  {
    var s := a + "," + b;
    assert s[|a|] == ',';
    var i := FirstComma(s);
    assert i == |a|;
    assert s[..i] == a;
    assert s[i + 1..] == b;
  }

  /** Decoding inverts the key. */
  lemma KeyRoundTrip(p: Pos)
    ensures ParseKey(Key(p)) == Some(p)
  {
    var a, b, c := IntToString(p.x), IntToString(p.y), IntToString(p.z);
    assert Split(Key(p)) == [a, b, c] by {
      assert Key(p) == a + "," + (b + "," + c);
      SplitField(a, b + "," + c);
      SplitField(b, c);
      assert ',' !in c;
    }
    IntRoundTrip(p.x);
    IntRoundTrip(p.y);
    IntRoundTrip(p.z);
  }

  /** Distinct positions never share a key. */
  lemma KeyInjective(p: Pos, q: Pos)
    ensures Key(p) == Key(q) <==> p == q
  {
    if Key(p) == Key(q) {
      KeyRoundTrip(p);
      KeyRoundTrip(q);
    }
  }
}
