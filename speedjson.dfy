/** The JSON text of a speed reading, `{"speed":<n>}`: the payload published to
    the broker, the payload the subscription decodes, and the value stored in the
    cache. Integers are written as encoding/json writes them (decimal, no leading
    zero, a '-' for negatives). */
module SpeedJson {
  import opened Models

  predicate IsDigit(c: char) {
    '0' <= c <= '9'
  }

  predicate AllDigits(s: string) {
    forall i :: 0 <= i < |s| ==> IsDigit(s[i])
  }

  /** A digit string as encoding/json writes one: non-empty, no leading zero. */
  predicate Canonical(s: string) {
    |s| >= 1 && AllDigits(s) && (s[0] == '0' ==> |s| == 1)
  }

  function DigitChar(d: nat): (c: char)
    requires d < 10
    ensures IsDigit(c) && (c == '0' <==> d == 0)
  {
    ('0' as int + d) as char
  }

  function DigitValue(c: char): nat
    requires IsDigit(c)
  {
    c as int - '0' as int
  }

  /** The decimal digits of `n`. */
  function NatDigits(n: nat): (s: string)
    ensures Canonical(s)
    ensures n > 0 ==> s[0] != '0'
  {
    if n < 10 then [DigitChar(n)] else NatDigits(n / 10) + [DigitChar(n % 10)]
  }

  /** The number a digit string denotes. */
  function DigitsValue(s: string): nat
    requires AllDigits(s)
  {
    if s == [] then 0 else DigitsValue(s[..|s| - 1]) * 10 + DigitValue(s[|s| - 1])
  }

  lemma {:induction false} DigitsRoundTrip(n: nat)
    ensures DigitsValue(NatDigits(n)) == n
  {
    if n >= 10 {
      var p := NatDigits(n / 10);
      var s := p + [DigitChar(n % 10)];
      assert s[..|s| - 1] == p;
      DigitsRoundTrip(n / 10);
    }
  }

  /** A digit string worth nothing starts with '0'. */
  lemma {:induction false} ZeroValueStartsWithZero(s: string)
    requires |s| > 0 && AllDigits(s) && DigitsValue(s) == 0
    ensures s[0] == '0'
  {
    if |s| > 1 {
      var p := s[..|s| - 1];
      assert AllDigits(p);
      ZeroValueStartsWithZero(p);
    }
  }

  lemma {:induction false} CanonicalRoundTrip(s: string)
    requires Canonical(s)
    ensures NatDigits(DigitsValue(s)) == s
  {
    if |s| > 1 {
      var p := s[..|s| - 1];
      assert Canonical(p);
      if DigitsValue(p) == 0 {
        ZeroValueStartsWithZero(p);
      }
      CanonicalRoundTrip(p);
      assert s == p + [s[|s| - 1]];
    }
  }

  /** An int as encoding/json writes it. */
  function IntText(i: int): string {
    if i < 0 then "-" + NatDigits(-i) else NatDigits(i)
  }

  /** The int a JSON number denotes, for the spellings IntText produces. */
  function ParseIntText(s: string): Option<int> {
    if |s| > 0 && s[0] == '-' then
      if Canonical(s[1..]) && s[1] != '0' then Some(0 - DigitsValue(s[1..]) as int) else None
    else if Canonical(s) then Some(DigitsValue(s))
    else None
  }

  lemma IntTextRoundTrip(i: int)
    ensures ParseIntText(IntText(i)) == Some(i)
  {
    if i < 0 {
      DigitsRoundTrip(-i);
      assert IntText(i)[1..] == NatDigits(-i);
    } else {
      DigitsRoundTrip(i);
    }
  }

  lemma ParseIntTextCanonical(s: string, i: int)
    requires ParseIntText(s) == Some(i)
    ensures IntText(i) == s
  {
    if |s| > 0 && s[0] == '-' {
      CanonicalRoundTrip(s[1..]);
      assert s == "-" + s[1..];
    } else {
      CanonicalRoundTrip(s);
    }
  }

  const SPEED_PREFIX := "{\"speed\":"

  /** The bytes json.Marshal gives for a SpeedData whose speed is set, and for
      the map {"speed": speed} the cache stores. */
  function Marshal(speed: int): string {
    SPEED_PREFIX + IntText(speed) + "}"
  }

  /** json.Unmarshal into a SpeedData: the payload did not decode, or it did and
      the speed pointer is nil or set. */
  datatype Decoded = Undecodable | Decoded(speed: Option<int>)

  function Unmarshal(payload: string): Decoded {
    if payload == "{}" || payload == "{\"speed\":null}" then Decoded(None)
    else if |payload| > |SPEED_PREFIX| && payload[..|SPEED_PREFIX|] == SPEED_PREFIX
         && payload[|payload| - 1] == '}' then
      match ParseIntText(payload[|SPEED_PREFIX|..|payload| - 1])
      case Some(v) => Decoded(Some(v))
      case None => Undecodable
    else Undecodable
  }

  /** What is published (or stored) decodes to the same speed. */
  lemma MarshalRoundTrip(speed: int)
    ensures Unmarshal(Marshal(speed)) == Decoded(Some(speed))
  {
    var p := Marshal(speed);
    var t := IntText(speed);
    assert p[..|SPEED_PREFIX|] == SPEED_PREFIX;
    assert p[|SPEED_PREFIX|..|p| - 1] == t;
    assert p[|SPEED_PREFIX|] == t[0];
    assert IsDigit(t[0]) || t[0] == '-';
    IntTextRoundTrip(speed);
  }

  /** A payload that decodes to a speed is exactly the marshalled form of that
      speed, so the encoding loses nothing and admits one spelling per speed. */
  lemma UnmarshalCanonical(payload: string, speed: int)
    requires Unmarshal(payload) == Decoded(Some(speed))
    ensures Marshal(speed) == payload
  {
    var n := |SPEED_PREFIX|;
    var t := payload[n..|payload| - 1];
    ParseIntTextCanonical(t, speed);
    assert payload == payload[..n] + t + [payload[|payload| - 1]];
  }
}
