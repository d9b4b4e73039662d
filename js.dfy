/** Values as the JavaScript runtime hands them over from a parsed JSON body,
    and the two conversions to text the receiver relies on: string
    concatenation of a possibly missing field, and the decimal rendering of
    a page counter inside a template literal. */
module Js {

  /** A field read from a parsed JSON object: present with a value, JSON
      `null`, or missing altogether (`undefined`). */
  datatype Field<T> = Present(value: T) | Null | Undefined {
    /** The fields on which `?.` short-circuits and `??` falls back. */
    predicate IsNullish() {
      !Present?
    }
  }

  /** JavaScript's conversion of a string field to text, as `+` applies it
      when the other operand is a string: `null` and `undefined` become
      their own names. */
  function ToJsString(f: Field<string>): (s: string)
    ensures f.Present? ==> s == f.value
    ensures f.Null? ==> s == "null"
    ensures f.Undefined? ==> s == "undefined"
  {
    match f
    case Present(s) => s
    case Null => "null"
    case Undefined => "undefined"
  }

  predicate IsDigit(c: char) {
    '0' <= c <= '9'
  }

  predicate IsDigits(s: string) {
    forall i :: 0 <= i < |s| ==> IsDigit(s[i])
  }

  /** The text JavaScript produces for a non-negative integer: at least one
      digit, and no leading zero unless the number is 0. */
  predicate IsCanonicalNumber(s: string) {
    |s| >= 1 && IsDigits(s) && (s[0] == '0' ==> |s| == 1)
  }

  function DigitValue(c: char): (d: nat)
    requires IsDigit(c)
    ensures d < 10
  {
    c as int - '0' as int
  }

  function DigitChar(d: nat): (c: char)
    requires d < 10
    ensures IsDigit(c) && DigitValue(c) == d
  {
    ('0' as int + d) as char
  }

  /** The number a string of decimal digits denotes (most significant digit
      first); the reference reading of `NumberToString`'s output. */
  function ParseDigits(s: string): nat
    requires IsDigits(s)
    decreases |s|
  {
    if s == [] then 0 else 10 * ParseDigits(s[..|s| - 1]) + DigitValue(s[|s| - 1])
  }

  /** `${n}` for a non-negative integer counter: its canonical decimal text. */
  function NumberToString(n: nat): (s: string)
    ensures IsCanonicalNumber(s)
    ensures ParseDigits(s) == n
    decreases n
  {
    if n < 10 then
      [DigitChar(n)]
    else
      var front := NumberToString(n / 10);
      var s := front + [DigitChar(n % 10)];
      assert s[..|s| - 1] == front;
      s
  }

  /** Different counters are rendered as different texts. */
  lemma NumberToStringInjective(m: nat, n: nat)
    ensures NumberToString(m) == NumberToString(n) ==> m == n
  {
  }

  /** A digit string without a leading zero denotes a positive number. */
  lemma {:induction false} LeadingDigitPositive(s: string)
    requires |s| >= 1 && IsDigits(s) && s[0] != '0'
    ensures ParseDigits(s) >= 1
  {
    if |s| > 1 {
      LeadingDigitPositive(s[..|s| - 1]);
    }
  }

  /** The converse of `NumberToString`'s contract: the canonical text of a
      number is the only canonical digit string that denotes it, so reading
      a canonical number back and rendering it again gives the same text. */
  lemma {:induction false} CanonicalNumberUnique(s: string)
    requires IsCanonicalNumber(s)
    ensures NumberToString(ParseDigits(s)) == s
  {
    var n := ParseDigits(s);
    if |s| == 1 {
      assert s[..0] == [] && ParseDigits(s[..0]) == 0;
      assert n == DigitValue(s[0]);
      assert [DigitChar(n)] == s;
    } else {
      var front := s[..|s| - 1];
      assert front[0] == s[0];
      LeadingDigitPositive(front);
      CanonicalNumberUnique(front);
      var m := ParseDigits(front);
      assert n == 10 * m + DigitValue(s[|s| - 1]);
      assert n / 10 == m && n % 10 == DigitValue(s[|s| - 1]);
      assert s == front + [s[|s| - 1]];
    }
  }

  /** Where the four pieces of a glued text can be cut out again. */
  lemma Slices(header: string, name: string, middle: string, tail: string)
    ensures var url := header + name + middle + tail;
      var h, n, m := |header|, |name|, |middle|;
      && url[..h] == header
      && url[h..] == (name + middle) + tail
      && url[h..h + n] == name
      && url[h + n..h + n + m] == middle
      && url[h + n + m..] == tail
      && url[|url| - |tail| - m..|url| - |tail|] == middle
      && url[|url| - |tail|..] == tail
      && url[h..|url| - |tail| - m] == name
  {
  }
}
