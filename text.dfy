/**
 * The two string operations the grid relies on: rendering a count into a
 * template literal (`${n}` for a non-negative integer gives its decimal
 * digits, no sign, no leading zero) and `Array.prototype.join`.
 */
module Text {
  import opened Wrappers

  predicate IsDigit(c: char)
  {
    '0' <= c <= '9'
  }

  predicate AllDigits(s: string)
  {
    forall i :: 0 <= i < |s| ==> IsDigit(s[i])
  }

  function DigitChar(d: nat): (c: char)
    requires d < 10
    ensures IsDigit(c)
  {
    "0123456789"[d]
  }

  function DigitValue(c: char): (d: nat)
    requires IsDigit(c)
    ensures d < 10
  {
    (c as int - '0' as int) as nat
  }

  /** `${n}` for a non-negative integer count. */
  function DecimalString(n: nat): (s: string)
    ensures |s| > 0 && AllDigits(s)
    ensures s[0] == '0' ==> n == 0 && s == "0"
  {
    if n < 10 then [DigitChar(n)] else DecimalString(n / 10) + [DigitChar(n % 10)]
  }

  /** Reads a string of decimal digits back into the number it denotes. */
  function ParseDecimal(s: string): nat
    requires AllDigits(s)
  {
    if s == [] then 0 else ParseDecimal(s[..|s| - 1]) * 10 + DigitValue(s[|s| - 1])
  }

  /** Rendering a count and reading it back gives the count. */
  lemma {:induction false} ParseDecimalString(n: nat)
    ensures ParseDecimal(DecimalString(n)) == n
  {
    var s := DecimalString(n);
    if n >= 10 {
      ParseDecimalString(n / 10);
      assert s[..|s| - 1] == DecimalString(n / 10);
    } else {
      assert s[..0] == [];
    }
  }

  /** Two counts render the same only when they are equal. */
  lemma DecimalStringInjective(a: nat, b: nat)
    requires DecimalString(a) == DecimalString(b)
    ensures a == b
  {
    ParseDecimalString(a);
    ParseDecimalString(b);
  }

  /** A label of the form `${n}<suffix>`. */
  function CountLabel(n: nat, suffix: string): (text: string)
    ensures |text| > |suffix|
    ensures text[|text| - |suffix|..] == suffix
  {
    DecimalString(n) + suffix
  }

  /** Recovers the count from a label `${n}<suffix>`; None when it has another shape. */
  function ReadCountLabel(text: string, suffix: string): Option<nat>
  {
    if |text| > |suffix| && text[|text| - |suffix|..] == suffix
       && AllDigits(text[..|text| - |suffix|])
    then Some(ParseDecimal(text[..|text| - |suffix|]))
    else None
  }

  /** The count label reads back as its count. */
  lemma CountLabelRoundTrip(n: nat, suffix: string)
    ensures ReadCountLabel(CountLabel(n, suffix), suffix) == Some(n)
  {
    var text := CountLabel(n, suffix);
    assert text[..|text| - |suffix|] == DecimalString(n);
    ParseDecimalString(n);
  }

  // ---------------------------------------------------------------------
  // `Array.prototype.join(sep)`
  // ---------------------------------------------------------------------

  /** The parts with `sep` between neighbours: "" for none, the part itself for one. */
  function Join(parts: seq<string>, sep: string): (r: string)
    ensures parts == [] ==> r == ""
    ensures |parts| == 1 ==> r == parts[0]
    ensures |parts| == 2 ==> r == parts[0] + sep + parts[1]
  {
    if parts == [] then ""
    else if |parts| == 1 then parts[0]
    else parts[0] + sep + Join(parts[1..], sep)
  }

  function TotalLength(parts: seq<string>): nat
  {
    if parts == [] then 0 else |parts[0]| + TotalLength(parts[1..])
  }

  /** The joined length is every part plus one separator per gap. */
  lemma {:induction false} JoinLength(parts: seq<string>, sep: string)
    ensures |parts| > 0 ==> |Join(parts, sep)| == TotalLength(parts) + (|parts| - 1) * |sep|
  {
    if |parts| > 1 {
      JoinLength(parts[1..], sep);
    }
  }

  /** Joining is the left-to-right accumulation `acc + sep + part`. */
  lemma {:induction false} JoinSnoc(parts: seq<string>, part: string, sep: string)
    requires |parts| > 0
    ensures Join(parts + [part], sep) == Join(parts, sep) + sep + part
  {
    if |parts| == 1 {
      assert parts + [part] == [parts[0], part];
    } else {
      assert (parts + [part])[1..] == parts[1..] + [part];
      JoinSnoc(parts[1..], part, sep);
    }
  }

  /** Number of occurrences of a character. */
  function Occurrences(s: string, c: char): nat
  {
    if s == [] then 0 else (if s[0] == c then 1 else 0) + Occurrences(s[1..], c)
  }

  lemma {:induction false} OccurrencesAppend(a: string, b: string, c: char)
    ensures Occurrences(a + b, c) == Occurrences(a, c) + Occurrences(b, c)
  {
    if a != [] {
      assert (a + b)[1..] == a[1..] + b;
      OccurrencesAppend(a[1..], b, c);
    } else {
      assert a + b == b;
    }
  }

  /**
   * When no part contains the separator's character `c`, the joined string
   * holds exactly one `c` per gap, so the number of parts can be read back.
   */
  lemma {:induction false} JoinSeparatorCount(parts: seq<string>, sep: string, c: char)
    requires |parts| > 0
    requires forall i :: 0 <= i < |parts| ==> Occurrences(parts[i], c) == 0
    ensures Occurrences(Join(parts, sep), c) == (|parts| - 1) * Occurrences(sep, c)
  {
    if |parts| > 1 {
      JoinSeparatorCount(parts[1..], sep, c);
      OccurrencesAppend(parts[0] + sep, Join(parts[1..], sep), c);
      OccurrencesAppend(parts[0], sep, c);
    }
  }
}
