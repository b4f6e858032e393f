/**
 * The few JavaScript primitives the client's logic leans on, written out:
 * the decimal spelling of integers (`String(n)`, template literals),
 * `parseInt`, `String.prototype.split`, `includes`, `trim`, the truthiness of
 * optional strings, and ids that are numbers in some places and strings in others.
 */
module Js {
  import opened Base

  // ---------------------------------------------------------------- digits

  predicate IsDigit(c: char) { '0' <= c <= '9' }

  predicate AllDigits(s: string) { forall i :: 0 <= i < |s| ==> IsDigit(s[i]) }

  function DigitChar(d: nat): (c: char)
    requires d < 10
    ensures IsDigit(c)
  {
    (48 + d) as char
  }

  function DigitValue(c: char): nat
    requires IsDigit(c)
  {
    c as int - 48
  }

  /** `String(n)` for `n >= 0`: the shortest decimal spelling, no sign. */
  function NatToString(n: nat): (r: string)
    ensures |r| >= 1 && AllDigits(r)
  {
    if n < 10 then [DigitChar(n)] else NatToString(n / 10) + [DigitChar(n % 10)]
  }

  /** `String(n)` for any integer: a `-` in front of a negative number. */
  function IntToString(n: int): (r: string)
    ensures |r| >= 1 && (n >= 0 <==> IsDigit(r[0]))
  {
    if n < 0 then "-" + NatToString(-n) else NatToString(n)
  }

  /** The value of a string of decimal digits, most significant first. */
  function DigitsValue(s: string): nat
    requires AllDigits(s)
  {
    if s == [] then 0 else DigitsValue(s[..|s| - 1]) * 10 + DigitValue(s[|s| - 1])
  }

  lemma {:induction false} NatToStringValue(n: nat)
    ensures DigitsValue(NatToString(n)) == n
  {
    if n >= 10 {
      var p := NatToString(n / 10);
      var r := NatToString(n);
      assert r[..|r| - 1] == p;
      NatToStringValue(n / 10);
    }
  }

  /** Distinct integers have distinct decimal spellings. */
  lemma IntToStringInjective(m: int, n: int)
    requires IntToString(m) == IntToString(n)
    ensures m == n
  {
    ParseIntOfString(m);
    ParseIntOfString(n);
  }

  // -------------------------------------------------------------- parseInt

  /** A JavaScript number as far as `parseInt` can produce one. */
  datatype Number = Int(value: int) | NaN

  /** Length of the run of digits at the start of `s`. */
  function DigitRun(s: string): (k: nat)
    ensures k <= |s| && AllDigits(s[..k])
    ensures k < |s| ==> !IsDigit(s[k])
  {
    if s == [] || !IsDigit(s[0]) then 0
    else
      var k := 1 + DigitRun(s[1..]);
      assert s[..k] == [s[0]] + s[1..][..k - 1];
      k
  }

  lemma {:induction false} DigitRunOfDigits(s: string)
    requires AllDigits(s)
    ensures DigitRun(s) == |s|
  {
    if s != [] {
      DigitRunOfDigits(s[1..]);
    }
  }

  /**
   * `parseInt(s)` (radix 10): leading white space is skipped, one optional
   * sign is read, then the longest run of digits; no digits gives `NaN`.
   */
  function ParseInt(s: string): Number
  {
    var t := TrimStart(s);
    var body := SignlessBody(t);
    var k := DigitRun(body);
    var v: int := if k == 0 then 0 else DigitsValue(body[..k]);
    if k == 0 then NaN
    else if |t| > 0 && t[0] == '-' then Int(-v)
    else Int(v)
  }

  /** `s` without one leading `+` or `-`. */
  function SignlessBody(t: string): string
  {
    if |t| > 0 && (t[0] == '-' || t[0] == '+') then t[1..] else t
  }

  /** `parseInt(String(n)) === n`: spelling an integer and parsing it back gives it back. */
  lemma ParseIntOfString(n: int)
    ensures ParseInt(IntToString(n)) == Int(n)
  {
    var m: nat := if n < 0 then -n else n;
    var d := NatToString(m);
    NatToStringValue(m);
    DigitRunOfDigits(d);
    assert d[..|d|] == d;
    var t := IntToString(n);
    assert TrimStart(t) == t;
    assert SignlessBody(t) == d;
  }

  // ----------------------------------------------------------------- split

  /** `s.split(sep)` for a one-character separator. */
  function Split(s: string, sep: char): (r: seq<string>)
    ensures |r| >= 1
  {
    if s == [] then [[]]
    else
      var rest := Split(s[1..], sep);
      if s[0] == sep then [[]] + rest else [[s[0]] + rest[0]] + rest[1..]
  }

  /** `s.split(sep)[i]`, which is `undefined` past the last piece. */
  function SplitPart(s: string, sep: char, i: nat): Option<string>
  {
    var pieces := Split(s, sep);
    if i < |pieces| then Some(pieces[i]) else None
  }

  lemma {:induction false} SplitWithoutSeparator(a: string, sep: char)
    requires sep !in a
    ensures Split(a, sep) == [a]
  {
    if a != [] {
      SplitWithoutSeparator(a[1..], sep);
      assert [a[0]] + a[1..] == a;
    }
  }

  /** Splitting `a + sep + b`, where `a` has no separator, gives `a` and then the pieces of `b`. */
  lemma {:induction false} SplitAtFirstSeparator(a: string, b: string, sep: char)
    requires sep !in a
    ensures Split(a + [sep] + b, sep) == [a] + Split(b, sep)
  {
    var s := a + [sep] + b;
    if a == [] {
      assert s[1..] == b;
    } else {
      assert s[1..] == a[1..] + [sep] + b;
      SplitAtFirstSeparator(a[1..], b, sep);
      assert [a[0]] + a[1..] == a;
    }
  }

  // -------------------------------------------------------------- includes

  predicate StartsWith(s: string, prefix: string)
  {
    |prefix| <= |s| && s[..|prefix|] == prefix
  }

  /** `s.includes(part)`. */
  predicate Includes(s: string, part: string)
    decreases |s|
  {
    StartsWith(s, part) || (s != [] && Includes(s[1..], part))
  }

  lemma {:induction false} IncludesAt(s: string, part: string, i: nat)
    requires i + |part| <= |s| && s[i..i + |part|] == part
    ensures Includes(s, part)
  {
    if i > 0 {
      assert s[1..][i - 1..i - 1 + |part|] == part;
      IncludesAt(s[1..], part, i - 1);
    }
  }

  lemma {:induction false} IncludesWitness(s: string, part: string) returns (i: nat)
    requires Includes(s, part)
    ensures i + |part| <= |s| && s[i..i + |part|] == part
  {
    if StartsWith(s, part) {
      i := 0;
    } else {
      var j := IncludesWitness(s[1..], part);
      assert s[1..][j..j + |part|] == s[j + 1..j + 1 + |part|];
      i := j + 1;
    }
  }

  /** `part` occurs in `s` starting at index `i`. */
  predicate OccursAt(s: string, part: string, i: int)
  {
    0 <= i && i + |part| <= |s| && s[i..i + |part|] == part
  }

  /** `includes` is exactly "occurs at some position". */
  lemma IncludesIff(s: string, part: string)
    ensures Includes(s, part) <==> exists i :: OccursAt(s, part, i)
  {
    if Includes(s, part) {
      var i := IncludesWitness(s, part);
      assert OccursAt(s, part, i);
    }
    if exists i :: OccursAt(s, part, i) {
      var i :| OccursAt(s, part, i);
      IncludesAt(s, part, i);
    }
  }

  /** A string cannot include a part that has a character the string lacks. */
  lemma MissingCharNotIncluded(s: string, part: string, c: char)
    requires c in part && c !in s
    ensures !Includes(s, part)
  {
    IncludesIff(s, part);
    var j :| 0 <= j < |part| && part[j] == c;
    forall i | 0 <= i ensures !OccursAt(s, part, i) {
      if i + |part| <= |s| {
        assert s[i..i + |part|][j] == s[i + j];
      }
    }
  }

  // ------------------------------------------------------------------ trim

  /** The white space `trim` removes: ECMAScript WhiteSpace (the Unicode space separators, tab, vertical tab, form feed, no-break space, byte-order mark) and LineTerminator. */
  predicate IsSpace(c: char)
  {
    c == ' ' || c == '\t' || c == '\n' || c == '\r' || c == '\U{0B}' || c == '\U{0C}'
    || c == '\U{A0}' || c == '\U{1680}' || ('\U{2000}' <= c <= '\U{200A}')
    || c == '\U{2028}' || c == '\U{2029}' || c == '\U{202F}' || c == '\U{205F}'
    || c == '\U{3000}' || c == '\U{FEFF}'
  }

  predicate Blank(s: string) { forall i :: 0 <= i < |s| ==> IsSpace(s[i]) }

  function TrimStart(s: string): (r: string)
    ensures r != [] ==> !IsSpace(r[0])
  {
    if s != [] && IsSpace(s[0]) then TrimStart(s[1..]) else s
  }

  function TrimEnd(s: string): string
  {
    if s != [] && IsSpace(s[|s| - 1]) then TrimEnd(s[..|s| - 1]) else s
  }

  /** `s.trim()`. */
  function Trim(s: string): string
  {
    TrimEnd(TrimStart(s))
  }

  lemma {:induction false} TrimStartEmptyIffBlank(s: string)
    ensures TrimStart(s) == [] <==> Blank(s)
  {
    if s != [] {
      TrimStartEmptyIffBlank(s[1..]);
      if IsSpace(s[0]) && Blank(s[1..]) {
        assert forall i :: 0 <= i < |s| ==> IsSpace(s[i]) by {
          forall i | 0 <= i < |s| ensures IsSpace(s[i]) {
            if i > 0 { assert s[i] == s[1..][i - 1]; }
          }
        }
      }
    }
  }

  lemma {:induction false} TrimEndEmptyOnlyIfBlank(s: string)
    requires TrimEnd(s) == []
    ensures Blank(s)
  {
    if s != [] {
      TrimEndEmptyOnlyIfBlank(s[..|s| - 1]);
    }
  }

  /** `s.trim() === ''` exactly when `s` is empty or all white space. */
  lemma TrimEmptyIffBlank(s: string)
    ensures Trim(s) == [] <==> Blank(s)
  {
    TrimStartEmptyIffBlank(s);
    var t := TrimStart(s);
    if Trim(s) == [] && t != [] {
      TrimEndEmptyOnlyIfBlank(t);
      assert false;
    }
  }

  // ------------------------------------------------------------ truthiness

  /** A string field that is present and non-empty, i.e. truthy. */
  predicate Truthy(o: Option<string>) { o.Some? && o.value != "" }

  /** `a || b` for an optional string `a` and a string `b`. */
  function OrElse(a: Option<string>, b: string): string
  {
    if Truthy(a) then a.value else b
  }

  /** An optional integer id that is present and not `0`, i.e. truthy. */
  predicate TruthyId(o: Option<int>) { o.Some? && o.value != 0 }

  // ------------------------------------------------------------------- ids

  /**
   * A user id as the client holds it: a number when it comes from the
   * server or a socket payload, a string when it comes from the route.
   * `===` on two of these is datatype equality, so `Num(5) != Str("5")`.
   */
  datatype JsId = Num(n: int) | Str(s: string)

  /** The id as a template literal spells it. */
  function Show(id: JsId): string
  {
    match id
    case Num(n) => IntToString(n)
    case Str(s) => s
  }
}
