/** The JavaScript string primitives the modelled sources rely on, stated on
    `seq<char>`: the `\s` character class, `padStart`/`padEnd` with a
    one-character pad, `slice(0, end)`, `indexOf`/`replace` with a string
    pattern, `startsWith`, `join`, and `Number.prototype.toString(radix)` for
    integral numbers. */
module JsString {
  import opened Base

  /** The characters the JavaScript pattern `\s` matches (WhiteSpace and LineTerminator). */
  predicate IsWhitespace(c: char) {
    || c == ' ' || c == '\t' || c == '\n' || c == '\U{000B}' || c == '\U{000C}' || c == '\r'
    || c == '\U{00A0}' || c == '\U{1680}' || ('\U{2000}' <= c <= '\U{200A}')
    || c == '\U{2028}' || c == '\U{2029}' || c == '\U{202F}' || c == '\U{205F}'
    || c == '\U{3000}' || c == '\U{FEFF}'
  }

  /** The characters the JavaScript pattern `.` does not match. */
  predicate IsLineTerminator(c: char) {
    c == '\n' || c == '\r' || c == '\U{2028}' || c == '\U{2029}'
  }

  function Repeat(c: char, n: nat): (r: string)
    ensures |r| == n
    ensures forall k :: 0 <= k < n ==> r[k] == c
  {
    if n == 0 then [] else [c] + Repeat(c, n - 1)
  }

  /** `s.padStart(target, c)`: a target not above the length (also a negative or
      absent one, which JavaScript reads as 0) leaves `s` unchanged. */
  function PadStart(s: string, target: int, c: char): (r: string)
    ensures |r| == if target <= |s| then |s| else target
    ensures r[|r| - |s|..] == s
    ensures forall k :: 0 <= k < |r| - |s| ==> r[k] == c
  {
    if target <= |s| then s else Repeat(c, target - |s|) + s
  }

  /** `s.padEnd(target, c)`. */
  function PadEnd(s: string, target: int, c: char): (r: string)
    ensures |r| == if target <= |s| then |s| else target
    ensures r[..|s|] == s
    ensures forall k :: |s| <= k < |r| ==> r[k] == c
  {
    if target <= |s| then s else s + Repeat(c, target - |s|)
  }

  /** `s.slice(0, end)`: a negative end counts from the end of the string. */
  function SliceTo(s: string, end: int): (r: string)
    ensures end >= 0 ==> r == s[..if end <= |s| then end else |s|]
    ensures end < 0 ==> r == s[..if |s| + end >= 0 then |s| + end else 0]
  {
    if end >= 0 then s[..if end <= |s| then end else |s|]
    else s[..if |s| + end >= 0 then |s| + end else 0]
  }

  predicate StartsWith(s: string, prefix: string) {
    |prefix| <= |s| && s[..|prefix|] == prefix
  }

  predicate OccursAt(s: string, pat: string, j: int) {
    0 <= j && j + |pat| <= |s| && s[j..j + |pat|] == pat
  }

  /** `s.indexOf(pat, from)` for `from` within the string, as an option. */
  function IndexFrom(s: string, pat: string, from: nat): (r: Option<nat>)
    requires from <= |s|
    ensures r.Some? ==> from <= r.value && OccursAt(s, pat, r.value)
    ensures r.Some? ==> forall j :: from <= j < r.value ==> !OccursAt(s, pat, j)
    ensures r.None? ==> forall j :: from <= j ==> !OccursAt(s, pat, j)
    decreases |s| - from
  {
    if OccursAt(s, pat, from) then Some(from)
    else if from + |pat| >= |s| then None
    else IndexFrom(s, pat, from + 1)
  }

  /** `s.indexOf(pat)`, as an option. */
  function IndexOf(s: string, pat: string): Option<nat> {
    IndexFrom(s, pat, 0)
  }

  /** The text `replace` inserts for a match of a string pattern: in `rep`,
      `$$` stands for a dollar sign, `$&` for the match, `` $` `` for the text
      before it and `$'` for the text after it. A string pattern captures no
      groups, so every other `$` stays as written. */
  function Substitute(rep: string, matched: string, before: string, after: string): (r: string)
    ensures '$' !in rep ==> r == rep
    decreases |rep|
  {
    if rep == [] then []
    else if rep[0] == '$' && |rep| >= 2 && rep[1] == '$' then "$" + Substitute(rep[2..], matched, before, after)
    else if rep[0] == '$' && |rep| >= 2 && rep[1] == '&' then matched + Substitute(rep[2..], matched, before, after)
    else if rep[0] == '$' && |rep| >= 2 && rep[1] == '`' then before + Substitute(rep[2..], matched, before, after)
    else if rep[0] == '$' && |rep| >= 2 && rep[1] == '\'' then after + Substitute(rep[2..], matched, before, after)
    else [rep[0]] + Substitute(rep[1..], matched, before, after)
  }

  /** `s.replace(pat, rep)` with a string pattern: only the first occurrence
      is replaced, by `rep` with its `$` patterns substituted. */
  function ReplaceFirst(s: string, pat: string, rep: string): string {
    match IndexOf(s, pat)
    case None => s
    case Some(j) => s[..j] + Substitute(rep, pat, s[..j], s[j + |pat|..]) + s[j + |pat|..]
  }

  /** `parts.join(sep)`. */
  function Join(parts: seq<string>, sep: string): string {
    if parts == [] then []
    else if |parts| == 1 then parts[0]
    else parts[0] + sep + Join(parts[1..], sep)
  }

  function DigitChar(d: nat): char
    requires d < 16
  {
    "0123456789abcdef"[d]
  }

  /** The value of a lower-case digit of the given radix, if it is one. */
  function DigitValue(c: char, radix: nat): Option<nat>
    requires 2 <= radix <= 16
  {
    if '0' <= c <= '9' && (c as int - '0' as int) < radix then Some(c as int - '0' as int)
    else if 'a' <= c <= 'f' && (c as int - 'a' as int) + 10 < radix then Some(c as int - 'a' as int + 10)
    else None
  }

  /** `n.toString(radix)` for a natural number: its digits, most significant first. */
  function NatToString(n: nat, radix: nat): (r: string)
    requires 2 <= radix <= 16
    decreases n
  {
    if n < radix then [DigitChar(n)] else NatToString(n / radix, radix) + [DigitChar(n % radix)]
  }

  /** `n.toString(radix)` for an integral number: a minus sign, then the digits of its magnitude. */
  function IntToString(n: int, radix: nat): string
    requires 2 <= radix <= 16
  {
    if n < 0 then "-" + NatToString(-n, radix) else NatToString(n, radix)
  }

  /** Decimal rendering, as `String(n)` and template literals give it for an integral number. */
  function Decimal(n: int): string {
    IntToString(n, 10)
  }

  /** Reads a string of digits of the given radix back into its value. */
  function DigitsValue(s: string, radix: nat): Option<nat>
    requires 2 <= radix <= 16
  {
    if s == [] then None
    else
      var last := DigitValue(s[|s| - 1], radix);
      if last.None? then None
      else if |s| == 1 then last
      else
        match DigitsValue(s[..|s| - 1], radix)
        case None => None
        case Some(v) => Some(v * radix + last.value)
  }

  lemma DigitCharValue(d: nat, radix: nat)
    requires 2 <= radix <= 16 && d < radix
    ensures DigitValue(DigitChar(d), radix) == Some(d)
  {
  }

  lemma DivModRadix(n: nat, radix: nat)
    requires 2 <= radix && radix <= n
    ensures n / radix < n && n == (n / radix) * radix + n % radix
  {
  }

  /** Reading the digits of `n.toString(radix)` gives `n` back. */
  lemma {:induction false} NatToStringRoundTrip(n: nat, radix: nat)
    requires 2 <= radix <= 16
    ensures DigitsValue(NatToString(n, radix), radix) == Some(n)
    decreases n
  {
    if n >= radix {
      var q, d := n / radix, n % radix;
      DivModRadix(n, radix);
      NatToStringRoundTrip(q, radix);
      NatToStringLead(q, radix);
      DigitCharValue(d, radix);
      DigitsValueSnoc(NatToString(q, radix), DigitChar(d), radix, q, d);
    } else {
      DigitCharValue(n, radix);
    }
  }

  lemma DigitsValueSnoc(front: string, c: char, radix: nat, v: nat, d: nat)
    requires 2 <= radix <= 16
    requires front != [] && DigitsValue(front, radix) == Some(v) && DigitValue(c, radix) == Some(d)
    ensures DigitsValue(front + [c], radix) == Some(v * radix + d)
  {
    var s := front + [c];
    assert s[..|s| - 1] == front;
  }

  /** `n.toString(radix)` is non-empty, made of digits of that radix, and has no
      leading zero unless it is the single digit of 0. */
  lemma {:induction false} NatToStringShape(n: nat, radix: nat)
    requires 2 <= radix <= 16
    ensures DigitString(NatToString(n, radix), radix)
    ensures NatToString(n, radix)[0] == '0' <==> n == 0
  {
    NatToStringDigits(n, radix);
    NatToStringLead(n, radix);
  }

  lemma {:induction false} NatToStringDigits(n: nat, radix: nat)
    requires 2 <= radix <= 16
    ensures DigitString(NatToString(n, radix), radix)
    decreases n
  {
    if n >= radix {
      NatToStringDigits(n / radix, radix);
      DigitCharValue(n % radix, radix);
      DigitStringSnoc(NatToString(n / radix, radix), DigitChar(n % radix), radix);
    } else {
      SingleDigitShape(n, radix);
    }
  }

  lemma {:induction false} NatToStringLead(n: nat, radix: nat)
    requires 2 <= radix <= 16
    ensures |NatToString(n, radix)| > 0
    ensures NatToString(n, radix)[0] == '0' <==> n == 0
    decreases n
  {
    if n >= radix {
      NatToStringLead(n / radix, radix);
      QuotientPositive(n, radix);
      assert NatToString(n, radix)[0] == NatToString(n / radix, radix)[0];
    } else {
      SingleDigitShape(n, radix);
    }
  }

  lemma SingleDigitShape(d: nat, radix: nat)
    requires 2 <= radix <= 16 && d < radix
    ensures DigitString([DigitChar(d)], radix)
    ensures DigitChar(d) == '0' <==> d == 0
  {
    DigitCharValue(d, radix);
    DigitCharValue(0, radix);
  }

  /** A non-empty string of digits of the given radix. */
  predicate DigitString(s: string, radix: nat)
    requires 2 <= radix <= 16
  {
    |s| > 0 && forall k :: 0 <= k < |s| ==> DigitValue(s[k], radix).Some?
  }

  lemma DigitStringSnoc(s: string, c: char, radix: nat)
    requires 2 <= radix <= 16
    requires DigitString(s, radix) && DigitValue(c, radix).Some?
    ensures DigitString(s + [c], radix) && (s + [c])[0] == s[0]
  {
    var t := s + [c];
    forall k | 0 <= k < |t|
      ensures DigitValue(t[k], radix).Some?
    {
      if k < |s| {
        assert t[k] == s[k];
      }
    }
  }

  lemma QuotientPositive(n: nat, radix: nat)
    requires 2 <= radix <= n
    ensures n / radix != 0
  {
  }

  /** Upper-casing of the ASCII letters, which is all `toUpperCase` meets in hexadecimal output. */
  function AsciiUpper(s: string): (r: string)
    ensures |r| == |s|
  {
    seq(|s|, k requires 0 <= k < |s| => if 'a' <= s[k] <= 'z' then (s[k] as int - 32) as char else s[k])
  }
}
