/** The printf-style formatter of the localization helpers
    (src/catalyst/core/locale.ts): `parseFormat` cuts a format string into
    literal text and placeholders shaped like the conversion specifications
    of section 7.21.6.1 of ISO/IEC 9899:2011 (plus the custom `?` and `b`
    specifiers), and `applyFormat` renders them with arguments. Numbers are
    integers here; the floating-point conversions are a parameter. */
module Locale {
  import opened Base
  import opened JsString

  const Trailing := "format string contains trailing '%'"
  const Incomplete := "incomplete format specifier"

  function Unknown(c: char): string {
    "unknown conversion specifier: " + [c]
  }

  /** The conversion specifiers, the flag characters and the characters
      that start a length modifier. */
  const Specifiers := "%?csdiobxXufFeEaAgG"
  const FlagChars := "+-# 0"
  const LengthChars := "hljztL"

  /** A field width or precision: absent (`null`), `*` (taken from the
      arguments), or written in the placeholder. */
  datatype Field = Unset | Star | Given(n: nat)

  /** A placeholder: its full text, the `n$` argument index (-1 when
      absent), width, precision, length modifier ("" when absent),
      conversion specifier and flags. */
  datatype Placeholder = Placeholder(
    text: string,
    argIndex: int,
    width: Field,
    precision: Field,
    lengthModifier: string,
    specifier: char,
    alternate: bool,
    leftAlign: bool,
    plusSign: bool,
    spaceSign: bool,
    zeroPad: bool)

  /** A token of a parsed format: literal text or a placeholder. */
  datatype Token = Lit(text: string) | Spec(ph: Placeholder)

  predicate IsDigit(c: char) {
    '0' <= c <= '9'
  }

  // ---------------------------------------------------------------------------
  // Scanning a placeholder

  /** The end of the run of decimal digits starting at `p`. */
  function DigitsEnd(s: string, p: nat): (q: nat)
    requires p <= |s|
    ensures p <= q <= |s|
    ensures forall k :: p <= k < q ==> IsDigit(s[k])
    ensures q < |s| ==> !IsDigit(s[q])
    decreases |s| - p
  {
    if p < |s| && IsDigit(s[p]) then DigitsEnd(s, p + 1) else p
  }

  /** `+num` for a run of decimal digits. */
  function DecimalValue(ds: string): nat {
    if ds == [] then 0
    else
      var last := ds[|ds| - 1];
      DecimalValue(ds[..|ds| - 1]) * 10 + if IsDigit(last) then last as int - '0' as int else 0
  }

  /** A run of digits that does not start with 0 is worth at least 1. */
  lemma {:induction false} LeadingDigit(ds: string)
    requires ds != [] && '1' <= ds[0] <= '9'
    ensures DecimalValue(ds) >= 1
    decreases |ds|
  {
    if |ds| > 1 {
      LeadingDigit(ds[..|ds| - 1]);
    }
  }

  /** The placeholder as it is when the `%` has been read. */
  const Fresh := Placeholder("%", -1, Unset, Unset, "", '%', false, false, false, false, false)

  /** The optional `n$` right after the `%` (at `p`): the index and the
      position after the `$`, or -1 and the same position. */
  function ArgIndexAt(s: string, p: nat): (r: (int, nat))
    requires p <= |s|
    ensures (r.0 == -1 && r.1 == p) || (r.0 >= 1 && p < r.1 <= |s| && s[r.1 - 1] == '$')
  {
    if p < |s| && '1' <= s[p] <= '9' && DigitsEnd(s, p) < |s| && s[DigitsEnd(s, p)] == '$' then
      LeadingDigit(s[p..DigitsEnd(s, p)]);
      (DecimalValue(s[p..DigitsEnd(s, p)]), DigitsEnd(s, p) + 1)
    else (-1, p)
  }

  function SetFlag(ph: Placeholder, c: char): Placeholder {
    if c == '+' then ph.(plusSign := true)
    else if c == '-' then ph.(leftAlign := true)
    else if c == '#' then ph.(alternate := true)
    else if c == ' ' then ph.(spaceSign := true)
    else if c == '0' then ph.(zeroPad := true)
    else ph
  }

  /** The flag loop: a flag character is taken only when another
      character follows it. */
  function FlagsFrom(s: string, p: nat, ph: Placeholder): (r: (nat, Placeholder))
    requires p <= |s|
    ensures p <= r.0 <= |s|
    ensures r.1.argIndex == ph.argIndex
    decreases |s| - p
  {
    if p + 1 < |s| && s[p] in FlagChars then FlagsFrom(s, p + 1, SetFlag(ph, s[p])) else (p, ph)
  }

  /** `+` overrides the space flag and `-` the `0` flag. */
  function Normalize(ph: Placeholder): (r: Placeholder)
    ensures r.plusSign ==> !r.spaceSign
    ensures r.leftAlign ==> !r.zeroPad
    ensures r.plusSign == ph.plusSign && r.leftAlign == ph.leftAlign && r.alternate == ph.alternate
    ensures r.spaceSign == (ph.spaceSign && !ph.plusSign) && r.zeroPad == (ph.zeroPad && !ph.leftAlign)
  {
    ph.(spaceSign := ph.spaceSign && !ph.plusSign, zeroPad := ph.zeroPad && !ph.leftAlign)
  }

  /** A width or precision at `p`: `*`, digits, or nothing. */
  function FieldAt(s: string, p: nat): (r: (Field, nat))
    requires p < |s|
    ensures p <= r.1 <= |s|
  {
    if s[p] == '*' then (Star, p + 1)
    else if IsDigit(s[p]) then (Given(DecimalValue(s[p..DigitsEnd(s, p)])), DigitsEnd(s, p))
    else (Unset, p)
  }

  /** The optional precision: a `.` must be followed by something; a `.`
      followed by neither `*` nor a digit leaves the precision unset. */
  function PrecisionAt(s: string, p: nat): (r: Result<(Field, nat), string>)
    requires p <= |s|
    ensures r.Ok? ==> p <= r.value.1 <= |s|
    ensures r.Err? ==> r.error == Incomplete
  {
    if p < |s| && s[p] == '.' then
      if p + 1 >= |s| then Err(Incomplete) else Ok(FieldAt(s, p + 1))
    else Ok((Unset, p))
  }

  /** The optional length modifier; `h` and `l` may be doubled. */
  function LengthAt(s: string, p: nat): (r: (string, nat))
    requires p <= |s|
    ensures p <= r.1 <= |s|
  {
    if p < |s| && s[p] in LengthChars then
      if p + 1 < |s| && ((s[p] == 'h' && s[p + 1] == 'h') || (s[p] == 'l' && s[p + 1] == 'l'))
      then (s[p..p + 2], p + 2)
      else ([s[p]], p + 1)
    else ("", p)
  }

  /** What every placeholder the parser makes satisfies. */
  predicate Valid(ph: Placeholder) {
    && (ph.plusSign ==> !ph.spaceSign)
    && (ph.leftAlign ==> !ph.zeroPad)
    && (ph.argIndex == -1 || ph.argIndex >= 1)
    && ph.specifier in Specifiers
  }

  /** The start of a placeholder whose `%` is at `j`: the argument index
      and the flags, and the position after them. */
  function HeadAt(s: string, j: nat): (r: (Placeholder, nat))
    requires j + 1 < |s|
    ensures j + 1 <= r.1 <= |s|
    ensures r.0.plusSign ==> !r.0.spaceSign
    ensures r.0.leftAlign ==> !r.0.zeroPad
    ensures r.0.argIndex == -1 || r.0.argIndex >= 1
  {
    var (idx, p1) := ArgIndexAt(s, j + 1);
    var (p2, flagged) := FlagsFrom(s, p1, Fresh.(argIndex := idx));
    (Normalize(flagged), p2)
  }

  /** The rest of the placeholder from `p`: width, precision, length
      modifier and the specifier, which must be there and be known. */
  function TailAt(s: string, j: nat, ph: Placeholder, p: nat): (r: Result<(Placeholder, nat), string>)
    requires j < p <= |s|
    ensures r.Ok? ==> (
      && p < r.value.1 <= |s| && r.value.0.text == s[j..r.value.1]
      && r.value.0.specifier == s[r.value.1 - 1] && r.value.0.specifier in Specifiers
      && r.value.0 == ph.(text := r.value.0.text, width := r.value.0.width, precision := r.value.0.precision,
                          lengthModifier := r.value.0.lengthModifier, specifier := r.value.0.specifier))
    ensures r.Err? ==> r.error == Incomplete || exists c :: r.error == Unknown(c)
  {
    if p >= |s| then Err(Incomplete)
    else
      var (width, p3) := FieldAt(s, p);
      var precision :- PrecisionAt(s, p3);
      var (lm, p5) := LengthAt(s, precision.1);
      if p5 >= |s| then Err(Incomplete)
      else if s[p5] !in Specifiers then Err(Unknown(s[p5]))
      else
        Ok((ph.(text := s[j..p5 + 1], width := width, precision := precision.0,
                lengthModifier := lm, specifier := s[p5]), p5 + 1))
  }

  /** The placeholder whose `%` is at `j`, and the position after it. It
      ends at its specifier, its text is exactly what it spans, and it is
      valid; the errors are an incomplete placeholder and an unknown
      specifier. */
  function PlaceholderAt(s: string, j: nat): (r: Result<(Placeholder, nat), string>)
    requires j + 1 < |s|
    ensures r.Ok? ==>
      && j + 2 <= r.value.1 <= |s|
      && r.value.0.text == s[j..r.value.1]
      && r.value.0.specifier == s[r.value.1 - 1]
      && Valid(r.value.0)
    ensures r.Err? ==> r.error == Incomplete || exists c :: r.error == Unknown(c)
  {
    var (ph, p) := HeadAt(s, j);
    TailAt(s, j, ph, p)
  }

  // ---------------------------------------------------------------------------
  // The token list

  /** The end of the literal text starting at `i`: the next `%`, or the end. */
  function TextEnd(s: string, i: nat): (j: nat)
    requires i <= |s|
    ensures i <= j <= |s|
    ensures forall k :: i <= k < j ==> s[k] != '%'
    ensures j < |s| ==> s[j] == '%'
    decreases |s| - i
  {
    if i < |s| && s[i] != '%' then TextEnd(s, i + 1) else i
  }

  /** Literal text is merged into a literal token at the end, if there is
      one; empty text adds nothing. */
  function AddText(ts: seq<Token>, t: string): (r: seq<Token>)
    ensures t == [] ==> r == ts
    ensures t != [] && ts != [] && ts[|ts| - 1].Lit? ==>
      r == ts[..|ts| - 1] + [Lit(ts[|ts| - 1].text + t)]
    ensures t != [] && (ts == [] || !ts[|ts| - 1].Lit?) ==> r == ts + [Lit(t)]
  {
    if t == [] then ts
    else if ts != [] && ts[|ts| - 1].Lit? then ts[..|ts| - 1] + [Lit(ts[|ts| - 1].text + t)]
    else ts + [Lit(t)]
  }

  /** A parsed placeholder joins the tokens; one with specifier `%` is a
      literal `%`. */
  function AddPlaceholder(ts: seq<Token>, ph: Placeholder): seq<Token> {
    if ph.specifier == '%' then AddText(ts, "%") else ts + [Spec(ph)]
  }

  /** The loop of `parseFormat` from position `i`, with the tokens so far:
      literal text up to the next `%`, then what follows it. */
  function ParseFrom(s: string, i: nat, acc: seq<Token>): Result<seq<Token>, string>
    requires i <= |s|
    decreases |s| - i, 1
  {
    if i == |s| then Ok(acc)
    else
      var j := TextEnd(s, i);
      ParseAt(s, j, AddText(acc, s[i..j]))
  }

  /** The loop at the `%` at `j` (or at the end): a `%` at the very end is
      an error, otherwise the placeholder there is read. */
  function ParseAt(s: string, j: nat, acc: seq<Token>): Result<seq<Token>, string>
    requires j <= |s|
    decreases |s| - j, 0
  {
    if j == |s| then Ok(acc)
    else if j + 1 == |s| then Err(Trailing)
    else
      var r := PlaceholderAt(s, j);
      if r.Err? then Err(r.error) else ParseFrom(s, r.value.1, AddPlaceholder(acc, r.value.0))
  }

  /** `parseFormat`. */
  function Parse(s: string): Result<seq<Token>, string> {
    ParseFrom(s, 0, [])
  }

  // ---------------------------------------------------------------------------
  // What the parser promises

  /** No empty literal, no two literals side by side, and every placeholder
      valid and with a specifier other than `%`. */
  predicate WellFormed(ts: seq<Token>) {
    && (forall k :: 0 <= k < |ts| && ts[k].Lit? ==> ts[k].text != [])
    && (forall k :: 0 <= k < |ts| - 1 ==> !(ts[k].Lit? && ts[k + 1].Lit?))
    && (forall k :: 0 <= k < |ts| && ts[k].Spec? ==> Valid(ts[k].ph) && ts[k].ph.specifier != '%')
  }

  lemma AddTextWellFormed(ts: seq<Token>, t: string)
    requires WellFormed(ts)
    ensures WellFormed(AddText(ts, t))
  {
    var r := AddText(ts, t);
    if t != [] && ts != [] && ts[|ts| - 1].Lit? {
      assert forall k :: 0 <= k < |ts| - 1 ==> r[k] == ts[k];
    } else if t != [] {
      assert forall k :: 0 <= k < |ts| ==> r[k] == ts[k];
    }
  }

  lemma AddPlaceholderWellFormed(ts: seq<Token>, ph: Placeholder)
    requires WellFormed(ts) && Valid(ph)
    ensures WellFormed(AddPlaceholder(ts, ph))
  {
    if ph.specifier == '%' {
      AddTextWellFormed(ts, "%");
    } else {
      var r := ts + [Spec(ph)];
      assert forall k :: 0 <= k < |ts| ==> r[k] == ts[k];
    }
  }

  lemma {:induction false} ParseFromWellFormed(s: string, i: nat, acc: seq<Token>)
    requires i <= |s| && WellFormed(acc)
    ensures ParseFrom(s, i, acc).Ok? ==> WellFormed(ParseFrom(s, i, acc).value)
    decreases |s| - i, 1
  {
    if i < |s| {
      var j := TextEnd(s, i);
      AddTextWellFormed(acc, s[i..j]);
      ParseAtWellFormed(s, j, AddText(acc, s[i..j]));
    }
  }

  lemma {:induction false} ParseAtWellFormed(s: string, j: nat, acc: seq<Token>)
    requires j <= |s| && WellFormed(acc)
    ensures ParseAt(s, j, acc).Ok? ==> WellFormed(ParseAt(s, j, acc).value)
    decreases |s| - j, 0
  {
    if j + 1 < |s| {
      var r := PlaceholderAt(s, j);
      if r.Ok? {
        AddPlaceholderWellFormed(acc, r.value.0);
        ParseFromWellFormed(s, r.value.1, AddPlaceholder(acc, r.value.0));
      }
    }
  }

  /** `parseFormat` never yields an empty literal or two literals in a
      row, and its placeholders have consistent flags, an argument index
      of -1 or at least 1, and a specifier other than `%`. */
  lemma ParseWellFormed(s: string)
    ensures Parse(s).Ok? ==> WellFormed(Parse(s).value)
  {
    ParseFromWellFormed(s, 0, []);
  }

  /** The text a token stands for in the format: the literal, or the
      placeholder's text. */
  function TokenText(t: Token): string {
    if t.Lit? then t.text else t.ph.text
  }

  /** The texts of the tokens, put together. */
  function Flat(ts: seq<Token>): string {
    if ts == [] then [] else Flat(ts[..|ts| - 1]) + TokenText(ts[|ts| - 1])
  }

  lemma FlatSnoc(ts: seq<Token>, t: Token)
    ensures Flat(ts + [t]) == Flat(ts) + TokenText(t)
  {
    assert (ts + [t])[..|ts|] == ts;
  }

  /** No literal holds a `%`: the tokens of a format none of whose
      placeholders was a `%` conversion. */
  predicate NoPercent(ts: seq<Token>) {
    ts == [] || (NoPercent(ts[..|ts| - 1]) && (ts[|ts| - 1].Lit? ==> '%' !in ts[|ts| - 1].text))
  }

  /** Literal text adds itself to the flat text, whether merged or not. */
  lemma AddTextFlat(ts: seq<Token>, t: string)
    ensures Flat(AddText(ts, t)) == Flat(ts) + t
  {
    if t == [] {
      assert Flat(ts) + t == Flat(ts);
    } else if ts != [] && ts[|ts| - 1].Lit? {
      var init := ts[..|ts| - 1];
      var last := ts[|ts| - 1].text;
      FlatSnoc(init, Lit(last + t));
      assert Flat(ts) == Flat(init) + last;
      assert Flat(init) + (last + t) == Flat(init) + last + t;
    } else {
      FlatSnoc(ts, Lit(t));
    }
  }

  /** Once a literal holds a `%`, more text does not remove it; and text
      with a `%` puts one in. */
  lemma AddTextPercent(ts: seq<Token>, t: string)
    ensures NoPercent(AddText(ts, t)) ==> NoPercent(ts) && '%' !in t
  {
    var r := AddText(ts, t);
    if t != [] && ts != [] && ts[|ts| - 1].Lit? {
      var last := ts[|ts| - 1].text;
      assert r[..|r| - 1] == ts[..|ts| - 1];
      assert r[|r| - 1].text == last + t;
      assert forall x :: x in last ==> x in last + t;
      assert forall x :: x in t ==> x in last + t;
    } else if t != [] {
      assert r[..|ts|] == ts;
    }
  }

  lemma {:induction false} ParseFromFlat(s: string, i: nat, acc: seq<Token>)
    requires i <= |s|
    ensures ParseFrom(s, i, acc).Ok? && NoPercent(ParseFrom(s, i, acc).value) ==>
      NoPercent(acc) && Flat(ParseFrom(s, i, acc).value) == Flat(acc) + s[i..]
    decreases |s| - i, 1
  {
    if i < |s| {
      var j := TextEnd(s, i);
      var t := s[i..j];
      assert '%' !in t by {
        forall k | 0 <= k < |t|
          ensures t[k] != '%'
        {
          assert t[k] == s[i + k];
        }
      }
      ParseAtFlat(s, j, AddText(acc, t));
      TextFlat(acc, t, s[j..], ParseAt(s, j, AddText(acc, t)));
      SliceSplit(s, i, j);
    }
  }

  /** One literal step of the parse, for the flat text. */
  lemma TextFlat(acc: seq<Token>, t: string, u: string, rest: Result<seq<Token>, string>)
    requires '%' !in t
    requires rest.Ok? && NoPercent(rest.value) ==>
      NoPercent(AddText(acc, t)) && Flat(rest.value) == Flat(AddText(acc, t)) + u
    ensures rest.Ok? && NoPercent(rest.value) ==> NoPercent(acc) && Flat(rest.value) == Flat(acc) + (t + u)
  {
    if rest.Ok? && NoPercent(rest.value) {
      AddTextPercent(acc, t);
      FlatAssoc(acc, t, u);
    }
  }

  lemma FlatAssoc(acc: seq<Token>, t: string, u: string)
    ensures Flat(AddText(acc, t)) + u == Flat(acc) + (t + u)
  {
    AddTextFlat(acc, t);
    Assoc(Flat(acc), t, u);
  }

  lemma SliceSplit(s: string, a: nat, b: nat)
    requires a <= b <= |s|
    ensures s[a..b] + s[b..] == s[a..]
  {
  }

  lemma Assoc(a: string, b: string, c: string)
    ensures (a + b) + c == a + (b + c)
  {
  }

  lemma {:induction false} ParseAtFlat(s: string, j: nat, acc: seq<Token>)
    requires j <= |s|
    ensures ParseAt(s, j, acc).Ok? && NoPercent(ParseAt(s, j, acc).value) ==>
      NoPercent(acc) && Flat(ParseAt(s, j, acc).value) == Flat(acc) + s[j..]
    decreases |s| - j, 0
  {
    if j + 1 < |s| {
      var r := PlaceholderAt(s, j);
      if r.Ok? {
        var next := AddPlaceholder(acc, r.value.0);
        ParseFromFlat(s, r.value.1, next);
        PlaceholderFlat(acc, r.value.0, s[r.value.1..], ParseFrom(s, r.value.1, next));
        SliceSplit(s, j, r.value.1);
      }
    }
  }

  /** One placeholder step of the parse, for the flat text. */
  lemma PlaceholderFlat(acc: seq<Token>, ph: Placeholder, u: string, rest: Result<seq<Token>, string>)
    requires rest.Ok? && NoPercent(rest.value) ==>
      NoPercent(AddPlaceholder(acc, ph)) && Flat(rest.value) == Flat(AddPlaceholder(acc, ph)) + u
    ensures rest.Ok? && NoPercent(rest.value) ==> NoPercent(acc) && Flat(rest.value) == Flat(acc) + (ph.text + u)
  {
    if rest.Ok? && NoPercent(rest.value) {
      if ph.specifier == '%' {
        AddTextPercent(acc, "%");
      } else {
        assert (acc + [Spec(ph)])[..|acc|] == acc;
        FlatSnoc(acc, Spec(ph));
        Assoc(Flat(acc), ph.text, u);
      }
    }
  }

  /** When no `%` conversion was met, the literals and placeholder texts
      put together give back the format string. */
  lemma ParseReassembles(s: string)
    requires Parse(s).Ok? && NoPercent(Parse(s).value)
    ensures Flat(Parse(s).value) == s
  {
    ParseFromFlat(s, 0, []);
    assert s[0..] == s;
  }

  /** A format without `%` is a single literal (none when it is empty). */
  lemma ParseLiteral(s: string)
    requires '%' !in s
    ensures Parse(s) == Ok(if s == [] then [] else [Lit(s)])
  {
    if s != [] {
      assert forall k :: 0 <= k < |s| ==> s[k] in s;
      assert TextEnd(s, 0) == |s|;
      assert s[0..|s|] == s;
      assert AddText([], s) == [Lit(s)];
      assert ParseAt(s, |s|, [Lit(s)]) == Ok([Lit(s)]);
    }
  }

  /** `%%` is read as a placeholder with specifier `%`, which the parser
      turns into a literal `%`. */
  lemma EscapedPercent(s: string, j: nat)
    requires j + 1 < |s| && s[j] == '%' && s[j + 1] == '%'
    ensures PlaceholderAt(s, j).Ok? && PlaceholderAt(s, j).value.1 == j + 2
    ensures PlaceholderAt(s, j).value.0.specifier == '%'
  {
    assert ArgIndexAt(s, j + 1) == (-1, j + 1);
    assert FlagsFrom(s, j + 1, Fresh) == (j + 1, Fresh);
    assert FieldAt(s, j + 1) == (Unset, j + 1);
    assert LengthAt(s, j + 1) == ("", j + 1);
  }

  /** So `%%` adds a `%` to the literal text before it. */
  lemma EscapedPercentParse(s: string, j: nat, acc: seq<Token>)
    requires j + 1 < |s| && s[j] == '%' && s[j + 1] == '%'
    ensures ParseAt(s, j, acc) == ParseFrom(s, j + 2, AddText(acc, "%"))
  {
    EscapedPercent(s, j);
  }

  /** A `%` at the very end is an error. */
  lemma TrailingPercent()
    ensures Parse("50%") == Err(Trailing)
  {
    assert TextEnd("50%", 0) == 2;
  }

  /** A placeholder that stops after its argument index is incomplete. */
  lemma MissingSpecifier()
    ensures Parse("%1$") == Err(Incomplete)
  {
    var s := "%1$";
    assert TextEnd(s, 0) == 0;
    assert DigitsEnd(s, 1) == 2;
    assert ArgIndexAt(s, 1).1 == 3;
  }

  /** A letter that is neither a flag, a width, a precision, a length
      modifier nor a specifier right after the `%` is reported. */
  lemma UnknownSpecifier(s: string, j: nat)
    requires j + 1 < |s| && s[j] == '%'
    requires !IsDigit(s[j + 1]) && s[j + 1] !in FlagChars && s[j + 1] != '*' && s[j + 1] != '.'
    requires s[j + 1] !in LengthChars && s[j + 1] !in Specifiers
    ensures PlaceholderAt(s, j) == Err(Unknown(s[j + 1]))
  {
    assert ArgIndexAt(s, j + 1) == (-1, j + 1);
    assert FlagsFrom(s, j + 1, Fresh) == (j + 1, Fresh);
    assert FieldAt(s, j + 1) == (Unset, j + 1);
    assert LengthAt(s, j + 1) == ("", j + 1);
  }

  /** A `.` followed by neither a number nor `*` leaves the precision unset
      (`%.d` is `%d`). */
  lemma DotWithoutNumber(s: string, p: nat)
    requires p + 1 < |s| && s[p] == '.' && !IsDigit(s[p + 1]) && s[p + 1] != '*'
    ensures PrecisionAt(s, p) == Ok((Unset, p + 1))
  {
  }

  // ---------------------------------------------------------------------------
  // The arguments of `applyFormat`

  /** An argument: a number (integral in this model), a string, or any other
      value, given by its `typeof` and its `String(...)` text. */
  datatype Arg = NumArg(n: int) | StrArg(s: string) | OtherArg(typeName: string, text: string)

  /** What reading outside the arguments gives. */
  const Undefined := OtherArg("undefined", "undefined")

  function TypeOf(a: Arg): string {
    match a
    case NumArg(_) => "number"
    case StrArg(_) => "string"
    case OtherArg(t, _) => t
  }

  const Insufficient := "insufficient arguments"
  const WidthNotNumber := "expected number for minimum field width"
  const PrecisionNotNumber := "expected number for precision"

  function Missing(idx: int): string {
    "missing format argument: " + Decimal(idx)
  }

  function NotAssignable(source: Arg, ph: Placeholder): string {
    "type " + TypeOf(source) + " is not assignable to placeholder " + ph.text
  }

  /** `getNextArg`: index -1 takes the argument at the cursor and advances
      it; an explicit index `n` takes the `n`-th argument and leaves the
      cursor. An index past the arguments is missing, and a cursor at the
      end is an error whatever the index. */
  function NextArg(args: seq<Arg>, argIdx: nat, idx: int): (r: Result<(Arg, nat), string>)
    ensures r.Err? <==> (idx != -1 && idx > |args|) || argIdx >= |args|
    ensures r.Err? ==> r.error == if idx != -1 && idx > |args| then Missing(idx) else Insufficient
    ensures r.Ok? && idx == -1 ==> r.value == (args[argIdx], argIdx + 1)
    ensures r.Ok? && idx >= 1 ==> r.value == (args[idx - 1], argIdx)
  {
    if idx != -1 && idx > |args| then Err(Missing(idx))
    else if argIdx >= |args| then Err(Insufficient)
    else if idx == -1 then Ok((args[argIdx], argIdx + 1))
    else if idx >= 1 then Ok((args[idx - 1], argIdx))
    else Ok((Undefined, argIdx))
  }

  /** A width or precision: absent (`null`), written in the placeholder, or
      for `*` the next argument, which must be a number. */
  function FieldValue(f: Field, args: seq<Arg>, argIdx: nat, notNumber: string): (r: Result<(Option<int>, nat), string>)
    ensures f.Unset? ==> r == Ok((None, argIdx))
    ensures f.Given? ==> r == Ok((Some(f.n), argIdx))
    ensures f.Star? ==> (r.Ok? <==> argIdx < |args| && args[argIdx].NumArg?)
    ensures f.Star? && r.Ok? ==> r.value == (Some(args[argIdx].n), argIdx + 1)
    ensures f.Star? && r.Err? ==> r.error == if argIdx < |args| then notNumber else Insufficient
  {
    match f
    case Unset => Ok((None, argIdx))
    case Given(n) => Ok((Some(n), argIdx))
    case Star =>
      var a :- NextArg(args, argIdx, -1);
      if a.0.NumArg? then Ok((Some(a.0.n), a.1)) else Err(notNumber)
  }

  function OrElse(o: Option<int>, d: int): int {
    if o.Some? then o.value else d
  }

  // ---------------------------------------------------------------------------
  // Conversions

  /** The floating-point conversions (`f F e E g G a A`, and `?` on a
      number, which is `g`): the specifier, the placeholder, the number,
      the width and the precision give the text. */
  type FloatFormat = (char, Placeholder, int, int, Option<int>) -> string

  predicate IsFloat(c: char) {
    c == 'f' || c == 'F' || c == 'e' || c == 'E' || c == 'g' || c == 'G' || c == 'a' || c == 'A'
  }

  /** The specifiers that only take a number. */
  predicate NeedsNumber(c: char) {
    c == 'd' || c == 'i' || c == 'o' || c == 'b' || c == 'x' || c == 'X' || c == 'u' || IsFloat(c)
  }

  function Abs(n: int): nat {
    if n < 0 then -n else n
  }

  /** The `0` flag without `-`: zeros in front, up to the width. */
  function ZeroFill(ph: Placeholder, a: string, width: int): (r: string)
    ensures |r| >= |a| && r[|r| - |a|..] == a
    ensures !ph.leftAlign && ph.zeroPad ==> |r| >= width && forall k :: 0 <= k < |r| - |a| ==> r[k] == '0'
    ensures !(!ph.leftAlign && ph.zeroPad) ==> r == a
  {
    if !ph.leftAlign && ph.zeroPad then PadStart(a, width, '0') else a
  }

  /** `String.fromCharCode(n)`: the UTF-16 code unit `n` modulo 2^16; a lone
      surrogate code unit is not a `char` here and becomes U+FFFD. */
  function CharOf(n: int): char {
    var c := n % 0x1_0000;
    if 0xD800 <= c <= 0xDFFF then '�' else c as char
  }

  /** The sign of a signed conversion: `-` for a negative number, else `+`
      or a space when those flags are set. */
  function Sign(ph: Placeholder, n: int): string {
    if n < 0 then "-" else if ph.plusSign then "+" else if ph.spaceSign then " " else ""
  }

  /** `d` and `i` as written: the digits of the number, with its `-`, are
      padded with zeros to the precision, and the whole, sign included, to
      the width, so the zeros land in front of the sign. */
  function SignedAsWritten(ph: Placeholder, n: int, width: int, precision: Option<int>): string {
    var sign := if n >= 0 && ph.plusSign then "+" else if n >= 0 && ph.spaceSign then " " else "";
    var a := ZeroFill(ph, sign + PadStart(Decimal(n), OrElse(precision, 1), '0'), width);
    if n == 0 && precision == Some(0) then "" else a
  }

  /** `d` and `i` as intended: the sign first, then the digits of the
      magnitude padded with zeros to the precision and to what the width
      leaves after the sign. */
  function Signed(ph: Placeholder, n: int, width: int, precision: Option<int>): string {
    if n == 0 && precision == Some(0) then "" else Sign(ph, n) + Magnitude(ph, n, width - |Sign(ph, n)|, precision)
  }

  /** The digits of the magnitude, padded with zeros to the precision (at
      least one digit) and, with the `0` flag, to the width. */
  function Magnitude(ph: Placeholder, n: int, width: int, precision: Option<int>): string {
    ZeroFill(ph, PadStart(NatToString(Abs(n), 10), OrElse(precision, 1), '0'), width)
  }

  /** `o`: the octal digits of the magnitude, after a `0` with `#`, padded to
      the width and then to the precision (at least one digit). */
  function Octal(ph: Placeholder, n: int, width: int, precision: Option<int>): string {
    var m := Abs(n);
    var a := PadStart(ZeroFill(ph, (if ph.alternate then "0" else "") + NatToString(m, 8), width), OrElse(precision, 1), '0');
    if m == 0 && precision == Some(0) then (if ph.alternate then "0" else "") else a
  }

  /** `b`: `toString(2)`, padded to the width and the precision, after
      `0b` with `#`. */
  function Binary(ph: Placeholder, n: int, width: int, precision: Option<int>): string {
    if n == 0 && precision == Some(0) then ""
    else if ph.alternate then "0b" + Digits(ph, IntToString(n, 2), width, precision)
    else Digits(ph, IntToString(n, 2), width, precision)
  }

  /** `x` and `X`: `toString(16)`, padded to the width and the precision,
      after `0x` (`0X`) with `#`; `X` upper-cases the whole. */
  function Hex(ph: Placeholder, n: int, width: int, precision: Option<int>): string {
    if n == 0 && precision == Some(0) then ""
    else if ph.specifier == 'X' then AsciiUpper(Prefixed(ph, Digits(ph, IntToString(n, 16), width, precision)))
    else Prefixed(ph, Digits(ph, IntToString(n, 16), width, precision))
  }

  /** The `0x` or `0X` prefix that `#` asks for. */
  function Prefixed(ph: Placeholder, a: string): string {
    if ph.alternate then ['0', ph.specifier] + a else a
  }

  /** `u`: the number taken modulo 2^32 (`>>> 0`), padded to the width and
      the precision. */
  function Unsigned(ph: Placeholder, n: int, width: int, precision: Option<int>): string {
    if n == 0 && precision == Some(0) then "" else Digits(ph, NatToString(n % 0x1_0000_0000, 10), width, precision)
  }

  /** The zero padding of `b`, `x`, `X` and `u`: to the width with the `0`
      flag, then to the precision (none by default). */
  function Digits(ph: Placeholder, a: string, width: int, precision: Option<int>): string {
    PadStart(ZeroFill(ph, a, width), OrElse(precision, 0), '0')
  }

  /** The text of one placeholder before the space padding. A conversion
      given the wrong type of argument is an error: the numeric ones need a
      number, `s` a string, and `c` a number or a string. */
  function Convert(ph: Placeholder, source: Arg, width: int, precision: Option<int>, float: FloatFormat): (r: Result<string, string>)
    ensures r.Err? <==>
      || (NeedsNumber(ph.specifier) && !source.NumArg?)
      || (ph.specifier == 's' && !source.StrArg?)
      || (ph.specifier == 'c' && source.OtherArg?)
    ensures r.Err? ==> r.error == NotAssignable(source, ph)
    ensures (ph.specifier == 's' || ph.specifier == '?') && source.StrArg? && precision.None? ==> r == Ok(source.s)
    ensures (ph.specifier == 's' || ph.specifier == '?') && source.StrArg? && precision.Some? && precision.value >= 0 ==>
      r == Ok(source.s[..if precision.value <= |source.s| then precision.value else |source.s|])
    ensures ph.specifier == '?' && source.OtherArg? ==> r == Ok(source.text)
    ensures ph.specifier == 'c' && r.Ok? ==> |r.value| == 1 || r == Ok("undefined")
  {
    var spec := ph.specifier;
    if spec == '?' then
      match source
      case NumArg(n) => Ok(float('g', ph, n, width, precision))
      case StrArg(s) =>
        assert s[..|s|] == s;
        Ok(SliceTo(s, OrElse(precision, |s|)))
      case OtherArg(_, text) => Ok(text)
    else if (NeedsNumber(spec) && !source.NumArg?) || (spec == 's' && !source.StrArg?) || (spec == 'c' && source.OtherArg?) then
      Err(NotAssignable(source, ph))
    else if spec == 'c' then
      if source.NumArg? then Ok([CharOf(source.n)])
      else if source.s == [] then Ok("undefined")
      else Ok([source.s[0]])
    else if spec == 's' then
      assert source.s[..|source.s|] == source.s;
      Ok(SliceTo(source.s, OrElse(precision, |source.s|)))
    else if spec == 'd' || spec == 'i' then Ok(Signed(ph, source.n, width, precision))
    else if spec == 'o' then Ok(Octal(ph, source.n, width, precision))
    else if spec == 'b' then Ok(Binary(ph, source.n, width, precision))
    else if spec == 'x' || spec == 'X' then Ok(Hex(ph, source.n, width, precision))
    else if spec == 'u' then Ok(Unsigned(ph, source.n, width, precision))
    else if IsFloat(spec) then Ok(float(spec, ph, source.n, width, precision))
    else Ok("")
  }

  /** The space padding of a converted field to the width: on the right
      with `-`, on the left otherwise; the field itself is kept whole. */
  function Padded(arg: string, width: int, leftAlign: bool): (r: string)
    ensures |r| == if width <= |arg| then |arg| else width
    ensures leftAlign ==> r[..|arg|] == arg && forall k :: |arg| <= k < |r| ==> r[k] == ' '
    ensures !leftAlign ==> r[|r| - |arg|..] == arg && forall k :: 0 <= k < |r| - |arg| ==> r[k] == ' '
  {
    if leftAlign then PadEnd(arg, width, ' ') else PadStart(arg, width, ' ')
  }

  // ---------------------------------------------------------------------------
  // Applying the tokens

  /** How many arguments a placeholder reads from the cursor: one for each
      `*`, and the subject unless it has an explicit index. */
  function Consumed(ph: Placeholder): nat {
    (if ph.width.Star? then 1 else 0) + (if ph.precision.Star? then 1 else 0) + (if ph.argIndex == -1 then 1 else 0)
  }

  /** One turn of the `applyFormat` loop: a literal is copied as it is; a
      placeholder reads its width, its precision and its subject, in that
      order, is converted and padded. The text and the new cursor. */
  function ApplyToken(tok: Token, args: seq<Arg>, argIdx: nat, float: FloatFormat): (r: Result<(string, nat), string>)
    ensures tok.Lit? ==> r == Ok((tok.text, argIdx))
    ensures tok.Spec? && r.Ok? ==> r.value.1 == argIdx + Consumed(tok.ph) <= |args|
    ensures tok.Spec? && argIdx >= |args| && tok.ph.argIndex <= |args| ==> r == Err(Insufficient)
    ensures tok.Spec? && !tok.ph.width.Star? && !tok.ph.precision.Star? && argIdx < |args| && tok.ph.argIndex > |args|
      ==> r == Err(Missing(tok.ph.argIndex))
  {
    match tok
    case Lit(text) => Ok((text, argIdx))
    case Spec(ph) =>
      var w :- FieldValue(ph.width, args, argIdx, WidthNotNumber);
      var p :- FieldValue(ph.precision, args, w.1, PrecisionNotNumber);
      var src :- NextArg(args, p.1, ph.argIndex);
      if ph.specifier !in Specifiers then Err(Unknown(ph.specifier))
      else
        var width := OrElse(w.0, 0);
        var arg :- Convert(ph, src.0, width, p.0, float);
        Ok((Padded(arg, width, ph.leftAlign), src.1))
  }

  /** The `applyFormat` loop from the given tokens on, with the cursor and
      the text so far. */
  function ApplyFrom(ts: seq<Token>, args: seq<Arg>, argIdx: nat, txt: string, float: FloatFormat): Result<string, string>
    decreases |ts|
  {
    if ts == [] then Ok(txt)
    else
      var r :- ApplyToken(ts[0], args, argIdx, float);
      ApplyFrom(ts[1..], args, r.1, txt + r.0, float)
  }

  /** `applyFormat`. */
  function Apply(ts: seq<Token>, args: seq<Arg>, float: FloatFormat): Result<string, string> {
    ApplyFrom(ts, args, 0, "", float)
  }

  /** `formatString`: the format parsed, then applied. */
  function Format(s: string, args: seq<Arg>, float: FloatFormat): Result<string, string> {
    var ts :- Parse(s);
    Apply(ts, args, float)
  }

  // ---------------------------------------------------------------------------
  // What the integer conversions write

  lemma {:induction false} ZerosValue(z: nat, radix: nat)
    requires 2 <= radix <= 16 && z > 0
    ensures DigitsValue(Repeat('0', z), radix) == Some(0)
    decreases z
  {
    if z > 1 {
      ZerosValue(z - 1, radix);
      assert Repeat('0', z)[..z - 1] == Repeat('0', z - 1);
    }
  }

  /** Zeros in front of a run of digits leave its value as it is. */
  lemma {:induction false} ZeroPrefixValue(z: nat, s: string, radix: nat)
    requires 2 <= radix <= 16 && s != []
    ensures DigitsValue(Repeat('0', z) + s, radix) == DigitsValue(s, radix)
    decreases |s|
  {
    var t := Repeat('0', z) + s;
    if z == 0 {
      assert t == s;
    } else {
      assert t[|t| - 1] == s[|s| - 1];
      if |s| == 1 {
        assert t[..|t| - 1] == Repeat('0', z);
        ZerosValue(z, radix);
      } else {
        assert t[..|t| - 1] == Repeat('0', z) + s[..|s| - 1];
        ZeroPrefixValue(z, s[..|s| - 1], radix);
      }
    }
  }

  /** Padding with zeros keeps the value of the digits. */
  lemma PadZerosValue(s: string, w: int, radix: nat)
    requires 2 <= radix <= 16 && s != []
    ensures DigitsValue(PadStart(s, w, '0'), radix) == DigitsValue(s, radix)
  {
    if w > |s| {
      ZeroPrefixValue(w - |s|, s, radix);
    }
  }

  lemma ZeroFillValue(ph: Placeholder, s: string, w: int, radix: nat)
    requires 2 <= radix <= 16 && s != []
    ensures ZeroFill(ph, s, w) != [] && DigitsValue(ZeroFill(ph, s, w), radix) == DigitsValue(s, radix)
  {
    PadZerosValue(s, w, radix);
  }

  /** The digits of `n` in the radix, with any zero padding to a width and
      then to a precision, still read as `n`. */
  lemma PaddedDigitsValue(ph: Placeholder, n: nat, radix: nat, width: int, precision: Option<int>)
    requires 2 <= radix <= 16
    ensures Digits(ph, NatToString(n, radix), width, precision) != []
    ensures DigitsValue(Digits(ph, NatToString(n, radix), width, precision), radix) == Some(n)
  {
    NatToStringLead(n, radix);
    NatToStringRoundTrip(n, radix);
    ZeroFillValue(ph, NatToString(n, radix), width, radix);
    PadZerosValue(ZeroFill(ph, NatToString(n, radix), width), OrElse(precision, 0), radix);
  }

  /** `u` writes the number modulo 2^32 in decimal, whatever the padding;
      only 0 with precision 0 writes nothing. */
  lemma UnsignedValue(ph: Placeholder, n: int, width: int, precision: Option<int>)
    ensures n == 0 && precision == Some(0) ==> Unsigned(ph, n, width, precision) == ""
    ensures !(n == 0 && precision == Some(0)) ==>
      DigitsValue(Unsigned(ph, n, width, precision), 10) == Some(n % 0x1_0000_0000)
  {
    PaddedDigitsValue(ph, n % 0x1_0000_0000, 10, width, precision);
  }

  /** `o` writes the magnitude in octal; the `0` that `#` puts in front is
      one more zero digit. Only 0 with precision 0 and no `#` writes
      nothing. */
  lemma OctalValue(ph: Placeholder, n: int, width: int, precision: Option<int>)
    ensures n == 0 && precision == Some(0) ==> Octal(ph, n, width, precision) == if ph.alternate then "0" else ""
    ensures !(n == 0 && precision == Some(0)) ==> DigitsValue(Octal(ph, n, width, precision), 8) == Some(Abs(n))
  {
    var d := NatToString(Abs(n), 8);
    var pre := (if ph.alternate then "0" else "") + d;
    assert pre != [] && DigitsValue(pre, 8) == Some(Abs(n)) by {
      NatToStringLead(Abs(n), 8);
      NatToStringRoundTrip(Abs(n), 8);
      if ph.alternate {
        assert pre == Repeat('0', 1) + d;
        ZeroPrefixValue(1, d, 8);
      } else {
        assert pre == d;
      }
    }
    ZeroFillValue(ph, pre, width, 8);
    PadZerosValue(ZeroFill(ph, pre, width), OrElse(precision, 1), 8);
  }

  /** `b` of a number that is not negative: its binary digits, after `0b`
      with `#`. */
  lemma BinaryValue(ph: Placeholder, n: nat, width: int, precision: Option<int>)
    requires !(n == 0 && precision == Some(0))
    ensures !ph.alternate ==> DigitsValue(Binary(ph, n, width, precision), 2) == Some(n)
    ensures ph.alternate ==>
      && |Binary(ph, n, width, precision)| > 2
      && Binary(ph, n, width, precision)[..2] == "0b"
      && DigitsValue(Binary(ph, n, width, precision)[2..], 2) == Some(n)
  {
    PaddedDigitsValue(ph, n, 2, width, precision);
    Split("0b", Digits(ph, NatToString(n, 2), width, precision));
  }

  /** `x` of a number that is not negative: its hexadecimal digits, after
      `0x` with `#`. */
  lemma HexValue(ph: Placeholder, n: nat, width: int, precision: Option<int>)
    requires ph.specifier == 'x' && !(n == 0 && precision == Some(0))
    ensures !ph.alternate ==> DigitsValue(Hex(ph, n, width, precision), 16) == Some(n)
    ensures ph.alternate ==>
      && |Hex(ph, n, width, precision)| > 2
      && Hex(ph, n, width, precision)[..2] == "0x"
      && DigitsValue(Hex(ph, n, width, precision)[2..], 16) == Some(n)
  {
    var d := Digits(ph, NatToString(n, 16), width, precision);
    PaddedDigitsValue(ph, n, 16, width, precision);
    assert Hex(ph, n, width, precision) == if ph.alternate then "0x" + d else d by {
      assert IntToString(n, 16) == NatToString(n, 16);
      assert ['0', ph.specifier] == "0x";
    }
    Split("0x", d);
  }

  /** `d` and `i`: the sign first, then digits worth the magnitude, and
      with the `0` flag at least the width in all. */
  lemma SignedValue(ph: Placeholder, n: int, width: int, precision: Option<int>)
    requires !(n == 0 && precision == Some(0))
    ensures |Sign(ph, n)| <= |Signed(ph, n, width, precision)|
    ensures Signed(ph, n, width, precision)[..|Sign(ph, n)|] == Sign(ph, n)
    ensures DigitsValue(Signed(ph, n, width, precision)[|Sign(ph, n)|..], 10) == Some(Abs(n))
    ensures !ph.leftAlign && ph.zeroPad ==> |Signed(ph, n, width, precision)| >= width
  {
    MagnitudeValue(ph, n, width - |Sign(ph, n)|, precision);
    Split(Sign(ph, n), Magnitude(ph, n, width - |Sign(ph, n)|, precision));
  }

  lemma MagnitudeValue(ph: Placeholder, n: int, width: int, precision: Option<int>)
    ensures DigitsValue(Magnitude(ph, n, width, precision), 10) == Some(Abs(n))
    ensures !ph.leftAlign && ph.zeroPad ==> |Magnitude(ph, n, width, precision)| >= width
  {
    var d := NatToString(Abs(n), 10);
    NatToStringLead(Abs(n), 10);
    NatToStringRoundTrip(Abs(n), 10);
    PadZerosValue(d, OrElse(precision, 1), 10);
    ZeroFillValue(ph, PadStart(d, OrElse(precision, 1), '0'), width, 10);
  }

  lemma Split(a: string, b: string)
    ensures (a + b)[..|a|] == a && (a + b)[|a|..] == b
  {
  }

  /** As written, the `0` flag puts the zeros in front of the `-` of a
      negative number: `%05d` of -42 is `00-42`; the intended conversion
      starts with the sign. */
  lemma ZerosBeforeSign(ph: Placeholder, n: int, width: int)
    requires n < 0 && !ph.leftAlign && ph.zeroPad && width > |Decimal(n)|
    ensures SignedAsWritten(ph, n, width, None)[0] == '0'
    ensures Signed(ph, n, width, None)[0] == '-'
  {
    assert SignedAsWritten(ph, n, width, None)[0] == '0' by {
      var d := Decimal(n);
      assert PadStart(d, 1, '0') == d;
      assert "" + d == d;
      var z := ZeroFill(ph, d, width);
      assert SignedAsWritten(ph, n, width, None) == z;
      assert |z| - |d| > 0;
    }
    assert Signed(ph, n, width, None)[0] == '-' by {
      assert Sign(ph, n) == "-";
    }
  }

  /** As written, the precision pads the digits together with their `-`:
      `%.3d` of -5 is `0-5`; the intended conversion starts with the sign. */
  lemma PrecisionBeforeSign(ph: Placeholder, n: int, p: int)
    requires n < 0 && !ph.zeroPad && p > |Decimal(n)|
    ensures SignedAsWritten(ph, n, 0, Some(p))[0] == '0'
    ensures Signed(ph, n, 0, Some(p))[0] == '-'
  {
    assert SignedAsWritten(ph, n, 0, Some(p)) == PadStart(Decimal(n), p, '0');
  }

  // ---------------------------------------------------------------------------
  // What `applyFormat` and `formatString` promise

  lemma {:induction false} FlatCons(ts: seq<Token>)
    requires ts != []
    ensures Flat(ts) == TokenText(ts[0]) + Flat(ts[1..])
    decreases |ts|
  {
    if |ts| == 1 {
      assert ts[..0] == [] && ts[1..] == [];
    } else {
      var init := ts[..|ts| - 1];
      FlatCons(init);
      assert init[1..] == ts[1..][..|ts[1..]| - 1];
      Assoc(TokenText(ts[0]), Flat(init[1..]), TokenText(ts[|ts| - 1]));
    }
  }

  predicate AllLiterals(ts: seq<Token>) {
    forall k :: 0 <= k < |ts| ==> ts[k].Lit?
  }

  /** Literal tokens are copied verbatim, in order, and read no argument. */
  lemma {:induction false} ApplyLiterals(ts: seq<Token>, args: seq<Arg>, argIdx: nat, txt: string, float: FloatFormat)
    requires AllLiterals(ts)
    ensures ApplyFrom(ts, args, argIdx, txt, float) == Ok(txt + Flat(ts))
    decreases |ts|
  {
    if ts != [] {
      assert ApplyToken(ts[0], args, argIdx, float) == Ok((ts[0].text, argIdx));
      assert AllLiterals(ts[1..]) by {
        forall k | 0 <= k < |ts[1..]|
          ensures ts[1..][k].Lit?
        {
          assert ts[1..][k] == ts[k + 1];
        }
      }
      assert ApplyFrom(ts, args, argIdx, txt, float) == ApplyFrom(ts[1..], args, argIdx, txt + ts[0].text, float);
      ApplyLiterals(ts[1..], args, argIdx, txt + ts[0].text, float);
      FlatCons(ts);
      Assoc(txt, ts[0].text, Flat(ts[1..]));
    } else {
      assert txt + Flat(ts) == txt;
    }
  }

  /** A format without `%` formats to itself, whatever the arguments. */
  lemma FormatLiteral(s: string, args: seq<Arg>, float: FloatFormat)
    requires '%' !in s
    ensures Format(s, args, float) == Ok(s)
  {
    ParseLiteral(s);
    if s != [] {
      ApplyLiterals([Lit(s)], args, 0, "", float);
      FlatSnoc([], Lit(s));
      assert Flat([Lit(s)]) == s;
      assert Apply([Lit(s)], args, float) == Ok(s);
    } else {
      assert Apply([], args, float) == Ok("");
    }
  }

  // ---------------------------------------------------------------------------
  // The loops

  lemma {:induction false} TextEndIs(s: string, i: nat, j: nat)
    requires i <= j <= |s|
    requires forall k :: i <= k < j ==> s[k] != '%'
    requires j < |s| ==> s[j] == '%'
    ensures TextEnd(s, i) == j
    decreases j - i
  {
    if i < j {
      TextEndIs(s, i + 1, j);
    }
  }

  /** The start of the placeholder part of the `parseFormat` loop: the
      argument index and the flag loop. */
  method ReadHead(s: string, j: nat) returns (ph: Placeholder, p: nat)
    requires j + 1 < |s|
    ensures (ph, p) == HeadAt(s, j)
  {
    var indexed := ArgIndexAt(s, j + 1);
    p := indexed.1;
    ph := Fresh.(argIndex := indexed.0);
    ghost var flagged := FlagsFrom(s, p, ph);
    while p + 1 < |s| && s[p] in FlagChars
      invariant p <= |s|
      invariant FlagsFrom(s, p, ph) == flagged
      decreases |s| - p
    {
      ph := SetFlag(ph, s[p]);
      p := p + 1;
    }
    assert (p, ph) == flagged;
    ghost var before := ph;
    if ph.plusSign {
      ph := ph.(spaceSign := false);
    }
    if ph.leftAlign {
      ph := ph.(zeroPad := false);
    }
    assert ph == Normalize(before);
  }

  /** The placeholder part of the `parseFormat` loop, from the `%` at `j`. */
  method ReadPlaceholder(s: string, j: nat) returns (r: Result<(Placeholder, nat), string>)
    requires j + 1 < |s|
    ensures r == PlaceholderAt(s, j)
  {
    var ph, p := ReadHead(s, j);
    if p >= |s| {
      return Err(Incomplete);
    }
    var width := FieldAt(s, p);
    var precision := PrecisionAt(s, width.1);
    if precision.Err? {
      return Err(precision.error);
    }
    var length := LengthAt(s, precision.value.1);
    var q := length.1;
    if q >= |s| {
      return Err(Incomplete);
    }
    if s[q] !in Specifiers {
      return Err(Unknown(s[q]));
    }
    ph := ph.(text := s[j..q + 1], width := width.0, precision := precision.value.0,
              lengthModifier := length.0, specifier := s[q]);
    return Ok((ph, q + 1));
  }

  /** The literal-text part of the `parseFormat` loop: characters up to the
      next `%` or the end. */
  method ReadText(s: string, i: nat) returns (txt: string, j: nat)
    requires i <= |s|
    ensures j == TextEnd(s, i) && txt == s[i..j]
  {
    txt := "";
    j := i;
    while j < |s| && s[j] != '%'
      invariant i <= j <= |s| && txt == s[i..j]
      invariant forall k :: i <= k < j ==> s[k] != '%'
      decreases |s| - j
    {
      txt := txt + [s[j]];
      j := j + 1;
    }
    TextEndIs(s, i, j);
  }

  /** `parseFormat`: literal text is gathered up to the next `%`, then the
      placeholder there is read. */
  method ParseFormat(format: string) returns (r: Result<seq<Token>, string>)
    ensures r == Parse(format)
  {
    var tokens: seq<Token> := [];
    var i := 0;
    while i < |format|
      invariant i <= |format|
      invariant ParseFrom(format, i, tokens) == Parse(format)
      decreases |format| - i
    {
      var txt, j := ReadText(format, i);
      tokens := AddText(tokens, txt);
      assert ParseAt(format, j, tokens) == Parse(format);
      if j == |format| {
        return Ok(tokens);
      }
      if j + 1 == |format| {
        return Err(Trailing);
      }
      var placeholder := ReadPlaceholder(format, j);
      if placeholder.Err? {
        return Err(placeholder.error);
      }
      tokens := AddPlaceholder(tokens, placeholder.value.0);
      i := placeholder.value.1;
    }
    return Ok(tokens);
  }

  /** `applyFormat`: the tokens in order, the text growing and the
      argument cursor advancing. */
  method ApplyFormat(format: seq<Token>, args: seq<Arg>, float: FloatFormat) returns (r: Result<string, string>)
    ensures r == Apply(format, args, float)
  {
    var txt := "";
    var argIdx: nat := 0;
    assert format[0..] == format;
    for k := 0 to |format|
      invariant ApplyFrom(format[k..], args, argIdx, txt, float) == Apply(format, args, float)
    {
      assert format[k..][1..] == format[k + 1..];
      var tok := format[k];
      if tok.Lit? {
        txt := txt + tok.text;
      } else {
        var ph := tok.ph;
        var width := FieldValue(ph.width, args, argIdx, WidthNotNumber);
        if width.Err? {
          return Err(width.error);
        }
        var precision := FieldValue(ph.precision, args, width.value.1, PrecisionNotNumber);
        if precision.Err? {
          return Err(precision.error);
        }
        var source := NextArg(args, precision.value.1, ph.argIndex);
        if source.Err? {
          return Err(source.error);
        }
        if ph.specifier !in Specifiers {
          return Err(Unknown(ph.specifier));
        }
        var w := OrElse(width.value.0, 0);
        var arg := Convert(ph, source.value.0, w, precision.value.0, float);
        if arg.Err? {
          return Err(arg.error);
        }
        txt := txt + Padded(arg.value, w, ph.leftAlign);
        argIdx := source.value.1;
      }
    }
    assert format[|format|..] == [];
    return Ok(txt);
  }

  /** `formatString`. */
  method FormatString(format: string, args: seq<Arg>, float: FloatFormat) returns (r: Result<string, string>)
    ensures r == Format(format, args, float)
  {
    var tokens := ParseFormat(format);
    if tokens.Err? {
      return Err(tokens.error);
    }
    r := ApplyFormat(tokens.value, args, float);
  }
}
