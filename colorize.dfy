/** `colorize`, the coloured rendering of JSON-like values for chat
    (src/server/utils.ts). */
module Colorize {
  import opened JsString
  import opened Json
  import opened Format

  const Reset := Code('r')
  /** The separator between array items and between object entries. */
  const Comma := Reset + Code('7') + ","

  /** A string rendered as an object key or a string value. */
  function ColorizeString(s: string): string {
    Reset + Code('e') + Quote(s)
  }

  /** `colorize(v)`: the type tests run in the order boolean, number,
      string, null or undefined, array, object; anything else is written
      out as a template literal writes it. */
  function Colorize(v: Json): (r: string)
    ensures |r| >= 2 && r[..2] == Reset
    decreases v
  {
    match v
    case Bool(b) => Reset + Code('6') + BoolText(b)
    case Num(n) => Reset + Code('b') + Decimal(n)
    case Str(s) => ColorizeString(s)
    case Undefined => Reset + Code('c') + "null"
    case Null => Reset + Code('c') + "null"
    case Arr(items) =>
      (Reset + Code('8') + "[")
      + Join(seq(|items|, k requires 0 <= k < |items| => Colorize(items[k])), Comma)
      + (Reset + Code('8') + "]")
    case Obj(entries) =>
      (Reset + Code('7') + "{")
      + Join(seq(|entries|, k requires 0 <= k < |entries| =>
               ColorizeString(entries[k].0) + (Reset + Code('7') + ":") + Colorize(entries[k].1)), Comma)
      + (Reset + Code('7') + "}")
    case Other(repr) => Reset + Code('8') + repr
  }

  /** The text a value is rendered as once its colours are gone: JSON's
      layout, with every nullish value written `null` and other values as
      their template-literal text. */
  function Plain(v: Json): string
    decreases v
  {
    match v
    case Bool(b) => BoolText(b)
    case Num(n) => Decimal(n)
    case Str(s) => Quote(s)
    case Undefined => "null"
    case Null => "null"
    case Arr(items) => "[" + Join(seq(|items|, k requires 0 <= k < |items| => Plain(items[k])), ",") + "]"
    case Obj(entries) =>
      "{" + Join(seq(|entries|, k requires 0 <= k < |entries| => Quote(entries[k].0) + ":" + Plain(entries[k].1)), ",") + "}"
    case Other(repr) => repr
  }

  /** No string inside the value, key or text of another value holds a section sign. */
  predicate Clean(v: Json)
    decreases v
  {
    match v
    case Str(s) => Section !in s
    case Arr(items) => forall k :: 0 <= k < |items| ==> Clean(items[k])
    case Obj(entries) => forall k :: 0 <= k < |entries| ==> Section !in entries[k].0 && Clean(entries[k].1)
    case Other(repr) => Section !in repr
    case _ => true
  }

  /** Removal of formatting codes through a join, when every part and the
      separator end clean. */
  lemma {:induction false} RemoveJoin(cs: seq<string>, ps: seq<string>, sep: string, psep: string)
    requires |cs| == |ps|
    requires forall k :: 0 <= k < |cs| ==> EndsClean(cs[k]) && RemoveFormatCodes(cs[k]) == ps[k]
    requires EndsClean(sep) && RemoveFormatCodes(sep) == psep
    ensures EndsClean(Join(cs, sep)) && RemoveFormatCodes(Join(cs, sep)) == Join(ps, psep)
    decreases |cs|
  {
    if |cs| > 1 {
      forall k | 0 <= k < |cs[1..]| ensures EndsClean(cs[1..][k]) && RemoveFormatCodes(cs[1..][k]) == ps[1..][k] {
        assert cs[1..][k] == cs[k + 1];
      }
      RemoveJoin(cs[1..], ps[1..], sep, psep);
      Concat3(cs[0], sep, Join(cs[1..], sep), ps[0], psep, Join(ps[1..], psep));
    }
  }

  /** A code followed by text without section signs. */
  lemma CodeThen(c: char, s: string)
    requires !IsLineTerminator(c) && Section !in s
    ensures EndsClean(Code(c) + s) && RemoveFormatCodes(Code(c) + s) == s
  {
    CodeRemoved(c);
    PlainText(s);
    EndsCleanAppend(Code(c), s);
    RemoveAppend(Code(c), s);
  }

  /** Two codes followed by text without section signs: how every scalar is rendered. */
  lemma CodesThen(c: char, d: char, s: string)
    requires !IsLineTerminator(c) && !IsLineTerminator(d) && Section !in s
    ensures EndsClean(Code(c) + Code(d) + s) && RemoveFormatCodes(Code(c) + Code(d) + s) == s
  {
    CodeThen(d, s);
    CodeRemoved(c);
    EndsCleanAppend(Code(c), Code(d) + s);
    RemoveAppend(Code(c), Code(d) + s);
    assert Code(c) + Code(d) + s == Code(c) + (Code(d) + s);
  }

  lemma DigitsPlain(n: int)
    ensures Section !in Decimal(n)
  {
    NatToStringDigits(if n < 0 then -n else n, 10);
  }

  /** Three pieces whose removals are known. */
  lemma Concat3(a: string, b: string, c: string, pa: string, pb: string, pc: string)
    requires EndsClean(a) && RemoveFormatCodes(a) == pa
    requires EndsClean(b) && RemoveFormatCodes(b) == pb
    requires EndsClean(c) && RemoveFormatCodes(c) == pc
    ensures EndsClean(a + b + c) && RemoveFormatCodes(a + b + c) == pa + pb + pc
  {
    EndsCleanAppend(a, b);
    EndsCleanAppend(a + b, c);
    RemoveAppend(a, b);
    RemoveAppend(a + b, c);
  }

  /** `colorize` only adds colours: with its formatting codes removed, the
      rendering of a value whose strings hold no section sign is `Plain(v)`. */
  lemma {:induction false} ColorsOnly(v: Json)
    requires Clean(v)
    ensures EndsClean(Colorize(v)) && RemoveFormatCodes(Colorize(v)) == Plain(v)
    decreases v
  {
    match v
    case Bool(b) =>
      CodesThen('r', '6', BoolText(b));
    case Num(n) =>
      DigitsPlain(n);
      CodesThen('r', 'b', Decimal(n));
    case Str(s) =>
      CodesThen('r', 'e', Quote(s));
    case Undefined =>
      CodesThen('r', 'c', "null");
    case Null =>
      CodesThen('r', 'c', "null");
    case Arr(items) =>
      forall k | 0 <= k < |items| ensures EndsClean(Colorize(items[k])) && RemoveFormatCodes(Colorize(items[k])) == Plain(items[k]) {
        ColorsOnly(items[k]);
      }
      ArrayColors(items);
    case Obj(entries) =>
      forall k | 0 <= k < |entries|
        ensures EndsClean(Colorize(entries[k].1)) && RemoveFormatCodes(Colorize(entries[k].1)) == Plain(entries[k].1)
      {
        ColorsOnly(entries[k].1);
      }
      ObjectColors(entries);
    case Other(repr) =>
      CodesThen('r', '8', repr);
  }

  /** The array case of `ColorsOnly`, from its items'. */
  lemma ArrayColors(items: seq<Json>)
    requires forall k :: 0 <= k < |items| ==> EndsClean(Colorize(items[k])) && RemoveFormatCodes(Colorize(items[k])) == Plain(items[k])
    ensures EndsClean(Colorize(Arr(items))) && RemoveFormatCodes(Colorize(Arr(items))) == Plain(Arr(items))
  {
    var cs := seq(|items|, k requires 0 <= k < |items| => Colorize(items[k]));
    var ps := seq(|items|, k requires 0 <= k < |items| => Plain(items[k]));
    CodeThen('7', ",");
    RemoveJoin(cs, ps, Comma, ",");
    CodesThen('r', '8', "[");
    CodesThen('r', '8', "]");
    Concat3(Reset + Code('8') + "[", Join(cs, Comma), Reset + Code('8') + "]", "[", Join(ps, ","), "]");
    assert Colorize(Arr(items)) == (Reset + Code('8') + "[") + Join(cs, Comma) + (Reset + Code('8') + "]");
    assert Plain(Arr(items)) == "[" + Join(ps, ",") + "]";
  }

  /** One object entry: its coloured key, the colon and its coloured value. */
  lemma EntryColors(key: string, value: Json)
    requires Section !in key
    requires EndsClean(Colorize(value)) && RemoveFormatCodes(Colorize(value)) == Plain(value)
    ensures var c := ColorizeString(key) + (Reset + Code('7') + ":") + Colorize(value);
      EndsClean(c) && RemoveFormatCodes(c) == Quote(key) + ":" + Plain(value)
  {
    CodesThen('r', 'e', Quote(key));
    CodesThen('r', '7', ":");
    Concat3(ColorizeString(key), Reset + Code('7') + ":", Colorize(value), Quote(key), ":", Plain(value));
  }

  /** The object case of `ColorsOnly`, from its values'. */
  lemma ObjectColors(entries: seq<(string, Json)>)
    requires forall k :: 0 <= k < |entries| ==> Section !in entries[k].0
    requires forall k :: 0 <= k < |entries| ==>
      EndsClean(Colorize(entries[k].1)) && RemoveFormatCodes(Colorize(entries[k].1)) == Plain(entries[k].1)
    ensures EndsClean(Colorize(Obj(entries))) && RemoveFormatCodes(Colorize(Obj(entries))) == Plain(Obj(entries))
  {
    var cs := seq(|entries|, k requires 0 <= k < |entries| =>
      ColorizeString(entries[k].0) + (Reset + Code('7') + ":") + Colorize(entries[k].1));
    var ps := seq(|entries|, k requires 0 <= k < |entries| => Quote(entries[k].0) + ":" + Plain(entries[k].1));
    forall k | 0 <= k < |entries| ensures EndsClean(cs[k]) && RemoveFormatCodes(cs[k]) == ps[k] {
      EntryColors(entries[k].0, entries[k].1);
    }
    CodeThen('7', ",");
    RemoveJoin(cs, ps, Comma, ",");
    CodesThen('r', '7', "{");
    CodesThen('r', '7', "}");
    Concat3(Reset + Code('7') + "{", Join(cs, Comma), Reset + Code('7') + "}", "{", Join(ps, ","), "}");
    assert Colorize(Obj(entries)) == (Reset + Code('7') + "{") + Join(cs, Comma) + (Reset + Code('7') + "}");
    assert Plain(Obj(entries)) == "{" + Join(ps, ",") + "}";
  }

  /** An empty array is rendered as its two coloured brackets. */
  lemma EmptyArray()
    ensures Colorize(Arr([])) == Reset + Code('8') + "[" + Reset + Code('8') + "]"
  {
  }
}
