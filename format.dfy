/** Minecraft formatting codes and their removal (src/catalyst/core/format.ts). */
module Format {
  import opened JsString

  /** The section sign that opens every formatting code. */
  const Section: char := '\U{00A7}'

  /** The formatting code for the code character `c`. */
  function Code(c: char): (r: string)
    ensures |r| == 2 && r[0] == Section && r[1] == c
  {
    [Section, c]
  }

  /** The `formats` enumeration: each member's name and code, in declaration order. */
  const Formats: seq<(string, string)> := [
    ("black", Code('0')), ("dark_blue", Code('1')), ("dark_green", Code('2')),
    ("dark_aqua", Code('3')), ("dark_red", Code('4')), ("dark_purple", Code('5')),
    ("gold", Code('6')), ("gray", Code('7')), ("dark_gray", Code('8')),
    ("blue", Code('9')), ("green", Code('a')), ("aqua", Code('b')),
    ("red", Code('c')), ("light_purple", Code('d')), ("yellow", Code('e')),
    ("white", Code('f')),
    ("minecoin_gold", Code('g')), ("material_quartz", Code('h')), ("material_iron", Code('i')),
    ("material_netherite", Code('j')), ("material_redstone", Code('m')), ("material_copper", Code('n')),
    ("material_gold", Code('p')), ("material_emerald", Code('q')), ("material_diamond", Code('s')),
    ("material_lapis", Code('t')), ("material_amethyst", Code('u')),
    ("obfuscate", Code('k')), ("bold", Code('l')), ("italic", Code('o')), ("reset", Code('r')),
    ("strikethrough", Code('m')), ("underline", Code('n')),
    ("notosans", Code('\U{00B6}'))
  ]

  /** Every member of the table is a two-character code opened by the section sign. */
  lemma FormatsAreCodes()
    ensures |Formats| == 34
    ensures forall k :: 0 <= k < |Formats| ==> |Formats[k].1| == 2 && Formats[k].1[0] == Section
  {
  }

  /** Whether `s` starts with a formatting code as the pattern `/§./` matches
      it: a section sign followed by any character but a line terminator. */
  predicate CodeAt(s: string, k: int) {
    0 <= k && k + 1 < |s| && s[k] == Section && !IsLineTerminator(s[k + 1])
  }

  /** `removeFormatCodes`: the global replacement of `/§./` by nothing, which
      scans from left to right and deletes each match with the character it takes. */
  function RemoveFormatCodes(s: string): (r: string)
    ensures |r| <= |s|
    decreases |s|
  {
    if s == [] then []
    else if CodeAt(s, 0) then RemoveFormatCodes(s[2..])
    else [s[0]] + RemoveFormatCodes(s[1..])
  }

  /** A string holding no formatting code: any section sign in it is its last
      character or is followed by a line terminator. */
  predicate NoCodes(s: string) {
    forall k :: 0 <= k < |s| - 1 ==> !CodeAt(s, k)
  }

  /** What the function documents: the result holds no formatting code. */
  lemma {:induction false} RemovedHasNoCodes(s: string)
    ensures NoCodes(RemoveFormatCodes(s))
    decreases |s|
  {
    if s == [] {
    } else if CodeAt(s, 0) {
      RemovedHasNoCodes(s[2..]);
    } else {
      var rest := RemoveFormatCodes(s[1..]);
      RemovedHasNoCodes(s[1..]);
      var r := [s[0]] + rest;
      forall k | 0 <= k < |r| - 1 ensures !CodeAt(r, k) {
        if k == 0 && r[0] == Section {
          // `s[0]` was kept although it is a section sign, so `s[1]` is a line
          // terminator, and a line terminator never opens a code: it is kept too.
          assert IsLineTerminator(s[1]);
          assert s[1] != Section;
          assert rest[0] == s[1];
        } else if k > 0 {
          assert !CodeAt(rest, k - 1);
        }
      }
    }
  }

  /** A string with no formatting code is left unchanged. */
  lemma {:induction false} NoCodesUnchanged(s: string)
    requires NoCodes(s)
    ensures RemoveFormatCodes(s) == s
    decreases |s|
  {
    if s != [] {
      assert !CodeAt(s, 0);
      assert NoCodes(s[1..]) by {
        forall k | 0 <= k < |s[1..]| - 1 ensures !CodeAt(s[1..], k) {
          assert !CodeAt(s, k + 1);
        }
      }
      NoCodesUnchanged(s[1..]);
      assert s == [s[0]] + s[1..];
    }
  }

  /** `removeFormatCodes` is idempotent. */
  lemma RemoveIdempotent(s: string)
    ensures RemoveFormatCodes(RemoveFormatCodes(s)) == RemoveFormatCodes(s)
  {
    RemovedHasNoCodes(s);
    NoCodesUnchanged(RemoveFormatCodes(s));
  }

  /** Whether scanning `s` ends without a section sign left waiting for the
      character that would complete it. */
  predicate EndsClean(s: string)
    decreases |s|
  {
    if s == [] then true
    else if CodeAt(s, 0) then EndsClean(s[2..])
    else if |s| == 1 then s[0] != Section
    else EndsClean(s[1..])
  }

  /** Removal distributes over a concatenation whose first part ends clean:
      no code can straddle the seam. */
  lemma {:induction false} RemoveAppend(a: string, b: string)
    requires EndsClean(a)
    ensures RemoveFormatCodes(a + b) == RemoveFormatCodes(a) + RemoveFormatCodes(b)
    decreases |a|
  {
    if a == [] {
      assert a + b == b;
    } else if CodeAt(a, 0) {
      assert CodeAt(a + b, 0);
      assert (a + b)[2..] == a[2..] + b;
      RemoveAppend(a[2..], b);
    } else if |a| == 1 {
      assert !CodeAt(a + b, 0);
      assert (a + b)[1..] == b;
    } else {
      assert !CodeAt(a + b, 0);
      assert (a + b)[1..] == a[1..] + b;
      RemoveAppend(a[1..], b);
    }
  }

  /** Concatenating two strings that end clean ends clean. */
  lemma {:induction false} EndsCleanAppend(a: string, b: string)
    requires EndsClean(a) && EndsClean(b)
    ensures EndsClean(a + b)
    decreases |a|
  {
    if a == [] {
      assert a + b == b;
    } else if CodeAt(a, 0) {
      assert CodeAt(a + b, 0);
      assert (a + b)[2..] == a[2..] + b;
      EndsCleanAppend(a[2..], b);
    } else if |a| == 1 {
      assert (a + b)[1..] == b;
      if b != [] {
        assert !CodeAt(a + b, 0);
      }
    } else {
      assert !CodeAt(a + b, 0);
      assert (a + b)[1..] == a[1..] + b;
      EndsCleanAppend(a[1..], b);
    }
  }

  /** A string without section signs ends clean and loses nothing. */
  lemma {:induction false} PlainText(s: string)
    requires Section !in s
    ensures EndsClean(s) && RemoveFormatCodes(s) == s
    decreases |s|
  {
    if s != [] {
      assert s[0] != Section;
      assert Section !in s[1..];
      PlainText(s[1..]);
      assert s == [s[0]] + s[1..];
    }
  }

  /** A formatting code ends clean and is removed whole. */
  lemma CodeRemoved(c: char)
    requires !IsLineTerminator(c)
    ensures EndsClean(Code(c)) && RemoveFormatCodes(Code(c)) == []
  {
    assert CodeAt(Code(c), 0);
    assert Code(c)[2..] == [];
  }
}
