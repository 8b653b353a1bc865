/** Chat-command tokenizer and the list-backed command registry
    (src/catalyst/core/command.ts). */
module Command {
  import opened Base
  import opened JsString

  /** A token of a command line: its unescaped text, its span in the line
      (start inclusive, end exclusive; widened by one on each side when quoted)
      and whether it was written in double quotes. */
  datatype Token = Token(text: string, start: int, end: int, quoted: bool)

  /** The texts of a token list. */
  function Texts(ts: seq<Token>): (r: seq<string>)
    ensures |r| == |ts|
  {
    if ts == [] then [] else Texts(ts[..|ts| - 1]) + [ts[|ts| - 1].text]
  }

  lemma {:induction false} TextsAt(ts: seq<Token>, k: nat)
    requires k < |ts|
    ensures Texts(ts)[k] == ts[k].text
    decreases |ts|
  {
    if k < |ts| - 1 {
      TextsAt(ts[..|ts| - 1], k);
    }
  }

  /** The concatenation of a list of strings. */
  function Flatten(parts: seq<string>): string {
    if parts == [] then [] else Flatten(parts[..|parts| - 1]) + parts[|parts| - 1]
  }

  lemma FlattenSnoc(parts: seq<string>, p: string)
    ensures Flatten(parts + [p]) == Flatten(parts) + p
  {
    assert (parts + [p])[..|parts|] == parts;
  }

  /** The suffix of `s` from index `i`, empty when `i` is past the end. */
  function Drop(s: string, i: nat): string {
    if i <= |s| then s[i..] else []
  }

  // ---------------------------------------------------------------------------
  // Reference definitions for the tokenizer

  /** The characters that end up in token texts when scanning `s` with the
      given escape and quote state: an escaping backslash, every unescaped
      double quote, and whitespace outside quotes are dropped; everything else,
      including an escaped character of any kind, is kept in order. */
  function Content(s: string, escaped: bool, quoted: bool): string
    decreases |s|
  {
    if s == [] then []
    else if escaped then [s[0]] + Content(s[1..], false, quoted)
    else if s[0] == '\\' then Content(s[1..], true, quoted)
    else if s[0] == '"' then Content(s[1..], false, !quoted)
    else if !quoted && IsWhitespace(s[0]) then Content(s[1..], false, quoted)
    else [s[0]] + Content(s[1..], false, quoted)
  }

  /** A line with no double quote and no backslash. */
  predicate Plain(s: string) {
    forall k :: 0 <= k < |s| ==> s[k] != '"' && s[k] != '\\'
  }

  predicate NoWhitespace(w: string) {
    forall k :: 0 <= k < |w| ==> !IsWhitespace(w[k])
  }

  /** Splitting at whitespace, with `cur` the part of a word already read. */
  function Scan(cur: string, s: string): seq<string>
    decreases |s|
  {
    if s == [] then (if cur == [] then [] else [cur])
    else if IsWhitespace(s[0]) then (if cur == [] then [] else [cur]) + Scan([], s[1..])
    else Scan(cur + [s[0]], s[1..])
  }

  /** The maximal runs of non-whitespace characters of `s`, in order. */
  function Words(s: string): seq<string> {
    Scan([], s)
  }

  lemma {:induction false} ScanWords(cur: string, s: string)
    requires NoWhitespace(cur)
    ensures forall w :: w in Scan(cur, s) ==> w != [] && NoWhitespace(w)
    decreases |s|
  {
    if s != [] {
      if IsWhitespace(s[0]) {
        ScanWords([], s[1..]);
      } else {
        ScanWords(cur + [s[0]], s[1..]);
      }
    }
  }

  /** Every word is non-empty and contains no whitespace. */
  lemma WordsAreWords(s: string)
    ensures forall w :: w in Words(s) ==> w != [] && NoWhitespace(w)
  {
    ScanWords([], s);
  }

  lemma {:induction false} ScanSplit(cur: string, a: string, c: char, b: string)
    requires IsWhitespace(c)
    ensures Scan(cur, a + [c] + b) == Scan(cur, a) + Words(b)
    decreases |a|
  {
    if a == [] {
      assert a + [c] + b == [c] + b;
      assert ([c] + b)[1..] == b;
    } else {
      assert (a + [c] + b)[0] == a[0];
      assert (a + [c] + b)[1..] == a[1..] + [c] + b;
      if IsWhitespace(a[0]) {
        ScanSplit([], a[1..], c, b);
      } else {
        ScanSplit(cur + [a[0]], a[1..], c, b);
      }
    }
  }

  /** Words are cut exactly at whitespace: a whitespace character splits the
      word list into the words before it and the words after it. */
  lemma WordsSplit(a: string, c: char, b: string)
    requires IsWhitespace(c)
    ensures Words(a + [c] + b) == Words(a) + Words(b)
  {
    ScanSplit([], a, c, b);
  }

  lemma {:induction false} ScanWhole(cur: string, w: string)
    requires NoWhitespace(w) && cur + w != []
    ensures Scan(cur, w) == [cur + w]
    decreases |w|
  {
    if w == [] {
      assert cur + w == cur;
    } else {
      assert cur + [w[0]] + w[1..] == cur + w;
      ScanWhole(cur + [w[0]], w[1..]);
    }
  }

  /** A non-empty run without whitespace is one word. */
  lemma WordsOfWord(w: string)
    requires w != [] && NoWhitespace(w)
    ensures Words(w) == [w]
  {
    ScanWhole([], w);
    assert [] + w == w;
  }

  /** A character of a line once escapes are resolved: one kept as text, an
      unescaped double quote, or unescaped whitespace. */
  datatype Unit = Lit(c: char) | Mark | Gap(c: char)

  /** The units of `s`: a backslash is dropped and makes the character after
      it literal, whatever it is; a backslash ending the line is dropped. */
  function Decode(s: string, escaped: bool): seq<Unit>
    decreases |s|
  {
    if s == [] then []
    else if escaped then [Lit(s[0])] + Decode(s[1..], false)
    else if s[0] == '\\' then Decode(s[1..], true)
    else if s[0] == '"' then [Mark] + Decode(s[1..], false)
    else if IsWhitespace(s[0]) then [Gap(s[0])] + Decode(s[1..], false)
    else [Lit(s[0])] + Decode(s[1..], false)
  }

  /** The runs of units between unescaped quotes, in order; there is one
      more run than there are quotes. */
  function Segments(u: seq<Unit>): (r: seq<seq<Unit>>)
    ensures |r| >= 1
  {
    if u == [] then [[]]
    else if u[0] == Mark then [[]] + Segments(u[1..])
    else
      var t := Segments(u[1..]);
      [[u[0]] + t[0]] + t[1..]
  }

  /** The characters of a run of units, whitespace included. */
  function Chars(u: seq<Unit>): string {
    if u == [] then []
    else (if u[0].Mark? then [] else [u[0].c]) + Chars(u[1..])
  }

  /** Splitting a run at its unescaped whitespace, with `cur` the part of a
      word already read; escaped whitespace stays inside its word. */
  function Split(cur: string, u: seq<Unit>): seq<string>
    decreases |u|
  {
    if u == [] then (if cur == [] then [] else [cur])
    else if u[0].Gap? then (if cur == [] then [] else [cur]) + Split([], u[1..])
    else Split(cur + (if u[0].Mark? then [] else [u[0].c]), u[1..])
  }

  /** What a token is made of: its text and whether it was quoted. */
  datatype Piece = Piece(text: string, quoted: bool)

  /** Words as unquoted pieces. */
  function AsWords(words: seq<string>): (r: seq<Piece>)
    ensures |r| == |words|
  {
    seq(|words|, k requires 0 <= k < |words| => Piece(words[k], false))
  }

  /** The pieces of one run, `cur` already read into its first piece: outside
      quotes, its words, each unquoted; inside, the whole run as one quoted
      piece unless it is empty. */
  function Head(cur: string, quoted: bool, run: seq<Unit>): seq<Piece> {
    if quoted then (var t := cur + Chars(run); if t == [] then [] else [Piece(t, true)])
    else AsWords(Split(cur, run))
  }

  /** The pieces of successive runs, the first with quoting `quoted`, the
      following ones alternating. */
  function Group(runs: seq<seq<Unit>>, quoted: bool): seq<Piece>
    decreases |runs|
  {
    if runs == [] then [] else Head([], quoted, runs[0]) + Group(runs[1..], !quoted)
  }

  /** The tokens a line is made of, as (text, quoted) pairs: resolve escapes,
      cut the line at unescaped quotes into runs that lie alternately outside
      and inside quotes, and take the words of each outside run and each
      non-empty inside run whole. An unterminated quote runs to the end. */
  function Pieces(s: string): seq<Piece> {
    Group(Segments(Decode(s, false)), false)
  }

  // ---------------------------------------------------------------------------
  // The tokenizer

  /** A token placed in `cmd` as the tokenizer places it: non-empty, within the
      scanned part of the line, its start on its first character (one position
      earlier, on the opening quote or an escaping backslash, when quoted), and a
      quoted token reaching past its closing quote or one past the end of an
      unterminated line. */
  predicate Placed(t: Token, cmd: string, from: nat) {
    && t.text != []
    && from <= t.start < t.end <= |cmd| + 1
    && (var first := t.start + (if t.quoted then 1 else 0);
        first < |cmd| && t.text[0] == cmd[first])
    && (t.quoted ==>
          && (t.end == |cmd| + 1 || (t.end <= |cmd| && cmd[t.end - 1] == '"'))
          && (cmd[t.start] == '"' || cmd[t.start] == '\\'))
  }

  /** Token spans follow each other in input order without overlapping. */
  predicate InOrder(ts: seq<Token>) {
    forall k :: 0 < k < |ts| ==> ts[k - 1].end <= ts[k].start
  }

  /** Every token of `ts` is placed in `cmd` and follows the one before it,
      stated one token at a time from the back. */
  predicate PlacedInOrder(ts: seq<Token>, cmd: string, from: nat) {
    ts == [] ||
      (&& PlacedInOrder(ts[..|ts| - 1], cmd, from)
       && Placed(ts[|ts| - 1], cmd, from)
       && (|ts| > 1 ==> ts[|ts| - 2].end <= ts[|ts| - 1].start))
  }

  lemma {:induction false} PlacedInOrderMeans(ts: seq<Token>, cmd: string, from: nat)
    requires PlacedInOrder(ts, cmd, from)
    ensures forall k :: 0 <= k < |ts| ==> Placed(ts[k], cmd, from)
    ensures InOrder(ts)
    decreases |ts|
  {
    if ts != [] {
      var front := ts[..|ts| - 1];
      PlacedInOrderMeans(front, cmd, from);
      assert forall k :: 0 <= k < |front| ==> ts[k] == front[k];
    }
  }

  /** Tokens that were not written in quotes, stated from the back. */
  predicate Unquoted(ts: seq<Token>) {
    ts == [] || (Unquoted(ts[..|ts| - 1]) && !ts[|ts| - 1].quoted)
  }

  lemma {:induction false} UnquotedMeans(ts: seq<Token>)
    requires Unquoted(ts)
    ensures forall k :: 0 <= k < |ts| ==> !ts[k].quoted
    decreases |ts|
  {
    if ts != [] {
      var front := ts[..|ts| - 1];
      UnquotedMeans(front);
      assert forall k :: 0 <= k < |front| ==> ts[k] == front[k];
    }
  }

  /** Appends the token in progress, if any (the closure `addVec`). */
  function Flush(result: seq<Token>, text: string, start: int, i: int, quoted: bool): (r: seq<Token>)
    ensures |r| == |result| + (if text == [] then 0 else 1) && r[..|result|] == result
    ensures text != [] ==> r[|result|].text == text && r[|result|].quoted == quoted
    ensures text != [] && quoted ==> r[|result|].start == start - 1 && r[|result|].end == i + 1
    ensures text != [] && !quoted ==> r[|result|].start == start && r[|result|].end == i
  {
    if text == [] then result
    else result + [Token(text, start + (if quoted then -1 else 0), i + (if quoted then 1 else 0), quoted)]
  }

  /** What flushing does to the token texts. */
  lemma FlushTexts(result: seq<Token>, text: string, start: int, i: int, quoted: bool)
    ensures var r := Flush(result, text, start, i, quoted);
      && Texts(r) == Texts(result) + (if text == [] then [] else [text])
      && Flatten(Texts(r)) == Flatten(Texts(result)) + text
  {
    var r := Flush(result, text, start, i, quoted);
    FlattenSnoc(Texts(result), text);
    if text == [] {
      assert Texts(result) + [] == Texts(result);
      assert Flatten(Texts(result)) + text == Flatten(Texts(result));
    } else {
      assert r[..|r| - 1] == result;
    }
  }

  /** Flushing keeps the tokens placed and in order, given that the token in
      progress is placed and starts after the last one. */
  lemma FlushPlaced(result: seq<Token>, text: string, start: int, i: int, quoted: bool, cmd: string, from: nat)
    requires PlacedInOrder(result, cmd, from)
    requires text != [] ==> Placed(Token(text, start + (if quoted then -1 else 0), i + (if quoted then 1 else 0), quoted), cmd, from)
    requires text != [] && |result| > 0 ==> result[|result| - 1].end <= start + (if quoted then -1 else 0)
    ensures PlacedInOrder(Flush(result, text, start, i, quoted), cmd, from)
  {
    var r := Flush(result, text, start, i, quoted);
    if text != [] {
      assert r[..|r| - 1] == result;
    }
  }

  lemma Assoc<T>(a: seq<T>, b: seq<T>, c: seq<T>)
    ensures a + b + c == a + (b + c)
  {
  }

  lemma Regroup(a: string, b: string, c: char, d: string)
    ensures a + (b + [c]) + d == a + b + ([c] + d)
  {
  }

  /** One character of the kept-content scan. */
  lemma ContentStep(cmd: string, i: nat, escaped: bool, quoted: bool)
    requires i < |cmd|
    ensures Drop(cmd, i) == [cmd[i]] + Drop(cmd, i + 1)
    ensures Content(Drop(cmd, i), escaped, quoted) ==
      var c, rest := cmd[i], Drop(cmd, i + 1);
      if escaped then [c] + Content(rest, false, quoted)
      else if c == '\\' then Content(rest, true, quoted)
      else if c == '"' then Content(rest, false, !quoted)
      else if !quoted && IsWhitespace(c) then Content(rest, false, quoted)
      else [c] + Content(rest, false, quoted)
  {
    assert Drop(cmd, i)[1..] == Drop(cmd, i + 1);
  }

  /** One character of the word scan. */
  lemma ScanStep(cmd: string, i: nat, cur: string)
    requires i < |cmd|
    ensures Scan(cur, Drop(cmd, i)) ==
      if IsWhitespace(cmd[i]) then (if cur == [] then [] else [cur]) + Scan([], Drop(cmd, i + 1))
      else Scan(cur + [cmd[i]], Drop(cmd, i + 1))
    ensures Plain(Drop(cmd, i)) ==> Plain(Drop(cmd, i + 1)) && cmd[i] != '"' && cmd[i] != '\\'
  {
    var rest := Drop(cmd, i + 1);
    assert Drop(cmd, i)[1..] == rest;
    if Plain(Drop(cmd, i)) {
      assert Drop(cmd, i)[0] == cmd[i];
      forall k | 0 <= k < |rest| ensures rest[k] != '"' && rest[k] != '\\' {
        assert rest[k] == Drop(cmd, i)[k + 1];
      }
    }
  }

  /** The tokenizer's loop invariant after reading `cmd[from..i]`: the tokens
      so far, the token in progress `text` (started at `start`), and the escape and
      quote flags account for the characters read. */
  ghost predicate Scanned(cmd: string, from: nat, i: int, result: seq<Token>, text: string, start: int,
                          escaped: bool, quoted: bool)
  {
    && from <= i
    && (from <= |cmd| ==> i <= |cmd|)
    && (from > |cmd| ==> i == from && result == [] && text == [])
    && PlacedInOrder(result, cmd, from)
    && (|result| > 0 ==> result[|result| - 1].end <= i - (if quoted then 1 else 0))
    && (quoted ==> from < i)
    && (escaped ==> from < i <= |cmd| && cmd[i - 1] == '\\')
    && (quoted && text == [] && !escaped ==> cmd[i - 1] == '"')
    && (text != [] ==> from <= start < i && text[0] == cmd[start])
    && (text != [] && |result| > 0 ==> result[|result| - 1].end <= start - (if quoted then 1 else 0))
    && (text != [] && quoted ==> from < start && (cmd[start - 1] == '"' || cmd[start - 1] == '\\'))
  }

  /** The part of the loop invariant about what the tokens hold. */
  ghost predicate Kept(cmd: string, from: nat, i: int, result: seq<Token>, text: string, escaped: bool, quoted: bool)
    requires from <= i
  {
    KeptContent(cmd, from, i, result, text, escaped, quoted) && KeptWords(cmd, from, i, result, text, escaped, quoted)
  }

  /** The characters kept so far and those still to come make up the line's content. */
  ghost predicate KeptContent(cmd: string, from: nat, i: int, result: seq<Token>, text: string, escaped: bool,
                              quoted: bool)
    requires from <= i
  {
    Flatten(Texts(result)) + text + Content(Drop(cmd, i), escaped, quoted) == Content(Drop(cmd, from), false, false)
  }

  /** On a line without quotes or backslashes, the tokens so far and those
      still to come are its whitespace-separated words. */
  ghost predicate KeptWords(cmd: string, from: nat, i: int, result: seq<Token>, text: string, escaped: bool,
                            quoted: bool)
    requires from <= i
  {
    var line := Drop(cmd, from);
    Plain(line) ==>
      && !quoted && !escaped && Unquoted(result)
      && Texts(result) + Scan(text, Drop(cmd, i)) == Words(line)
      && Plain(Drop(cmd, i))
  }

  /** Reading a character that joins the token in progress: an escaped one, or
      one that is neither a backslash, a quote, nor whitespace outside quotes. */
  lemma KeepPlaced(cmd: string, from: nat, i: nat, result: seq<Token>, text: string, start0: int,
                   escaped: bool, quoted: bool)
    requires i < |cmd| && Scanned(cmd, from, i, result, text, start0, escaped, quoted)
    requires escaped || (cmd[i] != '\\' && cmd[i] != '"' && (quoted || !IsWhitespace(cmd[i])))
    ensures Scanned(cmd, from, i + 1, result, text + [cmd[i]], if text == [] then i else start0, false, quoted)
  {
  }

  lemma KeepText(cmd: string, from: nat, i: nat, result: seq<Token>, text: string, escaped: bool, quoted: bool)
    requires from <= i < |cmd| && Kept(cmd, from, i, result, text, escaped, quoted)
    requires escaped || (cmd[i] != '\\' && cmd[i] != '"' && (quoted || !IsWhitespace(cmd[i])))
    ensures Kept(cmd, from, i + 1, result, text + [cmd[i]], false, quoted)
  {
    var c, rest := cmd[i], Drop(cmd, i + 1);
    ContentStep(cmd, i, escaped, quoted);
    ScanStep(cmd, i, text);
    Regroup(Flatten(Texts(result)), text, c, Content(rest, false, quoted));
  }

  /** Reading an escaping backslash. */
  lemma EscapePlaced(cmd: string, from: nat, i: nat, result: seq<Token>, text: string, start0: int, quoted: bool)
    requires i < |cmd| && Scanned(cmd, from, i, result, text, start0, false, quoted)
    requires cmd[i] == '\\'
    ensures Scanned(cmd, from, i + 1, result, text, if text == [] then i else start0, true, quoted)
  {
  }

  lemma EscapeText(cmd: string, from: nat, i: nat, result: seq<Token>, text: string, quoted: bool)
    requires from <= i < |cmd| && Kept(cmd, from, i, result, text, false, quoted)
    requires cmd[i] == '\\'
    ensures Kept(cmd, from, i + 1, result, text, true, quoted)
  {
    ContentStep(cmd, i, false, quoted);
    ScanStep(cmd, i, text);
  }

  /** Reading an unescaped quote, which toggles quoting, or whitespace outside
      quotes: both end the token in progress. */
  lemma FlushPlacedStep(cmd: string, from: nat, i: nat, result: seq<Token>, text: string, start0: int, quoted: bool)
    requires i < |cmd| && Scanned(cmd, from, i, result, text, start0, false, quoted)
    requires cmd[i] == '"' || (!quoted && IsWhitespace(cmd[i]))
    ensures var start := if text == [] then i else start0;
      Scanned(cmd, from, i + 1, Flush(result, text, start, i, quoted), [], start, false,
              if cmd[i] == '"' then !quoted else quoted)
  {
    var start := if text == [] then i else start0;
    FlushPlaced(result, text, start, i, quoted, cmd, from);
  }

  lemma FlushText(cmd: string, from: nat, i: nat, result: seq<Token>, text: string, start: int, quoted: bool)
    requires from <= i < |cmd| && Kept(cmd, from, i, result, text, false, quoted)
    requires cmd[i] == '"' || (!quoted && IsWhitespace(cmd[i]))
    ensures Kept(cmd, from, i + 1, Flush(result, text, start, i, quoted), [], false,
                 if cmd[i] == '"' then !quoted else quoted)
  {
    FlushTexts(result, text, start, i, quoted);
    FlushContent(cmd, from, i, result, text, start, quoted);
    FlushWords(cmd, from, i, result, text, start, quoted);
  }

  lemma FlushContent(cmd: string, from: nat, i: nat, result: seq<Token>, text: string, start: int, quoted: bool)
    requires from <= i < |cmd| && KeptContent(cmd, from, i, result, text, false, quoted)
    requires cmd[i] == '"' || (!quoted && IsWhitespace(cmd[i]))
    requires Flatten(Texts(Flush(result, text, start, i, quoted))) == Flatten(Texts(result)) + text
    ensures KeptContent(cmd, from, i + 1, Flush(result, text, start, i, quoted), [], false,
                        if cmd[i] == '"' then !quoted else quoted)
  {
    ContentStep(cmd, i, false, quoted);
    var r := Flush(result, text, start, i, quoted);
    assert Flatten(Texts(r)) + [] == Flatten(Texts(result)) + text;
  }

  lemma FlushWords(cmd: string, from: nat, i: nat, result: seq<Token>, text: string, start: int, quoted: bool)
    requires from <= i < |cmd| && KeptWords(cmd, from, i, result, text, false, quoted)
    requires cmd[i] == '"' || (!quoted && IsWhitespace(cmd[i]))
    requires Texts(Flush(result, text, start, i, quoted)) == Texts(result) + (if text == [] then [] else [text])
    ensures KeptWords(cmd, from, i + 1, Flush(result, text, start, i, quoted), [], false,
                      if cmd[i] == '"' then !quoted else quoted)
  {
    ScanStep(cmd, i, text);
    if Plain(Drop(cmd, from)) {
      Assoc(Texts(result), if text == [] then [] else [text], Scan([], Drop(cmd, i + 1)));
    }
  }

  /** The end of the line flushes the token in progress; the invariant then gives
      the tokenizer's postcondition. */
  lemma FinishPlaced(cmd: string, from: nat, i: int, result: seq<Token>, text: string, start: int,
                     escaped: bool, quoted: bool)
    requires i >= |cmd| && Scanned(cmd, from, i, result, text, start, escaped, quoted)
    ensures var r := Flush(result, text, start, i, quoted);
      (forall k :: 0 <= k < |r| ==> Placed(r[k], cmd, from)) && InOrder(r)
  {
    FlushPlaced(result, text, start, i, quoted, cmd, from);
    PlacedInOrderMeans(Flush(result, text, start, i, quoted), cmd, from);
  }

  lemma FinishText(cmd: string, from: nat, i: int, result: seq<Token>, text: string, start: int,
                   escaped: bool, quoted: bool)
    requires from <= i && i >= |cmd| && Kept(cmd, from, i, result, text, escaped, quoted)
    ensures var r := Flush(result, text, start, i, quoted);
      && Flatten(Texts(r)) == Content(Drop(cmd, from), false, false)
      && (Plain(Drop(cmd, from)) ==>
            Texts(r) == Words(Drop(cmd, from)) && forall k :: 0 <= k < |r| ==> !r[k].quoted)
  {
    FlushTexts(result, text, start, i, quoted);
    assert Drop(cmd, i) == [];
    var r := Flush(result, text, start, i, quoted);
    if Plain(Drop(cmd, from)) {
      assert Unquoted(r);
      UnquotedMeans(r);
    }
  }

  /** Before the first character, nothing has been kept. */
  lemma StartScan(cmd: string, from: nat)
    ensures Scanned(cmd, from, from, [], [], 0, false, false)
    ensures KeptContent(cmd, from, from, [], [], false, false)
    ensures KeptWords(cmd, from, from, [], [], false, false)
  {
    assert Texts([]) == [] && Flatten([]) == [];
    var line := Drop(cmd, from);
    assert [] + [] + Content(line, false, false) == Content(line, false, false);
    assert [] + Scan([], line) == Words(line);
  }

  /** The tokenizer's state between two characters: the tokens so far, the
      token in progress and where it started, and the escape and quote flags. */
  datatype Lexer = Lexer(result: seq<Token>, text: string, start: int, escaped: bool, quoted: bool)

  /** One pass of the tokenizer's loop, on `cmd[i]`: an escaped character
      is kept; a backslash escapes the next one; a quote ends the token in
      progress and toggles quoting; whitespace outside quotes ends the token
      in progress; anything else is kept. A token starts at the first
      character read while none is in progress. */
  function Step(cmd: string, i: nat, s: Lexer): Lexer
    requires i < |cmd|
  {
    var start := if s.text == [] then i else s.start;
    var c := cmd[i];
    if s.escaped then s.(text := s.text + [c], start := start, escaped := false)
    else if c == '\\' then s.(start := start, escaped := true)
    else if c == '"' then Lexer(Flush(s.result, s.text, start, i, s.quoted), [], start, false, !s.quoted)
    else if !s.quoted && IsWhitespace(c) then Lexer(Flush(s.result, s.text, start, i, s.quoted), [], start, false, false)
    else s.(text := s.text + [c], start := start)
  }

  /** The tokens read from `cmd[i]` on, from state `s`: the loop, then the
      final flush of the token in progress. */
  function Lex(cmd: string, i: nat, s: Lexer): seq<Token>
    decreases |cmd| - i
  {
    if i >= |cmd| then Flush(s.result, s.text, s.start, i, s.quoted) else Lex(cmd, i + 1, Step(cmd, i, s))
  }

  /** One step keeps where the tokens lie ... */
  lemma StepPlaced(cmd: string, from: nat, i: nat, s: Lexer)
    requires i < |cmd| && Scanned(cmd, from, i, s.result, s.text, s.start, s.escaped, s.quoted)
    ensures var n := Step(cmd, i, s);
      Scanned(cmd, from, i + 1, n.result, n.text, n.start, n.escaped, n.quoted)
  {
    var c := cmd[i];
    if s.escaped {
      KeepPlaced(cmd, from, i, s.result, s.text, s.start, s.escaped, s.quoted);
    } else if c == '\\' {
      EscapePlaced(cmd, from, i, s.result, s.text, s.start, s.quoted);
    } else if c == '"' || (!s.quoted && IsWhitespace(c)) {
      FlushPlacedStep(cmd, from, i, s.result, s.text, s.start, s.quoted);
    } else {
      KeepPlaced(cmd, from, i, s.result, s.text, s.start, s.escaped, s.quoted);
    }
  }

  /** ... and what they hold. */
  lemma StepKept(cmd: string, from: nat, i: nat, s: Lexer)
    requires from <= i < |cmd| && Kept(cmd, from, i, s.result, s.text, s.escaped, s.quoted)
    ensures var n := Step(cmd, i, s);
      Kept(cmd, from, i + 1, n.result, n.text, n.escaped, n.quoted)
  {
    var start := if s.text == [] then i else s.start;
    var c := cmd[i];
    if s.escaped {
      KeepText(cmd, from, i, s.result, s.text, s.escaped, s.quoted);
    } else if c == '\\' {
      EscapeText(cmd, from, i, s.result, s.text, s.quoted);
    } else if c == '"' || (!s.quoted && IsWhitespace(c)) {
      FlushText(cmd, from, i, s.result, s.text, start, s.quoted);
    } else {
      KeepText(cmd, from, i, s.result, s.text, s.escaped, s.quoted);
    }
  }

  /** From any state that keeps the first half of the loop invariant, the
      tokens read lie where their texts were read, in order ... */
  lemma {:induction false} LexPlaced(cmd: string, from: nat, i: nat, s: Lexer)
    requires Scanned(cmd, from, i, s.result, s.text, s.start, s.escaped, s.quoted)
    ensures var r := Lex(cmd, i, s);
      (forall k :: 0 <= k < |r| ==> Placed(r[k], cmd, from)) && InOrder(r)
    decreases |cmd| - i
  {
    if i >= |cmd| {
      FinishPlaced(cmd, from, i, s.result, s.text, s.start, s.escaped, s.quoted);
    } else {
      StepPlaced(cmd, from, i, s);
      LexPlaced(cmd, from, i + 1, Step(cmd, i, s));
    }
  }

  /** ... and from one that keeps the second half, they hold exactly the
      line's content and, on a plain line, are its words. */
  lemma {:induction false} LexKept(cmd: string, from: nat, i: nat, s: Lexer)
    requires from <= i && Kept(cmd, from, i, s.result, s.text, s.escaped, s.quoted)
    ensures var r := Lex(cmd, i, s);
      && Flatten(Texts(r)) == Content(Drop(cmd, from), false, false)
      && (Plain(Drop(cmd, from)) ==> Texts(r) == Words(Drop(cmd, from)) && forall k :: 0 <= k < |r| ==> !r[k].quoted)
    decreases |cmd| - i
  {
    if i >= |cmd| {
      FinishText(cmd, from, i, s.result, s.text, s.start, s.escaped, s.quoted);
    } else {
      StepKept(cmd, from, i, s);
      LexKept(cmd, from, i + 1, Step(cmd, i, s));
    }
  }

  /** The tokenizer's state before the first character. */
  const Fresh := Lexer([], [], 0, false, false)

  /** The text and quoting of each token. */
  function Shape(ts: seq<Token>): (r: seq<Piece>)
    ensures |r| == |ts|
  {
    seq(|ts|, k requires 0 <= k < |ts| => Piece(ts[k].text, ts[k].quoted))
  }

  /** The pieces still to come from units `u` when the token in progress holds
      `cur` and quoting is `quoted`: the rest of the current run, then the runs
      after it. */
  function Owed(cur: string, quoted: bool, u: seq<Unit>): seq<Piece> {
    var runs := Segments(u);
    Head(cur, quoted, runs[0]) + Group(runs[1..], !quoted)
  }

  /** The third part of the loop invariant: the tokens so far and the pieces
      still owed make up the pieces of the line. */
  ghost predicate KeptPieces(cmd: string, from: nat, i: nat, s: Lexer) {
    Shape(s.result) + Owed(s.text, s.quoted, Decode(Drop(cmd, i), s.escaped)) == Pieces(Drop(cmd, from))
  }

  lemma ShapeFlush(result: seq<Token>, text: string, start: int, i: int, quoted: bool)
    ensures Shape(Flush(result, text, start, i, quoted)) == Shape(result) + (if text == [] then [] else [Piece(text, quoted)])
  {
  }

  /** A run that ends here yields the token in progress, if any. */
  lemma HeadAtEnd(cur: string, quoted: bool)
    ensures Head(cur, quoted, []) == if cur == [] then [] else [Piece(cur, quoted)]
  {
    assert cur + Chars([]) == cur;
  }

  lemma AsWordsAppend(a: seq<string>, b: seq<string>)
    ensures AsWords(a + b) == AsWords(a) + AsWords(b)
  {
  }

  /** One character of the unit scan. */
  lemma DecodeStep(cmd: string, i: nat, escaped: bool)
    requires i < |cmd|
    ensures Decode(Drop(cmd, i), escaped) ==
      var c, rest := cmd[i], Drop(cmd, i + 1);
      if escaped then [Lit(c)] + Decode(rest, false)
      else if c == '\\' then Decode(rest, true)
      else if c == '"' then [Mark] + Decode(rest, false)
      else if IsWhitespace(c) then [Gap(c)] + Decode(rest, false)
      else [Lit(c)] + Decode(rest, false)
  {
    assert Drop(cmd, i)[1..] == Drop(cmd, i + 1);
  }

  /** A kept unit joins the token in progress. */
  lemma KeepOwed(cur: string, quoted: bool, u: Unit, rest: seq<Unit>)
    requires !u.Mark? && (quoted || u.Lit?)
    ensures Owed(cur, quoted, [u] + rest) == Owed(cur + [u.c], quoted, rest)
  {
    assert ([u] + rest)[1..] == rest;
    var t := Segments(rest);
    var run := [u] + t[0];
    assert Segments([u] + rest) == [run] + t[1..];
    assert run[1..] == t[0];
    if quoted {
      assert Chars(run) == [u.c] + Chars(t[0]);
      assert cur + Chars(run) == cur + [u.c] + Chars(t[0]);
    } else {
      assert Split(cur, run) == Split(cur + [u.c], t[0]);
    }
  }

  /** An unescaped quote ends the run. */
  lemma MarkOwed(cur: string, quoted: bool, rest: seq<Unit>)
    ensures Owed(cur, quoted, [Mark] + rest) == Head(cur, quoted, []) + Owed([], !quoted, rest)
  {
    assert ([Mark] + rest)[1..] == rest;
    var t := Segments(rest);
    assert Segments([Mark] + rest) == [[]] + t;
    assert ([[]] + t)[1..] == t;
  }

  /** Unescaped whitespace outside quotes ends the word in progress. */
  lemma GapOwed(cur: string, c: char, rest: seq<Unit>)
    ensures Owed(cur, false, [Gap(c)] + rest) == Head(cur, false, []) + Owed([], false, rest)
  {
    assert ([Gap(c)] + rest)[1..] == rest;
    var t := Segments(rest);
    var run := [Gap(c)] + t[0];
    assert Segments([Gap(c)] + rest) == [run] + t[1..];
    assert run[1..] == t[0];
    var before := if cur == [] then [] else [cur];
    assert Split(cur, run) == before + Split([], t[0]);
    AsWordsAppend(before, Split([], t[0]));
  }

  lemma StartPieces(cmd: string, from: nat)
    ensures KeptPieces(cmd, from, from, Fresh)
  {
    var runs := Segments(Decode(Drop(cmd, from), false));
    assert Shape([]) == [];
    assert Group(runs, false) == Head([], false, runs[0]) + Group(runs[1..], true);
  }

  lemma StepPieces(cmd: string, from: nat, i: nat, s: Lexer)
    requires i < |cmd| && KeptPieces(cmd, from, i, s)
    ensures KeptPieces(cmd, from, i + 1, Step(cmd, i, s))
  {
    var start := if s.text == [] then i else s.start;
    var c, rest := cmd[i], Decode(Drop(cmd, i + 1), false);
    DecodeStep(cmd, i, s.escaped);
    if s.escaped {
      KeepOwed(s.text, s.quoted, Lit(c), rest);
    } else if c == '\\' {
    } else if c == '"' || (!s.quoted && IsWhitespace(c)) {
      if c == '"' {
        MarkOwed(s.text, s.quoted, rest);
      } else {
        GapOwed(s.text, c, rest);
      }
      HeadAtEnd(s.text, s.quoted);
      ShapeFlush(s.result, s.text, start, i, s.quoted);
      Assoc(Shape(s.result), Head(s.text, s.quoted, []), Owed([], if c == '"' then !s.quoted else s.quoted, rest));
    } else {
      KeepOwed(s.text, s.quoted, if IsWhitespace(c) then Gap(c) else Lit(c), rest);
    }
  }

  /** From any state that keeps the third part of the loop invariant, the
      tokens read are the line's pieces. */
  lemma {:induction false} LexPieces(cmd: string, from: nat, i: nat, s: Lexer)
    requires KeptPieces(cmd, from, i, s)
    ensures Shape(Lex(cmd, i, s)) == Pieces(Drop(cmd, from))
    decreases |cmd| - i
  {
    if i >= |cmd| {
      assert Drop(cmd, i) == [];
      assert Segments([]) == [[]];
      HeadAtEnd(s.text, s.quoted);
      ShapeFlush(s.result, s.text, s.start, i, s.quoted);
    } else {
      StepPieces(cmd, from, i, s);
      LexPieces(cmd, from, i + 1, Step(cmd, i, s));
    }
  }

  /** What the tokenizer promises about the tokens of `cmd` from `from` on:
      each lies where its text was read, they are in order, their texts hold
      exactly the kept characters and, on a line without quotes and
      backslashes, they are its maximal non-whitespace runs, unquoted. */
  lemma Tokens(cmd: string, from: nat)
    ensures var r := Lex(cmd, from, Fresh);
      && (forall k :: 0 <= k < |r| ==> Placed(r[k], cmd, from))
      && InOrder(r)
      && Flatten(Texts(r)) == Content(Drop(cmd, from), false, false)
      && (Plain(Drop(cmd, from)) ==> Texts(r) == Words(Drop(cmd, from)) && forall k :: 0 <= k < |r| ==> !r[k].quoted)
      && Shape(r) == Pieces(Drop(cmd, from))
  {
    StartScan(cmd, from);
    LexPlaced(cmd, from, from, Fresh);
    LexKept(cmd, from, from, Fresh);
    StartPieces(cmd, from);
    LexPieces(cmd, from, from, Fresh);
  }

  /** A quote ends the word before it and opens a quoted token: `ab"cd"`
      is the unquoted `ab` then the quoted `cd`, not one token `abcd`. */
  lemma QuoteSplits()
    ensures Shape(Lex("ab\"cd\"", 0, Fresh)) == [Piece("ab", false), Piece("cd", true)]
  {
    var line := "ab\"cd\"";
    QuotePieces();
    assert Drop(line, 0) == line;
    Tokens(line, 0);
  }

  lemma QuotePieces()
    ensures Pieces("ab\"cd\"") == [Piece("ab", false), Piece("cd", true)]
  {
    var a, b, c, d := Lit('a'), Lit('b'), Lit('c'), Lit('d');
    QuoteUnits();
    QuoteRuns();
    QuoteHeads();
    var runs := [[a, b], [c, d], []];
    assert Group([[]], false) == [];
    assert Group([[c, d], []], true) == [Piece("cd", true)] by { assert [[c, d], []][1..] == [[]]; }
    assert runs[1..] == [[c, d], []];
  }

  /** The pieces of each run of `ab"cd"`. */
  lemma QuoteHeads()
    ensures Head([], false, [Lit('a'), Lit('b')]) == [Piece("ab", false)]
    ensures Head([], true, [Lit('c'), Lit('d')]) == [Piece("cd", true)]
    ensures Head([], false, []) == []
  {
    var a, b, c, d := Lit('a'), Lit('b'), Lit('c'), Lit('d');
    assert Split("ab", []) == ["ab"];
    assert Split("a", [b]) == ["ab"] by { assert [b][1..] == []; assert "a" + [b.c] == "ab"; }
    assert Split([], [a, b]) == ["ab"] by { assert [a, b][1..] == [b]; assert [] + [a.c] == "a"; }
    assert Chars([d]) == "d" by { assert [d][1..] == []; }
    assert Chars([c, d]) == "cd" by { assert [c, d][1..] == [d]; }
    assert [] + Chars([c, d]) == "cd";
    assert Split([], []) == [];
  }

  /** The units of `ab"cd"`. */
  lemma QuoteUnits()
    ensures Decode("ab\"cd\"", false) == [Lit('a'), Lit('b'), Mark, Lit('c'), Lit('d'), Mark]
  {
    var line := "ab\"cd\"";
    var a, b, c, d := Lit('a'), Lit('b'), Lit('c'), Lit('d');
    assert Decode([], false) == [];
    assert Decode("\"", false) == [Mark] by { assert "\""[1..] == []; }
    assert Decode("d\"", false) == [d, Mark] by { assert "d\""[1..] == "\""; }
    assert Decode("cd\"", false) == [c, d, Mark] by { assert "cd\""[1..] == "d\""; }
    assert Decode("\"cd\"", false) == [Mark, c, d, Mark] by { assert "\"cd\""[1..] == "cd\""; }
    assert Decode("b\"cd\"", false) == [b, Mark, c, d, Mark] by { assert "b\"cd\""[1..] == "\"cd\""; }
    assert line[1..] == "b\"cd\"";
  }

  /** The runs of `ab"cd"` between its quotes. */
  lemma QuoteRuns()
    ensures Segments([Lit('a'), Lit('b'), Mark, Lit('c'), Lit('d'), Mark]) ==
      [[Lit('a'), Lit('b')], [Lit('c'), Lit('d')], []]
  {
    var a, b, c, d := Lit('a'), Lit('b'), Lit('c'), Lit('d');
    assert Segments([Mark]) == [[], []] by { assert [Mark][1..] == []; }
    assert Segments([d, Mark]) == [[d], []] by {
      assert [d, Mark][1..] == [Mark];
      assert [d] + Segments([Mark])[0] == [d];
      assert [[d]] + Segments([Mark])[1..] == [[d], []];
    }
    assert Segments([c, d, Mark]) == [[c, d], []] by {
      assert [c, d, Mark][1..] == [d, Mark];
      assert [c] + [d] == [c, d];
      assert [[c, d]] + [[d], []][1..] == [[c, d], []];
    }
    assert Segments([Mark, c, d, Mark]) == [[], [c, d], []] by { assert [Mark, c, d, Mark][1..] == [c, d, Mark]; }
    assert Segments([b, Mark, c, d, Mark]) == [[b], [c, d], []] by {
      assert [b, Mark, c, d, Mark][1..] == [Mark, c, d, Mark];
      assert [b] + [] == [b];
      assert [[b]] + [[], [c, d], []][1..] == [[b], [c, d], []];
    }
    assert [a, b, Mark, c, d, Mark][1..] == [b, Mark, c, d, Mark];
    assert [a] + [b] == [a, b];
    assert [[a, b]] + [[b], [c, d], []][1..] == [[a, b], [c, d], []];
  }

  /** `tokenizeCommand(cmd, startIndex)`: splits a chat line into tokens,
      scanning from `startIndex`; see `Tokens` for what they are. */
  method Tokenize(cmd: string, startIndex: nat) returns (result: seq<Token>)
    ensures result == Lex(cmd, startIndex, Fresh)
  {
    result := [];
    var text: string := [];
    var escapeChar := false;
    var start: int := 0;
    var isQuoted := false;
    var i: nat := startIndex;

    while i < |cmd|
      invariant Lex(cmd, i, Lexer(result, text, start, escapeChar, isQuoted)) == Lex(cmd, startIndex, Fresh)
      decreases |cmd| - i
    {
      if text == [] {
        start := i;
      }
      var c := cmd[i];
      if escapeChar {
        escapeChar := false;
        text := text + [c];
      } else if c == '\\' {
        escapeChar := true;
      } else if c == '"' {
        result := Flush(result, text, start, i, isQuoted);
        text := [];
        isQuoted := !isQuoted;
      } else if !isQuoted && IsWhitespace(c) {
        result := Flush(result, text, start, i, isQuoted);
        text := [];
      } else {
        text := text + [c];
      }
      i := i + 1;
    }

    result := Flush(result, text, start, i, isQuoted);
  }


  // ---------------------------------------------------------------------------
  // The command registry

  /** A registered command; the callback is a foreign function, kept as an opaque handle. */
  datatype CommandEntry = CommandEntry(name: string, help: string, aliases: seq<string>, callback: nat)

  /** What a caller passes to `registerCommand`; absent fields are `None`. */
  datatype CommandData = CommandData(name: string, help: Option<string>, aliases: Option<seq<string>>)

  /** Whether `cmd` calls this entry, by name or alias. */
  predicate Names(e: CommandEntry, cmd: string) {
    e.name == cmd || cmd in e.aliases
  }

  /** Index of the first entry named `name` (`findIndex`), or |entries| when there is none. */
  function FindByName(entries: seq<CommandEntry>, name: string): (k: nat)
    ensures k <= |entries|
    ensures k < |entries| ==> entries[k].name == name
    ensures forall j :: 0 <= j < k ==> entries[j].name != name
  {
    if entries == [] then 0
    else if entries[0].name == name then 0
    else 1 + FindByName(entries[1..], name)
  }

  /** What `callCommand` hands to the command it found: the entry and the tokens. */
  datatype Call = Call(entry: CommandEntry, argv: seq<Token>)

  /** The module-level `registry` array. */
  class Registry {
    var entries: seq<CommandEntry>

    constructor ()
      ensures entries == []
    {
      entries := [];
    }

    /** `registerCommand`: appends the entry, with the default help text and alias list. */
    method Register(data: CommandData, callback: nat) returns (entry: CommandEntry)
      modifies this
      ensures entry.name == data.name && entry.callback == callback
      ensures entry.help == if data.help.Some? && data.help.value != [] then data.help.value else "No description."
      ensures entry.aliases == if data.aliases.Some? then data.aliases.value else []
      ensures entries == old(entries) + [entry]
    {
      var help := if data.help.Some? && data.help.value != [] then data.help.value else "No description.";
      var aliases := if data.aliases.Some? then data.aliases.value else [];
      entry := CommandEntry(data.name, help, aliases, callback);
      entries := entries + [entry];
    }

    /** `deregisterCommand`: removes the first entry with that name (aliases do
        not count); an unknown name changes nothing. */
    method Deregister(name: string)
      modifies this
      ensures var k := FindByName(old(entries), name);
        entries == if k == |old(entries)| then old(entries) else old(entries)[..k] + old(entries)[k + 1..]
    {
      var idx := FindByName(entries, name);
      if idx == |entries| {
        return;
      }
      entries := entries[..idx] + entries[idx + 1..];
    }

    /** `getCommand`: the first entry whose name or alias is `cmd`. */
    function Get(cmd: string): (r: Option<CommandEntry>)
      reads this
      ensures r.Some? <==> exists k :: 0 <= k < |entries| && Names(entries[k], cmd)
      ensures r.Some? ==> exists k :: (0 <= k < |entries| && entries[k] == r.value
        && Names(r.value, cmd) && forall j :: 0 <= j < k ==> !Names(entries[j], cmd))
    {
      FirstNamed(entries, cmd)
    }

    /** `callCommand`: tokenizes the whole line, then finds the command named by
        the first token; otherwise throws "Unknown command.". Running the
        callback is foreign: the call it would make is returned, with the tokens. */
    method CallCommand(cmd: string) returns (r: Result<Call, string>, argv: seq<Token>)
      ensures forall k :: 0 <= k < |argv| ==> Placed(argv[k], cmd, 0)
      ensures InOrder(argv)
      ensures Flatten(Texts(argv)) == Content(cmd, false, false)
      ensures argv == [] <==> Content(cmd, false, false) == []
      ensures r.Err? <==> argv == [] || Get(argv[0].text).None?
      ensures r.Err? ==> r.error == "Unknown command."
      ensures r.Ok? ==> r.value.argv == argv && Get(argv[0].text) == Some(r.value.entry)
      ensures r.Ok? ==> r.value.entry in entries && Names(r.value.entry, argv[0].text)
    {
      argv := Tokenize(cmd, 0);
      Tokens(cmd, 0);
      assert Drop(cmd, 0) == cmd;
      assert forall k :: 0 <= k < |argv| ==> argv[k].text != [] by {
        forall k | 0 <= k < |argv| ensures argv[k].text != [] {
          assert Placed(argv[k], cmd, 0);
        }
      }
      FlattenEmpty(argv);
      if |argv| == 0 {
        return Err("Unknown command."), argv;
      }
      var entry := Get(argv[0].text);
      if entry.None? {
        return Err("Unknown command."), argv;
      }
      FirstNamedIn(entries, argv[0].text);
      return Ok(Call(entry.value, argv)), argv;
    }
  }

  /** Non-empty tokens hold no characters only when there are none. */
  lemma FlattenEmpty(ts: seq<Token>)
    requires forall k :: 0 <= k < |ts| ==> ts[k].text != []
    ensures Flatten(Texts(ts)) == [] <==> ts == []
  {
    if ts != [] {
      var parts := Texts(ts);
      assert parts[..|parts| - 1] == Texts(ts[..|ts| - 1]);
      assert parts[|parts| - 1] == ts[|ts| - 1].text;
      assert |Flatten(parts)| >= |parts[|parts| - 1]|;
    }
  }

  function FirstNamed(entries: seq<CommandEntry>, cmd: string): (r: Option<CommandEntry>)
    ensures r.Some? <==> exists k :: 0 <= k < |entries| && Names(entries[k], cmd)
    ensures r.Some? ==> exists k :: (0 <= k < |entries| && entries[k] == r.value
      && Names(r.value, cmd) && forall j :: 0 <= j < k ==> !Names(entries[j], cmd))
  {
    if entries == [] then None
    else if Names(entries[0], cmd) then Some(entries[0])
    else
      var r := FirstNamed(entries[1..], cmd);
      assert r.Some? ==> exists k :: (0 <= k < |entries| && entries[k] == r.value
        && Names(r.value, cmd) && forall j :: 0 <= j < k ==> !Names(entries[j], cmd)) by {
        if r.Some? {
          var k :| 0 <= k < |entries[1..]| && entries[1..][k] == r.value
            && Names(r.value, cmd) && forall j :: 0 <= j < k ==> !Names(entries[1..][j], cmd);
          assert entries[k + 1] == r.value;
          forall j | 0 <= j < k + 1 ensures !Names(entries[j], cmd) {
            if j > 0 { assert entries[j] == entries[1..][j - 1]; }
          }
        }
      }
      assert (exists k :: 0 <= k < |entries| && Names(entries[k], cmd)) ==>
        exists k :: 0 <= k < |entries[1..]| && Names(entries[1..][k], cmd) by {
        if exists k :: 0 <= k < |entries| && Names(entries[k], cmd) {
          var k :| 0 <= k < |entries| && Names(entries[k], cmd);
          assert entries[1..][k - 1] == entries[k];
        }
      }
      r
  }

  lemma FirstNamedIn(entries: seq<CommandEntry>, cmd: string)
    requires FirstNamed(entries, cmd).Some?
    ensures FirstNamed(entries, cmd).value in entries
  {
  }
}
