/** The grammar-driven argument parser (src/catalyst/core/cmdparser.ts): the
    grammar datatypes, the type-parser registry, the pure steps of the parser
    (`processArg`, the short-flag cluster, a flag's arguments, the trailing
    defaults) as functions, and the `Parser` class whose fields are the
    closure state `parseCommand` mutates (`argv`, `useFlags`). */
module CmdParser {
  import opened Base
  import opened Command

  // ---------------------------------------------------------------------------
  // Grammar and values

  /** A value stored in a parse result: a flag or (sub)command mark, a parsed
      value or a default. */
  datatype Value = Undefined | Bool(b: bool) | Str(s: string) | Int(i: int)

  /** The `dest -> value` map `parseCommand` returns. */
  type ParseResult = map<string, Value>

  /** A `CommandError`: message, offending token, command line, and the two
      optional offsets given to its constructor. */
  datatype CommandError = CommandError(message: string, token: Option<Token>, command: string,
                                       start: Option<int>, end: Option<int>)

  /** What a type parser does with the remaining tokens: return a value and a
      step (0 standing for an absent or zero step), throw a `CommandError`, or
      throw any other exception, of which only the stack trace is used. */
  datatype Attempt = Parsed(value: Value, step: nat) | Raised(error: CommandError) | Crashed(trace: string)

  type TypeParser = seq<Token> -> Attempt

  /** An argument's type: a registry name or an inline parser. */
  datatype TypeRef = Named(name: string) | Inline(parser: TypeParser)

  /** `commandArg`; an absent `required` is false and an absent `default` undefined. */
  datatype Arg = Arg(name: Option<string>, typ: TypeRef, dest: string, required: bool, default: Value)

  /** `commandFlag`; absent `args` is the empty list. */
  datatype Flag = Flag(dest: string, long: Option<string>, short: Option<string>, args: seq<Arg>)

  /** `commandSub`; absent `aliases`, `args`, `flags` and `subs` are empty lists,
      and an empty `name` marks an unnamed sub-command. */
  datatype Sub = Sub(name: string, dest: string, aliases: seq<string>, args: seq<Arg>,
                     flags: seq<Flag>, subs: seq<Sub>)

  /** Why a parse failed: a `CommandError`, or a `TypeError` of the runtime. */
  datatype Failure = Syntax(error: CommandError) | Fault(message: string)

  /** The parser's fixed inputs: the command line and the type-parser registry. */
  datatype Env = Env(cmd: string, parsers: map<string, TypeParser>)

  /** A successful step: the cursor and the result map. */
  datatype Progress = Progress(idx: nat, result: ParseResult)

  /** The built-in `'string'` type parser: the text of the first token, or
      undefined when there is none; its step is absent. */
  function StringParser(argv: seq<Token>): (a: Attempt)
    ensures a.Parsed? && a.step == 0
    ensures a.value == if argv == [] then Undefined else Str(argv[0].text)
  {
    Parsed(if argv == [] then Undefined else Str(argv[0].text), 0)
  }

  /** The registry as it stands once the module is loaded. */
  function BuiltinParsers(): map<string, TypeParser> {
    map["string" := StringParser]
  }

  /** `registerCommandTypeParser`: the registry, as a module-level table. */
  class TypeRegistry {
    var parsers: map<string, TypeParser>

    constructor ()
      ensures parsers == BuiltinParsers()
    {
      parsers := BuiltinParsers();
    }

    /** Adds or replaces the parser registered under `name`. */
    method Register(name: string, parser: TypeParser)
      modifies this
      ensures parsers == old(parsers)[name := parser]
    {
      parsers := parsers[name := parser];
    }
  }

  // ---------------------------------------------------------------------------
  // Grammar helpers

  function ArgDests(args: seq<Arg>): set<string> {
    set i | 0 <= i < |args| :: args[i].dest
  }

  /** The keys a flag can write: its own and its arguments'. */
  function FlagDests(flags: seq<Flag>): set<string> {
    (set i | 0 <= i < |flags| :: flags[i].dest)
      + (set i, j | 0 <= i < |flags| && 0 <= j < |flags[i].args| :: flags[i].args[j].dest)
  }

  /** Every key the grammar rooted at `s` can write. */
  function Dests(s: Sub): set<string>
    decreases s
  {
    {s.dest} + ArgDests(s.args) + FlagDests(s.flags)
      + (set i, d | 0 <= i < |s.subs| && d in Dests(s.subs[i]) :: d)
  }

  /** The keys the grammar rooted at `s` can write without any flag. */
  function PosDests(s: Sub): set<string>
    decreases s
  {
    {s.dest} + ArgDests(s.args) + (set i, d | 0 <= i < |s.subs| && d in PosDests(s.subs[i]) :: d)
  }

  lemma SubDests(s: Sub, i: nat)
    requires i < |s.subs|
    ensures Dests(s.subs[i]) <= Dests(s) && PosDests(s.subs[i]) <= PosDests(s)
  {
  }

  /** `r` extends `result` by keys in `keys` only, and keeps every other value. */
  predicate Extends(result: ParseResult, r: ParseResult, keys: set<string>) {
    && result.Keys <= r.Keys
    && r.Keys <= result.Keys + keys
    && forall k :: k in result && k !in keys ==> r[k] == result[k]
  }

  lemma ExtendsTrans(a: ParseResult, b: ParseResult, c: ParseResult, k1: set<string>, k2: set<string>, k: set<string>)
    requires Extends(a, b, k1) && Extends(b, c, k2) && k1 <= k && k2 <= k
    ensures Extends(a, c, k)
  {
  }

  function TokenAt(argv: seq<Token>, i: int): Option<Token> {
    if 0 <= i < |argv| then Some(argv[i]) else None
  }

  function DropT(argv: seq<Token>, i: nat): seq<Token> {
    if i <= |argv| then argv[i..] else []
  }

  /** The weight of the tokens from `i` on, each weighing its length plus
      one; splitting `--name=v` makes the tokens still to be read lighter,
      which bounds the parser's loop. */
  function Rest(ts: seq<Token>, i: nat): nat
    decreases |ts| - i
  {
    if i >= |ts| then 0 else |ts[i].text| + 1 + Rest(ts, i + 1)
  }

  lemma {:induction false} RestMono(ts: seq<Token>, i: nat, j: nat)
    requires i <= j
    ensures Rest(ts, j) <= Rest(ts, i)
    ensures i < j && i < |ts| ==> Rest(ts, j) < Rest(ts, i)
    decreases j - i
  {
    if i < j && i < |ts| {
      RestMono(ts, i + 1, j);
    }
  }

  /** The weight from a cursor depends only on the tokens from there on. */
  lemma {:induction false} RestSame(a: seq<Token>, i: nat, b: seq<Token>, j: nat)
    requires i <= |a| && j <= |b| && a[i..] == b[j..]
    ensures Rest(a, i) == Rest(b, j)
    decreases |a| - i
  {
    if i < |a| {
      assert a[i] == a[i..][0] == b[j..][0] == b[j];
      assert a[i + 1..] == a[i..][1..] == b[j..][1..] == b[j + 1..];
      RestSame(a, i + 1, b, j + 1);
    }
  }

  /** `chars.split('=')[0]`: everything before the first `=`. */
  function BeforeEq(s: string): string {
    if s == [] || s[0] == '=' then [] else [s[0]] + BeforeEq(s[1..])
  }

  /** The flag name is the longest prefix without `=`: it is followed by `=`
      unless it is the whole text. */
  lemma {:induction false} BeforeEqShape(s: string)
    ensures var r := BeforeEq(s);
      && |r| <= |s| && r == s[..|r|]
      && '=' !in r
      && (|r| < |s| ==> s[|r|] == '=')
  {
    if s != [] && s[0] != '=' {
      BeforeEqShape(s[1..]);
    }
  }

  /** `chars.slice(flagName.length + 1)`: what follows the first `=`, if any. */
  function AfterEq(s: string): (r: string)
    ensures |r| < |s| || r == []
  {
    var n := |BeforeEq(s)| + 1;
    if n <= |s| then s[n..] else []
  }

  /** The index of the first flag whose long name is `name`
      (`flags.find(v => v.long == name)`). */
  function FindLong(flags: seq<Flag>, name: string): (r: Option<nat>)
    ensures r.Some? ==> r.value < |flags| && flags[r.value].long == Some(name)
  {
    if flags == [] then None
    else if flags[0].long == Some(name) then Some(0)
    else match FindLong(flags[1..], name)
      case None => None
      case Some(k) => Some(k + 1)
  }

  /** No flag before the one found, and none at all when nothing is found, has that long name. */
  lemma {:induction false} FindLongFirst(flags: seq<Flag>, name: string)
    ensures var r := FindLong(flags, name);
      forall j :: 0 <= j < |flags| && (r.None? || j < r.value) ==> flags[j].long != Some(name)
  {
    if flags != [] && flags[0].long != Some(name) {
      FindLongFirst(flags[1..], name);
    }
  }

  /** Whether `c` is the first character of the flag's short name. */
  predicate ShortIs(f: Flag, c: char) {
    f.short.Some? && |f.short.value| > 0 && f.short.value[0] == c
  }

  /** The index of the first flag whose short name starts with `c`. */
  function FindShort(flags: seq<Flag>, c: char): (r: Option<nat>)
    ensures r.Some? ==> r.value < |flags| && ShortIs(flags[r.value], c)
  {
    if flags == [] then None
    else if ShortIs(flags[0], c) then Some(0)
    else match FindShort(flags[1..], c)
      case None => None
      case Some(k) => Some(k + 1)
  }

  /** No flag before the one found, and none at all when nothing is found, has a short name starting with `c`. */
  lemma {:induction false} FindShortFirst(flags: seq<Flag>, c: char)
    ensures var r := FindShort(flags, c);
      forall j :: 0 <= j < |flags| && (r.None? || j < r.value) ==> !ShortIs(flags[j], c)
  {
    if flags != [] && !ShortIs(flags[0], c) {
      FindShortFirst(flags[1..], c);
    }
  }

  /** Whether the sub-command is called by `text`, by name or alias. */
  predicate SubNamed(s: Sub, text: string) {
    s.name == text || text in s.aliases
  }

  /** The index of the first named sub-command called by `text`. */
  function FindNamedSub(subs: seq<Sub>, text: string): (r: Option<nat>)
    ensures r.Some? ==> r.value < |subs| && subs[r.value].name != [] && SubNamed(subs[r.value], text)
  {
    if subs == [] then None
    else if subs[0].name != [] && SubNamed(subs[0], text) then Some(0)
    else match FindNamedSub(subs[1..], text)
      case None => None
      case Some(k) => Some(k + 1)
  }

  /** No named sub-command before the one found, and none at all when nothing is found, is called by `text`. */
  lemma {:induction false} FindNamedSubFirst(subs: seq<Sub>, text: string)
    ensures var r := FindNamedSub(subs, text);
      forall j :: 0 <= j < |subs| && (r.None? || j < r.value) && subs[j].name != [] ==> !SubNamed(subs[j], text)
  {
    if subs != [] && !(subs[0].name != [] && SubNamed(subs[0], text)) {
      FindNamedSubFirst(subs[1..], text);
    }
  }

  /** The indices of the unnamed sub-commands among the first `n`, in declaration order. */
  function Unnamed(subs: seq<Sub>, n: nat): (r: seq<nat>)
    requires n <= |subs|
    ensures forall k :: 0 <= k < |r| ==> r[k] < n && subs[r[k]].name == []
    ensures forall i :: 0 <= i < n && subs[i].name == [] ==> i in r
    ensures forall k, l :: 0 <= k < l < |r| ==> r[k] < r[l]
  {
    if n == 0 then []
    else Unnamed(subs, n - 1) + (if subs[n - 1].name == [] then [n - 1] else [])
  }

  // ---------------------------------------------------------------------------
  // processArg

  const NotCallable := "internal error: type parser of argument is not callable"
  const TracePrefix := "internal error: exception encountered with trace stack:\n"

  /** `processArg(idx, argDef, result)`: runs the argument's type parser on the
      tokens from `idx` and stores the value under the argument's `dest`. */
  function ArgStep(env: Env, argv: seq<Token>, idx: nat, a: Arg, result: ParseResult): (r: Result<Progress, Failure>)
    ensures r.Ok? ==> r.value.idx > idx && Extends(result, r.value.result, {a.dest}) && a.dest in r.value.result
    ensures r.Err? ==> r.error.Syntax? && r.error.error.command == env.cmd
    ensures (a.typ.Named? && a.typ.name !in env.parsers) ==>
      r == Err(Syntax(CommandError(NotCallable, TokenAt(argv, idx), env.cmd, None, None)))
  {
    var parser := match a.typ
      case Named(n) => if n in env.parsers then Some(env.parsers[n]) else None
      case Inline(p) => Some(p);
    if parser.None? then
      Err(Syntax(CommandError(NotCallable, TokenAt(argv, idx), env.cmd, None, None)))
    else
      match parser.value(DropT(argv, idx))
      case Parsed(v, step) => Ok(Progress(idx + (if step == 0 then 1 else step), result[a.dest := v]))
      case Raised(e) => Err(Syntax(e.(command := env.cmd)))
      case Crashed(trace) => Err(Syntax(CommandError(TracePrefix + trace, None, env.cmd, None, None)))
  }

  // ---------------------------------------------------------------------------
  // Flags

  /** The loop over a short-flag cluster `chars`, from its `k`-th character:
      each character must be the first character of some flag's short name,
      whose `dest` is set; an `=` after a flag that takes arguments ends the
      cluster. The result is the last flag matched. */
  function Cluster(env: Env, arg: Token, flags: seq<Flag>, chars: string, k: nat, current: Option<nat>,
                   result: ParseResult): (r: Result<(Option<nat>, ParseResult), Failure>)
    requires current.Some? ==> current.value < |flags|
    decreases |chars| - k
  {
    if k >= |chars| then Ok((current, result))
    else
      var f := chars[k];
      if current.Some? && |flags[current.value].args| > 0 && f == '=' then Ok((current, result))
      else
        match FindShort(flags, f)
        case None =>
          Err(Syntax(CommandError("unknown flag: -" + [f], Some(arg), env.cmd, Some(k + 1), Some(|arg.text| - (k + 1) - 1))))
        case Some(fl) =>
          Cluster(env, arg, flags, chars, k + 1, Some(fl), result[flags[fl].dest := Bool(true)])
  }

  /** A cluster writes only flags' keys, ends on a flag of the list (or on
      `current` when there is nothing left to read), and fails only with a
      `CommandError` of this command line. */
  lemma {:induction false} ClusterFacts(env: Env, arg: Token, flags: seq<Flag>, chars: string, k: nat,
                                        current: Option<nat>, result: ParseResult)
    requires current.Some? ==> current.value < |flags|
    ensures var r := Cluster(env, arg, flags, chars, k, current, result);
      && (r.Ok? ==> Extends(result, r.value.1, FlagDests(flags)))
      && (r.Ok? ==> (r.value.0.Some? && r.value.0.value < |flags|) || (k >= |chars| && r.value.0 == current))
      && (r.Err? ==> r.error.Syntax? && r.error.error.command == env.cmd)
    decreases |chars| - k
  {
    if k < |chars| {
      var f := chars[k];
      if !(current.Some? && |flags[current.value].args| > 0 && f == '=') {
        match FindShort(flags, f)
        case None =>
        case Some(fl) =>
          var next := result[flags[fl].dest := Bool(true)];
          ClusterFacts(env, arg, flags, chars, k + 1, Some(fl), next);
          assert flags[fl].dest in FlagDests(flags);
          var r := Cluster(env, arg, flags, chars, k + 1, Some(fl), next);
          if r.Ok? {
            ExtendsTrans(result, next, r.value.1, FlagDests(flags), FlagDests(flags), FlagDests(flags));
          }
      }
    }
  }

  const MoreArgs := "option requires more arguments"

  /** The error thrown when a flag's argument is missing at the end of input. */
  function EndError(env: Env, message: string): CommandError {
    CommandError(message, Some(Token([], |env.cmd|, |env.cmd|, false)), env.cmd, None, None)
  }

  /** The loop over a flag's argument definitions from the `j`-th, with `idx`
      on the last token consumed so far and `err` the failure that stopped
      parsing, if any. Once parsing stops, each later argument takes its
      default, unless it is required, or it is the first one and the flag was
      written `--name=value`, in which case the first failure is thrown. */
  function FlagArgs(env: Env, argv: seq<Token>, args: seq<Arg>, fromEqual: bool, j: nat, idx: nat,
                    err: Option<Failure>, result: ParseResult): Result<Progress, Failure>
    decreases |args| - j
  {
    if j >= |args| then Ok(Progress(idx, result))
    else
      var a := args[j];
      var stop := a.required || (j == 0 && fromEqual);
      if err.None? then
        match ArgStep(env, argv, idx + 1, a, result)
        case Ok(p) => FlagArgs(env, argv, args, fromEqual, j + 1, p.idx - 1, None, p.result)
        case Err(e) =>
          var e' := if |argv| <= idx + 1 then Syntax(EndError(env, MoreArgs)) else e;
          if stop then Err(e')
          else FlagArgs(env, argv, args, fromEqual, j + 1, idx, Some(e'), result[a.dest := a.default])
      else if stop then Err(err.value)
      else FlagArgs(env, argv, args, fromEqual, j + 1, idx, err, result[a.dest := a.default])
  }

  /** A flag's arguments move the cursor forward only (not at all once one
      has failed), write only the arguments' keys, and fail only with a
      `CommandError` of this command line. */
  lemma {:induction false} FlagArgsFacts(env: Env, argv: seq<Token>, args: seq<Arg>, fromEqual: bool, j: nat,
                                         idx: nat, err: Option<Failure>, result: ParseResult)
    requires err.Some? ==> err.value.Syntax? && err.value.error.command == env.cmd
    ensures var r := FlagArgs(env, argv, args, fromEqual, j, idx, err, result);
      && (r.Ok? ==> r.value.idx >= idx && Extends(result, r.value.result, ArgDests(args)))
      && (r.Ok? && err.Some? ==> r.value.idx == idx)
      && (r.Err? ==> r.error.Syntax? && r.error.error.command == env.cmd)
    decreases |args| - j
  {
    if j < |args| {
      var a := args[j];
      assert a.dest in ArgDests(args);
      var next := result[a.dest := a.default];
      if err.None? {
        match ArgStep(env, argv, idx + 1, a, result)
        case Ok(p) =>
          FlagArgsFacts(env, argv, args, fromEqual, j + 1, p.idx - 1, None, p.result);
          var r := FlagArgs(env, argv, args, fromEqual, j + 1, p.idx - 1, None, p.result);
          if r.Ok? {
            ExtendsTrans(result, p.result, r.value.result, {a.dest}, ArgDests(args), ArgDests(args));
          }
        case Err(e) =>
          var e' := if |argv| <= idx + 1 then Syntax(EndError(env, MoreArgs)) else e;
          FlagArgsFacts(env, argv, args, fromEqual, j + 1, idx, Some(e'), next);
          var r := FlagArgs(env, argv, args, fromEqual, j + 1, idx, Some(e'), next);
          if r.Ok? {
            ExtendsTrans(result, next, r.value.result, {a.dest}, ArgDests(args), ArgDests(args));
          }
      } else {
        FlagArgsFacts(env, argv, args, fromEqual, j + 1, idx, err, next);
        var r := FlagArgs(env, argv, args, fromEqual, j + 1, idx, err, next);
        if r.Ok? {
          ExtendsTrans(result, next, r.value.result, {a.dest}, ArgDests(args), ArgDests(args));
        }
      }
    }
  }

  /** On success every argument from `j` on has a value, parsed or default. */
  lemma {:induction false} FlagArgsPresent(env: Env, argv: seq<Token>, args: seq<Arg>, fromEqual: bool, j: nat,
                                           idx: nat, err: Option<Failure>, result: ParseResult)
    requires err.Some? ==> err.value.Syntax? && err.value.error.command == env.cmd
    ensures var r := FlagArgs(env, argv, args, fromEqual, j, idx, err, result);
      r.Ok? ==> forall i :: j <= i < |args| ==> args[i].dest in r.value.result
    decreases |args| - j
  {
    if j < |args| {
      var a := args[j];
      var next := result[a.dest := a.default];
      if err.None? {
        match ArgStep(env, argv, idx + 1, a, result)
        case Ok(p) =>
          FlagArgsPresent(env, argv, args, fromEqual, j + 1, p.idx - 1, None, p.result);
          FlagArgsFacts(env, argv, args, fromEqual, j + 1, p.idx - 1, None, p.result);
        case Err(e) =>
          var e' := if |argv| <= idx + 1 then Syntax(EndError(env, MoreArgs)) else e;
          FlagArgsPresent(env, argv, args, fromEqual, j + 1, idx, Some(e'), next);
          FlagArgsFacts(env, argv, args, fromEqual, j + 1, idx, Some(e'), next);
      } else {
        FlagArgsPresent(env, argv, args, fromEqual, j + 1, idx, err, next);
        FlagArgsFacts(env, argv, args, fromEqual, j + 1, idx, err, next);
      }
    }
  }


  /** The argument vector after `--name=value` (or `-abc=value`) is split:
      the flag token loses `value` and the `=` from its span, and `value`
      becomes an unquoted token right after it; with nothing after `=`, only
      the span changes. */
  function SplitEqual(argv: seq<Token>, idx: nat, flagName: string, chars: string, equalArg: string): seq<Token>
    requires idx < |argv|
  {
    var arg := argv[idx];
    var end := arg.end - (|equalArg| + 2);
    var argv1 := argv[idx := arg.(end := end)];
    if equalArg == [] then argv1
    else argv1[..idx + 1] + [Token(equalArg, arg.start + |flagName| + 2, end + |chars|, false)] + argv1[idx + 1..]
  }

  /** The split keeps every token before the flag and after it, and the flag's
      text; what follows `=` becomes an unquoted token of its own. */
  lemma SplitEqualShape(argv: seq<Token>, idx: nat, flagName: string, chars: string, equalArg: string)
    requires idx < |argv|
    ensures var r := SplitEqual(argv, idx, flagName, chars, equalArg);
      && |r| == |argv| + (if equalArg == [] then 0 else 1)
      && r[..idx] == argv[..idx]
      && r[idx].text == argv[idx].text
      && (equalArg != [] ==> r[idx + 1].text == equalArg && !r[idx + 1].quoted && r[idx + 2..] == argv[idx + 1..])
      && (equalArg == [] ==> r[idx + 1..] == argv[idx + 1..])
  {
  }

  /** Whether a token is read as a flag while flags are still on. */
  predicate IsFlagText(t: Token) {
    !t.quoted && |t.text| > 0 && t.text[0] == '-'
  }

  /** `arg.text[1] != '-'`: one leading dash (or a lone `-`). */
  predicate IsShortText(t: string) {
    |t| < 2 || t[1] != '-'
  }

  /** The flag token's text without its leading dash or dashes. */
  function FlagChars(t: string): (r: string)
    requires |t| > 0
    ensures |r| < |t|
  {
    if IsShortText(t) then t[1..] else t[2..]
  }

  /** The text of the runtime's own exception when a flag is found but its
      definition is missing. Only its kind matters: it is not a
      `CommandError`, so callers see it as a fault. The wording is one
      engine's and stands for whatever the host's engine says. */
  const TypeErrorArgs := "TypeError: Cannot read properties of undefined (reading 'args')"

  /** Which flag a flag token names (lines 84-132): a long flag whose name
      is the text before any `=`, whatever the number of dashes; otherwise,
      with two dashes, an `unrecognized option` error; otherwise the short
      cluster. The result is the flag the token ends on, if any, and the map
      with the cluster's flags set. */
  function FlagScan(env: Env, flags: seq<Flag>, arg: Token, result: ParseResult)
    : (r: Result<(Option<nat>, ParseResult), Failure>)
    requires |arg.text| > 0
    ensures r.Ok? ==> Extends(result, r.value.1, FlagDests(flags))
    ensures r.Ok? && r.value.0.Some? ==> r.value.0.value < |flags|
    ensures r.Err? ==> r.error.Syntax? && r.error.error.command == env.cmd
  {
    var chars := FlagChars(arg.text);
    var flagName := BeforeEq(chars);
    match FindLong(flags, flagName)
    case Some(i) => Ok((Some(i), result))
    case None =>
      if !IsShortText(arg.text) then
        Err(Syntax(CommandError("unrecognized option: --" + flagName, Some(arg), env.cmd, Some(2),
                                Some(if flagName != chars then |AfterEq(chars)| + 1 else 0))))
      else
        ClusterFacts(env, arg, flags, chars, 0, None, result);
        Cluster(env, arg, flags, chars, 0, None, result)
  }

  /** The error for `--name=...` when the long flag takes no argument: the
      offending token is the next one when nothing follows `=`. */
  function NoArgument(env: Env, argv: seq<Token>, idx: nat, flagName: string, equalArg: string): CommandError
    requires idx < |argv|
  {
    if equalArg == [] then
      CommandError("option does not need any argument: " + flagName, TokenAt(argv, idx + 1), env.cmd, Some(0), None)
    else
      CommandError("option does not need any argument: " + flagName, Some(argv[idx]), env.cmd, Some(|flagName| + 3), None)
  }

  /** The loop over the remaining positional arguments once input has run
      out (lines 283-303): a required one is an `unexpected end of input`,
      the others take their defaults. */
  function Defaults(env: Env, args: seq<Arg>, k: nat, result: ParseResult): (r: Result<ParseResult, Failure>)
    ensures r.Ok? ==> Extends(result, r.value, ArgDests(args))
    ensures r.Ok? ==> forall i :: k <= i < |args| ==> args[i].dest in r.value
    ensures r.Err? ==> r == Err(Syntax(EndError(env, "unexpected end of input")))
    decreases |args| - k
  {
    if k >= |args| then Ok(result)
    else if args[k].required then Err(Syntax(EndError(env, "unexpected end of input")))
    else Defaults(env, args, k + 1, result[args[k].dest := args[k].default])
  }

  /** The end of a frame whose loop ran out of input (lines 283-308). */
  function Finish(env: Env, cmdDef: Sub, argIdx: nat, idx: nat, result: ParseResult): (r: Result<Progress, Failure>)
    ensures r.Ok? ==> r.value.idx == idx && Extends(result, r.value.result, {cmdDef.dest} + ArgDests(cmdDef.args))
    ensures r.Ok? ==> cmdDef.dest in r.value.result && r.value.result[cmdDef.dest] == Bool(true)
    ensures r.Ok? ==> forall i :: argIdx <= i < |cmdDef.args| ==> cmdDef.args[i].dest in r.value.result
    ensures r.Err? ==> r.error.Syntax? && r.error.error.command == env.cmd
  {
    match Defaults(env, cmdDef.args, argIdx, result)
    case Ok(res) => Ok(Progress(idx, res[cmdDef.dest := Bool(true)]))
    case Err(e) => Err(e)
  }

  // ---------------------------------------------------------------------------
  // Lemmas about the pure steps

  /** Splitting off `=value` leaves the tokens after the flag lighter than the
      tokens from the flag on. */
  lemma SplitLighter(argv: seq<Token>, idx: nat, flagName: string, chars: string, equalArg: string)
    requires idx < |argv| && |equalArg| < |argv[idx].text|
    ensures Rest(SplitEqual(argv, idx, flagName, chars, equalArg), idx + 1) < Rest(argv, idx)
  {
    var r := SplitEqual(argv, idx, flagName, chars, equalArg);
    SplitEqualShape(argv, idx, flagName, chars, equalArg);
    if equalArg == [] {
      RestSame(r, idx + 1, argv, idx + 1);
    } else {
      assert r[idx + 2..] == argv[idx + 1..];
      RestSame(r, idx + 2, argv, idx + 1);
    }
  }

  lemma FlagDestsOf(flags: seq<Flag>, i: nat)
    requires i < |flags|
    ensures flags[i].dest in FlagDests(flags) && ArgDests(flags[i].args) <= FlagDests(flags)
  {
    forall d | d in ArgDests(flags[i].args) ensures d in FlagDests(flags) {
      var j :| 0 <= j < |flags[i].args| && flags[i].args[j].dest == d;
    }
  }

  /** Past the first argument, whether the flag was written `--name=value`
      no longer matters. */
  lemma {:induction false} FlagArgsLater(env: Env, argv: seq<Token>, args: seq<Arg>, j: nat, idx: nat,
                                         err: Option<Failure>, result: ParseResult)
    requires j >= 1
    ensures FlagArgs(env, argv, args, true, j, idx, err, result) == FlagArgs(env, argv, args, false, j, idx, err, result)
    decreases |args| - j
  {
    if j < |args| {
      var a := args[j];
      if err.None? {
        match ArgStep(env, argv, idx + 1, a, result)
        case Ok(p) =>
          FlagArgsLater(env, argv, args, j + 1, p.idx - 1, None, p.result);
        case Err(e) =>
          var e' := if |argv| <= idx + 1 then Syntax(EndError(env, MoreArgs)) else e;
          FlagArgsLater(env, argv, args, j + 1, idx, Some(e'), result[a.dest := a.default]);
      } else {
        FlagArgsLater(env, argv, args, j + 1, idx, err, result[a.dest := a.default]);
      }
    }
  }

  /** `--name=value` succeeds only as `--name value` would, with the same
      result: the `=` form only adds that a failing first argument is fatal. */
  lemma EqualFormAgrees(env: Env, argv: seq<Token>, args: seq<Arg>, idx: nat, result: ParseResult)
    requires FlagArgs(env, argv, args, true, 0, idx, None, result).Ok?
    ensures FlagArgs(env, argv, args, false, 0, idx, None, result) == FlagArgs(env, argv, args, true, 0, idx, None, result)
  {
    if |args| > 0 {
      match ArgStep(env, argv, idx + 1, args[0], result)
      case Ok(p) =>
        FlagArgsLater(env, argv, args, 1, p.idx - 1, None, p.result);
      case Err(e) =>
    }
  }

  /** A cluster without `=` succeeds exactly when every character is the
      first character of some flag's short name ... */
  lemma {:induction false} ClusterNoEqual(env: Env, arg: Token, flags: seq<Flag>, chars: string, k: nat,
                                          current: Option<nat>, result: ParseResult)
    requires k <= |chars|
    requires current.Some? ==> current.value < |flags|
    requires forall j :: k <= j < |chars| ==> chars[j] != '='
    ensures Cluster(env, arg, flags, chars, k, current, result).Ok?
        <==> forall j :: k <= j < |chars| ==> FindShort(flags, chars[j]).Some?
    decreases |chars| - k
  {
    if k < |chars| {
      match FindShort(flags, chars[k])
      case None =>
      case Some(fl) =>
        ClusterNoEqual(env, arg, flags, chars, k + 1, Some(fl), result[flags[fl].dest := Bool(true)]);
    }
  }

  /** ... and then every one of them is set to true. */
  lemma {:induction false} ClusterMarks(env: Env, arg: Token, flags: seq<Flag>, chars: string, k: nat,
                                        current: Option<nat>, result: ParseResult)
    requires k <= |chars|
    requires current.Some? ==> current.value < |flags|
    requires forall j :: k <= j < |chars| ==> chars[j] != '='
    ensures var r := Cluster(env, arg, flags, chars, k, current, result);
      r.Ok? ==> forall j :: k <= j < |chars| ==>
        && FindShort(flags, chars[j]).Some?
        && flags[FindShort(flags, chars[j]).value].dest in r.value.1
        && r.value.1[flags[FindShort(flags, chars[j]).value].dest] == Bool(true)
    decreases |chars| - k
  {
    if k < |chars| {
      match FindShort(flags, chars[k])
      case None =>
      case Some(fl) =>
        var next := result[flags[fl].dest := Bool(true)];
        ClusterMarks(env, arg, flags, chars, k + 1, Some(fl), next);
        ClusterKeeps(env, arg, flags, chars, k + 1, Some(fl), next, flags[fl].dest);
    }
  }

  /** ... and otherwise the error names the first character that is not one,
      with its offsets in the token. */
  lemma {:induction false} ClusterUnknown(env: Env, arg: Token, flags: seq<Flag>, chars: string, k: nat,
                                          current: Option<nat>, result: ParseResult)
      returns (j: nat)
    requires k <= |chars|
    requires current.Some? ==> current.value < |flags|
    requires forall i :: k <= i < |chars| ==> chars[i] != '='
    requires Cluster(env, arg, flags, chars, k, current, result).Err?
    ensures k <= j < |chars| && FindShort(flags, chars[j]).None?
    ensures forall i :: k <= i < j ==> FindShort(flags, chars[i]).Some?
    ensures Cluster(env, arg, flags, chars, k, current, result)
         == Err(Syntax(CommandError("unknown flag: -" + [chars[j]], Some(arg), env.cmd, Some(j + 1),
                                    Some(|arg.text| - (j + 1) - 1))))
    decreases |chars| - k
  {
    match FindShort(flags, chars[k])
    case None =>
      j := k;
    case Some(fl) =>
      j := ClusterUnknown(env, arg, flags, chars, k + 1, Some(fl), result[flags[fl].dest := Bool(true)]);
  }

  lemma {:induction false} ClusterKeeps(env: Env, arg: Token, flags: seq<Flag>, chars: string, k: nat,
                                        current: Option<nat>, result: ParseResult, key: string)
    requires current.Some? ==> current.value < |flags|
    requires key in result && result[key] == Bool(true)
    ensures var r := Cluster(env, arg, flags, chars, k, current, result);
      r.Ok? ==> key in r.value.1 && r.value.1[key] == Bool(true)
    decreases |chars| - k
  {
    if k < |chars| {
      var f := chars[k];
      if !(current.Some? && |flags[current.value].args| > 0 && f == '=') {
        match FindShort(flags, f)
        case None =>
        case Some(fl) =>
          ClusterKeeps(env, arg, flags, chars, k + 1, Some(fl), result[flags[fl].dest := Bool(true)], key);
      }
    }
  }

  /** The trailing defaults fail exactly when a remaining argument is required. */
  lemma {:induction false} DefaultsFail(env: Env, args: seq<Arg>, k: nat, result: ParseResult)
    ensures Defaults(env, args, k, result).Err? <==> exists i :: k <= i < |args| && args[i].required
    decreases |args| - k
  {
    if k < |args| && !args[k].required {
      DefaultsFail(env, args, k + 1, result[args[k].dest := args[k].default]);
    }
  }

  lemma MergeExtends(result: ParseResult, sub: ParseResult, keys: set<string>)
    requires sub.Keys <= keys
    ensures Extends(result, result + sub, keys)
  {
  }

  // ---------------------------------------------------------------------------
  // The parse as a function of its inputs

  /** A parse from some point on: its outcome, and the argument vector and
      the flag switch as it leaves them. */
  datatype Run = Run(r: Result<Progress, Failure>, argv: seq<Token>, useFlags: bool)

  /** A flag's arguments, if it has any, and then its `dest` (lines 166-207),
      with `idx` on the flag token. */
  function Completed(env: Env, argv: seq<Token>, idx: nat, flag: Flag, fromEqual: bool, result1: ParseResult)
    : Result<Progress, Failure>
  {
    if |flag.args| > 0 then
      match FlagArgs(env, argv, flag.args, fromEqual, 0, idx, None, result1)
      case Ok(p) => Ok(Progress(p.idx, p.result[flag.dest := Bool(true)]))
      case Err(e) => Err(e)
    else Ok(Progress(idx, result1[flag.dest := Bool(true)]))
  }

  /** On success a flag's cursor has not moved back, only the flag's own key
      and its arguments' keys are written, its `dest` is true and each of its
      arguments has a value; failures are errors of this command line. */
  lemma CompletedFacts(env: Env, argv: seq<Token>, idx: nat, flag: Flag, fromEqual: bool, result1: ParseResult)
    ensures var r := Completed(env, argv, idx, flag, fromEqual, result1);
      && (r.Ok? ==> r.value.idx >= idx && Extends(result1, r.value.result, {flag.dest} + ArgDests(flag.args)))
      && (r.Ok? ==> flag.dest in r.value.result && r.value.result[flag.dest] == Bool(true))
      && (r.Ok? ==> forall i :: 0 <= i < |flag.args| ==> flag.args[i].dest in r.value.result)
      && (r.Err? ==> r.error.Syntax? && r.error.error.command == env.cmd)
  {
    if |flag.args| > 0 {
      FlagArgsFacts(env, argv, flag.args, fromEqual, 0, idx, None, result1);
      FlagArgsPresent(env, argv, flag.args, fromEqual, 0, idx, None, result1);
    }
  }

  /** The flag token at `idx` once it is known to name `flag`, a long flag
      when `isLong` (lines 134-207): the outcome and the argument vector,
      which `--name=value` splits. */
  function NamedRun(env: Env, argv: seq<Token>, idx: nat, flag: Flag, isLong: bool, result1: ParseResult)
    : (Result<Progress, Failure>, seq<Token>)
    requires idx < |argv| && |argv[idx].text| > 0
  {
    var chars := FlagChars(argv[idx].text);
    var flagName := BeforeEq(chars);
    if chars != flagName && |flag.args| == 0 && isLong then
      (Err(Syntax(NoArgument(env, argv, idx, flagName, AfterEq(chars)))), argv)
    else
      var argv2 := if chars != flagName then SplitEqual(argv, idx, flagName, chars, AfterEq(chars)) else argv;
      (Completed(env, argv2, idx, flag, chars != flagName, result1), argv2)
  }

  /** On success a named flag leaves the cursor on the last token it read,
      and the tokens after it weigh less than the tokens from the flag on
      did, so the frame's loop terminates. */
  lemma NamedRunLighter(env: Env, argv: seq<Token>, idx: nat, flag: Flag, isLong: bool, result1: ParseResult)
    requires idx < |argv| && |argv[idx].text| > 0
    ensures var r := NamedRun(env, argv, idx, flag, isLong, result1);
      r.0.Ok? ==> idx <= r.0.value.idx && Rest(r.1, r.0.value.idx + 1) < Rest(argv, idx)
  {
    var chars := FlagChars(argv[idx].text);
    var flagName := BeforeEq(chars);
    if !(chars != flagName && |flag.args| == 0 && isLong) {
      var argv2 := if chars != flagName then SplitEqual(argv, idx, flagName, chars, AfterEq(chars)) else argv;
      SplitLighterIf(argv, idx, flagName, chars, AfterEq(chars), argv2);
      var c := Completed(env, argv2, idx, flag, chars != flagName, result1);
      CompletedFacts(env, argv2, idx, flag, chars != flagName, result1);
      assert NamedRun(env, argv, idx, flag, isLong, result1) == (c, argv2);
      if c.Ok? {
        Lighter(argv, argv2, idx, c.value.idx);
      }
    }
  }

  /** A cursor at or after `idx + 1` in the rewritten vector leaves less to
      read than `idx` in the original one, when the rewrite made it so. */
  lemma Lighter(argv: seq<Token>, argv2: seq<Token>, idx: nat, j: nat)
    requires idx <= j && Rest(argv2, idx + 1) < Rest(argv, idx)
    ensures Rest(argv2, j + 1) < Rest(argv, idx)
  {
    RestMono(argv2, idx + 1, j + 1);
  }

  /** A flag token other than `--` (lines 84-207): `FlagScan` names the
      flag, a scan ending on no flag (a lone `-`) fails with a `TypeError`,
      and `NamedRun` goes on from the map the scan left. */
  function FlagRun(env: Env, argv: seq<Token>, idx: nat, flags: seq<Flag>, result: ParseResult)
    : (Result<Progress, Failure>, seq<Token>)
    requires idx < |argv| && IsFlagText(argv[idx])
  {
    var arg := argv[idx];
    var scan := FlagScan(env, flags, arg, result);
    if scan.Err? then (Err(scan.error), argv)
    else if scan.value.0.None? then (Err(Fault(TypeErrorArgs)), argv)
    else
      var current, result1 := scan.value.0.value, scan.value.1;
      var isLong := FindLong(flags, BeforeEq(FlagChars(arg.text))).Some?;
      NamedRun(env, argv, idx, flags[current], isLong, result1)
  }

  /** On success a flag token leaves the cursor on the last token it read,
      and the tokens after it weigh less than the tokens from the flag on
      did. */
  lemma FlagRunLighter(env: Env, argv: seq<Token>, idx: nat, flags: seq<Flag>, result: ParseResult)
    requires idx < |argv| && IsFlagText(argv[idx])
    ensures var r := FlagRun(env, argv, idx, flags, result);
      r.0.Ok? ==> idx <= r.0.value.idx && Rest(r.1, r.0.value.idx + 1) < Rest(argv, idx)
  {
    var arg := argv[idx];
    var scan := FlagScan(env, flags, arg, result);
    if scan.Ok? && scan.value.0.Some? {
      var isLong := FindLong(flags, BeforeEq(FlagChars(arg.text))).Some?;
      NamedRunLighter(env, argv, idx, flags[scan.value.0.value], isLong, scan.value.1);
      assert FlagRun(env, argv, idx, flags, result) == NamedRun(env, argv, idx, flags[scan.value.0.value], isLong, scan.value.1);
    }
  }

  /** `processCmd`'s loop (lines 72-308) from the token at `idx`, with the
      first `argIdx` positional arguments of `cmdDef` read into `result`: a
      bare `--` turns flags off, another flag token is read by `FlagRun`,
      the next positional argument by `ArgStep`, and a token after the last
      argument goes to a sub-command (`SubRun`), which ends the frame. Out
      of tokens, the frame ends with `Finish`. */
  function Process(env: Env, argv: seq<Token>, useFlags: bool, idx: nat, argIdx: nat, cmdDef: Sub,
                   result: ParseResult): Run
    requires argIdx <= |cmdDef.args|
    decreases cmdDef, 3, Rest(argv, idx)
  {
    if idx >= |argv| then Run(Finish(env, cmdDef, argIdx, idx, result), argv, useFlags)
    else if useFlags && IsFlagText(argv[idx]) then
      if argv[idx].text == "--" then
        RestMono(argv, idx, idx + 1);
        Process(env, argv, false, idx + 1, argIdx, cmdDef, result)
      else
        var f := FlagRun(env, argv, idx, cmdDef.flags, result);
        FlagRunLighter(env, argv, idx, cmdDef.flags, result);
        match f.0
        case Err(e) => Run(Err(e), f.1, useFlags)
        case Ok(p) => Process(env, f.1, useFlags, p.idx + 1, argIdx, cmdDef, p.result)
    else if argIdx == |cmdDef.args| then SubRun(env, argv, useFlags, idx, cmdDef, result)
    else
      match ArgStep(env, argv, idx, cmdDef.args[argIdx], result)
      case Err(e) => Run(Err(e), argv, useFlags)
      case Ok(p) =>
        RestMono(argv, idx, p.idx);
        Process(env, argv, useFlags, p.idx, argIdx + 1, cmdDef, p.result)
  }

  /** The token at `idx` after the last positional argument (lines 211-279):
      the sub-command it leads to runs to the end of the tokens, and the
      frame's own `dest` is then set. */
  function SubRun(env: Env, argv: seq<Token>, useFlags: bool, idx: nat, cmdDef: Sub, result: ParseResult): Run
    requires idx < |argv|
    decreases cmdDef, 2
  {
    var d := Dispatch(env, argv, useFlags, idx, cmdDef, result);
    match d.r
    case Ok(p) => Run(Ok(Progress(p.idx, p.result[cmdDef.dest := Bool(true)])), d.argv, d.useFlags)
    case Err(_) => d
  }

  /** The sub-command dispatch of lines 213-276: with no sub-commands the
      token is one too many; a sub-command named by the token runs from the
      next token on, into the frame's map; otherwise the unnamed ones are
      tried (`Attempts`), and with none of those the token is unknown. */
  function Dispatch(env: Env, argv: seq<Token>, useFlags: bool, idx: nat, cmdDef: Sub, result: ParseResult): Run
    requires idx < |argv|
    decreases cmdDef, 1
  {
    var arg := argv[idx];
    if cmdDef.subs == [] then
      Run(Err(Syntax(CommandError("too many arguments", Some(arg), env.cmd, Some(0), Some(-|env.cmd|)))), argv, useFlags)
    else match FindNamedSub(cmdDef.subs, arg.text)
      case Some(i) => Process(env, argv, useFlags, idx + 1, 0, cmdDef.subs[i], result)
      case None =>
        var unnamed := Unnamed(cmdDef.subs, |cmdDef.subs|);
        if unnamed == [] then
          Run(Err(Syntax(CommandError("unknown sub-command: " + arg.text, Some(arg), env.cmd, None, None))), argv, useFlags)
        else Attempts(env, argv, useFlags, idx, cmdDef, unnamed, 0, None, result)
  }

  /** The unnamed sub-commands `unnamed` tried from the `k`-th on (lines
      246-271), each from the token at `idx` into a fresh map, in the state
      the attempts before it left; `first` is the error the first attempt
      threw, if one has been made. The first success is merged into the
      frame's map; when all fail, the first error is rethrown. */
  function Attempts(env: Env, argv: seq<Token>, useFlags: bool, idx: nat, cmdDef: Sub, unnamed: seq<nat>, k: nat,
                    first: Option<Failure>, result: ParseResult): Run
    requires unnamed != [] && k <= |unnamed| && (first.Some? <==> k > 0)
    requires forall j :: 0 <= j < |unnamed| ==> unnamed[j] < |cmdDef.subs|
    decreases cmdDef, 0, |unnamed| - k
  {
    if k == |unnamed| then Run(Err(first.value), argv, useFlags)
    else
      var a := Process(env, argv, useFlags, idx, 0, cmdDef.subs[unnamed[k]], map[]);
      match a.r
      case Ok(p) => Run(Ok(Progress(p.idx, result + p.result)), a.argv, a.useFlags)
      case Err(e) => Attempts(env, a.argv, a.useFlags, idx, cmdDef, unnamed, k + 1, Some(if k == 0 then e else first.value), result)
  }

  /** A named flag only lengthens the argument vector, writes only its own
      key and its arguments' keys, sets its `dest` to true, and fails only
      with errors of this command line. */
  lemma NamedRunFacts(env: Env, argv: seq<Token>, idx: nat, flag: Flag, isLong: bool, result1: ParseResult)
    requires idx < |argv| && |argv[idx].text| > 0
    ensures var r := NamedRun(env, argv, idx, flag, isLong, result1);
      && |r.1| >= |argv|
      && (r.0.Ok? ==> Extends(result1, r.0.value.result, {flag.dest} + ArgDests(flag.args)))
      && (r.0.Ok? ==> flag.dest in r.0.value.result && r.0.value.result[flag.dest] == Bool(true))
      && (r.0.Err? && r.0.error.Syntax? ==> r.0.error.error.command == env.cmd)
  {
    var chars := FlagChars(argv[idx].text);
    var flagName := BeforeEq(chars);
    SplitEqualShape(argv, idx, flagName, chars, AfterEq(chars));
    var argv2 := if chars != flagName then SplitEqual(argv, idx, flagName, chars, AfterEq(chars)) else argv;
    CompletedFacts(env, argv2, idx, flag, chars != flagName, result1);
  }

  /** A flag token only lengthens the argument vector, writes only keys of
      the flags, and fails only with errors of this command line. */
  lemma FlagRunFacts(env: Env, argv: seq<Token>, idx: nat, flags: seq<Flag>, result: ParseResult)
    requires idx < |argv| && IsFlagText(argv[idx])
    ensures var r := FlagRun(env, argv, idx, flags, result);
      && |r.1| >= |argv|
      && (r.0.Ok? ==> Extends(result, r.0.value.result, FlagDests(flags)))
      && (r.0.Err? && r.0.error.Syntax? ==> r.0.error.error.command == env.cmd)
  {
    var scan := FlagScan(env, flags, argv[idx], result);
    if scan.Ok? && scan.value.0.Some? {
      var current, result1 := scan.value.0.value, scan.value.1;
      var flag := flags[current];
      var isLong := FindLong(flags, BeforeEq(FlagChars(argv[idx].text))).Some?;
      NamedRunFacts(env, argv, idx, flag, isLong, result1);
      FlagDestsOf(flags, current);
      var n := NamedRun(env, argv, idx, flag, isLong, result1);
      if n.0.Ok? {
        ExtendsTrans(result, result1, n.0.value.result, FlagDests(flags), {flag.dest} + ArgDests(flag.args), FlagDests(flags));
      }
    }
  }

  /** The parse state a run leaves: the argument vector only grows, flags
      once off stay off, and with flags off no token is rewritten. */
  predicate Keeps(argv: seq<Token>, useFlags: bool, run: Run) {
    && |run.argv| >= |argv| && (run.useFlags ==> useFlags)
    && (!useFlags ==> run.argv == argv)
  }

  /** What a run into the map `result` gives on success: the cursor at the
      end of the tokens, and only keys of the grammar rooted at `cmdDef`
      written, only keys no flag writes when flags were off. It fails only
      with errors of this command line. */
  predicate Merged(env: Env, cmdDef: Sub, useFlags: bool, result: ParseResult, run: Run) {
    && (run.r.Ok? ==>
          && run.r.value.idx >= |run.argv|
          && Extends(result, run.r.value.result, Dests(cmdDef))
          && (!useFlags ==> Extends(result, run.r.value.result, PosDests(cmdDef))))
    && (run.r.Err? && run.r.error.Syntax? ==> run.r.error.error.command == env.cmd)
  }

  /** A frame for `cmdDef` moreover sets its own `dest` to true and leaves
      every positional argument of it with a value. */
  predicate Done(env: Env, cmdDef: Sub, useFlags: bool, result: ParseResult, run: Run) {
    && Merged(env, cmdDef, useFlags, result, run)
    && (run.r.Ok? ==>
          && cmdDef.dest in run.r.value.result && run.r.value.result[cmdDef.dest] == Bool(true)
          && forall i :: 0 <= i < |cmdDef.args| ==> cmdDef.args[i].dest in run.r.value.result)
  }

  lemma ExtendsWider(a: ParseResult, b: ParseResult, k1: set<string>, k2: set<string>)
    requires Extends(a, b, k1) && k1 <= k2
    ensures Extends(a, b, k2)
  {
  }

  /** `processCmd`'s frame: see `Done`, given the arguments already read
      have values. */
  lemma {:induction false} ProcessFacts(env: Env, argv: seq<Token>, useFlags: bool, idx: nat, argIdx: nat, cmdDef: Sub,
                                        result: ParseResult)
    requires argIdx <= |cmdDef.args|
    requires forall i :: 0 <= i < argIdx ==> cmdDef.args[i].dest in result
    ensures var run := Process(env, argv, useFlags, idx, argIdx, cmdDef, result);
      Keeps(argv, useFlags, run) && Done(env, cmdDef, useFlags, result, run)
    decreases cmdDef, 3, Rest(argv, idx), 1
  {
    if idx >= |argv| {
    } else if useFlags && IsFlagText(argv[idx]) {
      if argv[idx].text == "--" {
        RestMono(argv, idx, idx + 1);
        ProcessFacts(env, argv, false, idx + 1, argIdx, cmdDef, result);
      } else {
        FlagBranchFacts(env, argv, idx, argIdx, cmdDef, result);
      }
    } else if argIdx == |cmdDef.args| {
      SubRunFacts(env, argv, useFlags, idx, cmdDef, result);
    } else {
      ArgBranchFacts(env, argv, useFlags, idx, argIdx, cmdDef, result);
    }
  }

  /** At a flag token other than `--` the frame fails as the flag does, or
      goes on from the token after the flag's last one. */
  lemma ProcessAtFlag(env: Env, argv: seq<Token>, idx: nat, argIdx: nat, cmdDef: Sub, result: ParseResult)
    requires idx < |argv| && IsFlagText(argv[idx]) && argv[idx].text != "--"
    requires argIdx <= |cmdDef.args|
    ensures var f := FlagRun(env, argv, idx, cmdDef.flags, result);
      Process(env, argv, true, idx, argIdx, cmdDef, result)
      == if f.0.Err? then Run(Err(f.0.error), f.1, true)
         else Process(env, f.1, true, f.0.value.idx + 1, argIdx, cmdDef, f.0.value.result)
  {
  }

  /** A flag token other than `--`, and the rest of the frame after it. */
  lemma FlagBranchFacts(env: Env, argv: seq<Token>, idx: nat, argIdx: nat, cmdDef: Sub, result: ParseResult)
    requires idx < |argv| && IsFlagText(argv[idx]) && argv[idx].text != "--"
    requires argIdx <= |cmdDef.args|
    requires forall i :: 0 <= i < argIdx ==> cmdDef.args[i].dest in result
    ensures var run := Process(env, argv, true, idx, argIdx, cmdDef, result);
      Keeps(argv, true, run) && Done(env, cmdDef, true, result, run)
    decreases cmdDef, 3, Rest(argv, idx), 0
  {
    var f := FlagRun(env, argv, idx, cmdDef.flags, result);
    FlagRunFacts(env, argv, idx, cmdDef.flags, result);
    FlagRunLighter(env, argv, idx, cmdDef.flags, result);
    ProcessAtFlag(env, argv, idx, argIdx, cmdDef, result);
    var run0 := Process(env, argv, true, idx, argIdx, cmdDef, result);
    if f.0.Ok? {
      var p := f.0.value;
      var run := Process(env, f.1, true, p.idx + 1, argIdx, cmdDef, p.result);
      assert run0 == run;
      ProcessFacts(env, f.1, true, p.idx + 1, argIdx, cmdDef, p.result);
      if run.r.Ok? {
        ExtendsTrans(result, p.result, run.r.value.result, FlagDests(cmdDef.flags), Dests(cmdDef), Dests(cmdDef));
      }
    } else {
      assert run0 == Run(Err(f.0.error), f.1, true);
    }
  }

  /** The next positional argument, and the rest of the frame after it. */
  lemma ArgBranchFacts(env: Env, argv: seq<Token>, useFlags: bool, idx: nat, argIdx: nat, cmdDef: Sub,
                       result: ParseResult)
    requires idx < |argv| && !(useFlags && IsFlagText(argv[idx]))
    requires argIdx < |cmdDef.args|
    requires forall i :: 0 <= i < argIdx ==> cmdDef.args[i].dest in result
    ensures var run := Process(env, argv, useFlags, idx, argIdx, cmdDef, result);
      Keeps(argv, useFlags, run) && Done(env, cmdDef, useFlags, result, run)
    decreases cmdDef, 3, Rest(argv, idx), 0
  {
    var a := cmdDef.args[argIdx];
    var step := ArgStep(env, argv, idx, a, result);
    if step.Ok? {
      var p := step.value;
      RestMono(argv, idx, p.idx);
      assert Process(env, argv, useFlags, idx, argIdx, cmdDef, result)
          == Process(env, argv, useFlags, p.idx, argIdx + 1, cmdDef, p.result);
      assert a.dest in ArgDests(cmdDef.args);
      ProcessFacts(env, argv, useFlags, p.idx, argIdx + 1, cmdDef, p.result);
      var run := Process(env, argv, useFlags, p.idx, argIdx + 1, cmdDef, p.result);
      if run.r.Ok? {
        ExtendsTrans(result, p.result, run.r.value.result, {a.dest}, Dests(cmdDef), Dests(cmdDef));
        if !useFlags {
          ExtendsTrans(result, p.result, run.r.value.result, {a.dest}, PosDests(cmdDef), PosDests(cmdDef));
        }
      }
    }
  }

  lemma SubRunFacts(env: Env, argv: seq<Token>, useFlags: bool, idx: nat, cmdDef: Sub, result: ParseResult)
    requires idx < |argv|
    requires forall i :: 0 <= i < |cmdDef.args| ==> cmdDef.args[i].dest in result
    ensures var run := SubRun(env, argv, useFlags, idx, cmdDef, result);
      Keeps(argv, useFlags, run) && Done(env, cmdDef, useFlags, result, run)
    decreases cmdDef, 2
  {
    DispatchFacts(env, argv, useFlags, idx, cmdDef, result);
  }

  lemma DispatchFacts(env: Env, argv: seq<Token>, useFlags: bool, idx: nat, cmdDef: Sub, result: ParseResult)
    requires idx < |argv|
    ensures var run := Dispatch(env, argv, useFlags, idx, cmdDef, result);
      Keeps(argv, useFlags, run) && Merged(env, cmdDef, useFlags, result, run)
    decreases cmdDef, 1
  {
    if cmdDef.subs != [] {
      match FindNamedSub(cmdDef.subs, argv[idx].text)
      case Some(i) =>
        var sub := cmdDef.subs[i];
        ProcessFacts(env, argv, useFlags, idx + 1, 0, sub, result);
        SubDests(cmdDef, i);
        var run := Process(env, argv, useFlags, idx + 1, 0, sub, result);
        if run.r.Ok? {
          ExtendsWider(result, run.r.value.result, Dests(sub), Dests(cmdDef));
          if !useFlags {
            ExtendsWider(result, run.r.value.result, PosDests(sub), PosDests(cmdDef));
          }
        }
      case None =>
        var unnamed := Unnamed(cmdDef.subs, |cmdDef.subs|);
        if unnamed != [] {
          AttemptsFacts(env, argv, useFlags, idx, cmdDef, unnamed, 0, None, result);
        }
    }
  }

  lemma {:induction false} AttemptsFacts(env: Env, argv: seq<Token>, useFlags: bool, idx: nat, cmdDef: Sub,
                                         unnamed: seq<nat>, k: nat, first: Option<Failure>, result: ParseResult)
    requires unnamed != [] && k <= |unnamed| && (first.Some? <==> k > 0)
    requires forall j :: 0 <= j < |unnamed| ==> unnamed[j] < |cmdDef.subs|
    requires first.Some? && first.value.Syntax? ==> first.value.error.command == env.cmd
    ensures var run := Attempts(env, argv, useFlags, idx, cmdDef, unnamed, k, first, result);
      Keeps(argv, useFlags, run) && Merged(env, cmdDef, useFlags, result, run)
    decreases cmdDef, 0, |unnamed| - k, 1
  {
    if k < |unnamed| {
      var sub := cmdDef.subs[unnamed[k]];
      var a := Process(env, argv, useFlags, idx, 0, sub, map[]);
      ProcessFacts(env, argv, useFlags, idx, 0, sub, map[]);
      if a.r.Ok? {
        AttemptSucceeds(env, argv, useFlags, idx, cmdDef, unnamed, k, first, result);
      } else {
        var next := Some(if k == 0 then a.r.error else first.value);
        assert Attempts(env, argv, useFlags, idx, cmdDef, unnamed, k, first, result)
            == Attempts(env, a.argv, a.useFlags, idx, cmdDef, unnamed, k + 1, next, result);
        AttemptsFacts(env, a.argv, a.useFlags, idx, cmdDef, unnamed, k + 1, next, result);
      }
    }
  }

  /** An unnamed sub-command that succeeds is merged into the frame's map. */
  lemma AttemptSucceeds(env: Env, argv: seq<Token>, useFlags: bool, idx: nat, cmdDef: Sub,
                        unnamed: seq<nat>, k: nat, first: Option<Failure>, result: ParseResult)
    requires unnamed != [] && k < |unnamed| && (first.Some? <==> k > 0)
    requires forall j :: 0 <= j < |unnamed| ==> unnamed[j] < |cmdDef.subs|
    requires var sub := cmdDef.subs[unnamed[k]];
      var a := Process(env, argv, useFlags, idx, 0, sub, map[]);
      a.r.Ok? && Keeps(argv, useFlags, a) && Done(env, sub, useFlags, map[], a)
    ensures var run := Attempts(env, argv, useFlags, idx, cmdDef, unnamed, k, first, result);
      Keeps(argv, useFlags, run) && Merged(env, cmdDef, useFlags, result, run)
    decreases cmdDef, 0, |unnamed| - k, 0
  {
    var sub := cmdDef.subs[unnamed[k]];
    var a := Process(env, argv, useFlags, idx, 0, sub, map[]);
    SubDests(cmdDef, unnamed[k]);
    MergeExtends(result, a.r.value.result, Dests(cmdDef));
    if !useFlags {
      MergeExtends(result, a.r.value.result, PosDests(cmdDef));
    }
  }

  /** `parseCommand(info, cmd, argv)`: the parse from token 1 into an empty
      map, flags on. */
  function ParseRun(info: Sub, cmd: string, argv: seq<Token>, parsers: map<string, TypeParser>): Run {
    Process(Env(cmd, parsers), argv, true, 1, 0, info, map[])
  }

  /** When every remaining unnamed sub-command fails, the error thrown is
      the one the first attempt threw, whatever the later ones threw. */
  lemma {:induction false} FirstErrorRethrown(env: Env, argv: seq<Token>, useFlags: bool, idx: nat, cmdDef: Sub,
                                              unnamed: seq<nat>, k: nat, first: Option<Failure>, result: ParseResult)
    requires unnamed != [] && 0 < k <= |unnamed| && first.Some?
    requires forall j :: 0 <= j < |unnamed| ==> unnamed[j] < |cmdDef.subs|
    ensures var a := Attempts(env, argv, useFlags, idx, cmdDef, unnamed, k, first, result);
      a.r.Err? ==> a.r.error == first.value
    decreases |unnamed| - k
  {
    if k < |unnamed| {
      var a := Process(env, argv, useFlags, idx, 0, cmdDef.subs[unnamed[k]], map[]);
      if a.r.Err? {
        FirstErrorRethrown(env, a.argv, a.useFlags, idx, cmdDef, unnamed, k + 1, first, result);
      }
    }
  }

  /** With every unnamed sub-command failing, the dispatch throws what the
      first unnamed sub-command threw when run from the token into a fresh
      map. */
  lemma DispatchRethrowsFirst(env: Env, argv: seq<Token>, useFlags: bool, idx: nat, cmdDef: Sub, result: ParseResult)
    requires idx < |argv| && FindNamedSub(cmdDef.subs, argv[idx].text).None?
    requires Unnamed(cmdDef.subs, |cmdDef.subs|) != []
    ensures var d := Dispatch(env, argv, useFlags, idx, cmdDef, result);
      var unnamed := Unnamed(cmdDef.subs, |cmdDef.subs|);
      var a := Process(env, argv, useFlags, idx, 0, cmdDef.subs[unnamed[0]], map[]);
      d.r.Err? ==> a.r.Err? && d.r.error == a.r.error
  {
    var unnamed := Unnamed(cmdDef.subs, |cmdDef.subs|);
    var a := Process(env, argv, useFlags, idx, 0, cmdDef.subs[unnamed[0]], map[]);
    if a.r.Err? {
      FirstErrorRethrown(env, a.argv, a.useFlags, idx, cmdDef, unnamed, 1, Some(a.r.error), result);
    }
  }

  /** Where the frame's loop goes after a flag token other than `--`: it
      fails with the flag's error, or moves past the flag's last token. */
  function FlagOutcome(f: Result<Progress, Failure>, argIdx: nat): (s: Step)
    ensures s.Return? <==> f.Err?
    ensures s.Next? ==> s.argIdx == argIdx && s.idx == f.value.idx + 1 && s.result == f.value.result
  {
    if f.Err? then Return(Err(f.error)) else Next(f.value.idx + 1, argIdx, f.value.result)
  }

  /** The loop step after a flag token other than `--` agrees with
      `Process`, on fewer remaining tokens. */
  lemma FlagOutcomeRun(env: Env, argv: seq<Token>, idx: nat, argIdx: nat, cmdDef: Sub, result: ParseResult)
    requires idx < |argv| && IsFlagText(argv[idx]) && argv[idx].text != "--"
    requires argIdx <= |cmdDef.args|
    ensures var f := FlagRun(env, argv, idx, cmdDef.flags, result);
      var s := FlagOutcome(f.0, argIdx);
      && (s.Next? ==> Rest(f.1, s.idx) < Rest(argv, idx))
      && (s.Next? ==> Process(env, f.1, true, s.idx, s.argIdx, cmdDef, s.result)
                      == Process(env, argv, true, idx, argIdx, cmdDef, result))
      && (s.Return? ==> Run(s.r, f.1, true) == Process(env, argv, true, idx, argIdx, cmdDef, result))
  {
    FlagRunLighter(env, argv, idx, cmdDef.flags, result);
    ProcessAtFlag(env, argv, idx, argIdx, cmdDef, result);
  }

  // ---------------------------------------------------------------------------
  // The parser

  /** What one iteration of `processCmd`'s loop leaves: the loop goes on from
      `idx` with `argIdx` arguments read, or the frame returns. */
  datatype Step = Next(idx: nat, argIdx: nat, result: ParseResult) | Return(r: Result<Progress, Failure>)

  /** One run of `parseCommand`: the command line and the type parsers it
      reads, and the closure state its inner functions share and mutate: the
      argument vector, which `--name=value` rewrites in place, and whether
      flags are still recognised. */
  class Parser {
    const env: Env
    var argv: seq<Token>
    var useFlags: bool

    constructor (cmd: string, argv: seq<Token>, parsers: map<string, TypeParser>)
      ensures env == Env(cmd, parsers) && this.argv == argv && useFlags
    {
      env := Env(cmd, parsers);
      this.argv := argv;
      useFlags := true;
    }

    /** The short-flag loop of lines 107-131. */
    method ScanCluster(arg: Token, flags: seq<Flag>, chars: string, result: ParseResult)
      returns (r: Result<(Option<nat>, ParseResult), Failure>)
      ensures r == Cluster(env, arg, flags, chars, 0, None, result)
    {
      var current: Option<nat> := None;
      var acc := result;
      var k := 0;
      while k < |chars|
        invariant k <= |chars|
        invariant current.Some? ==> current.value < |flags|
        invariant Cluster(env, arg, flags, chars, k, current, acc) == Cluster(env, arg, flags, chars, 0, None, result)
        decreases |chars| - k
      {
        var f := chars[k];
        if current.Some? && |flags[current.value].args| > 0 && f == '=' {
          break;
        }
        var found := FindShort(flags, f);
        if found.None? {
          return Err(Syntax(CommandError("unknown flag: -" + [f], Some(arg), env.cmd, Some(k + 1),
                                         Some(|arg.text| - (k + 1) - 1))));
        }
        current := found;
        acc := acc[flags[found.value].dest := Bool(true)];
        k := k + 1;
      }
      return Ok((current, acc));
    }

    /** The flag-argument loop of lines 168-203, with `idx` on the flag token. */
    method ConsumeFlagArgs(args: seq<Arg>, fromEqual: bool, idx0: nat, result: ParseResult)
      returns (r: Result<Progress, Failure>)
      ensures r == FlagArgs(env, argv, args, fromEqual, 0, idx0, None, result)
    {
      var idx: nat := idx0;
      var acc := result;
      var err: Option<Failure> := None;
      var j := 0;
      while j < |args|
        invariant j <= |args|
        invariant FlagArgs(env, argv, args, fromEqual, j, idx, err, acc)
               == FlagArgs(env, argv, args, fromEqual, 0, idx0, None, result)
        decreases |args| - j
      {
        var a := args[j];
        if err.None? {
          var step := ArgStep(env, argv, idx + 1, a, acc);
          if step.Ok? {
            idx := step.value.idx - 1;
            acc := step.value.result;
            j := j + 1;
            continue;
          }
          err := Some(if |argv| <= idx + 1 then Syntax(EndError(env, MoreArgs)) else step.error);
        }
        if a.required || (j == 0 && fromEqual) {
          return Err(err.value);
        }
        acc := acc[a.dest := a.default];
        j := j + 1;
      }
      return Ok(Progress(idx, acc));
    }

    /** The defaults loop of lines 283-303. */
    method FillDefaults(args: seq<Arg>, k0: nat, result: ParseResult) returns (r: Result<ParseResult, Failure>)
      ensures r == Defaults(env, args, k0, result)
    {
      var acc := result;
      var k := k0;
      while k < |args|
        invariant Defaults(env, args, k, acc) == Defaults(env, args, k0, result)
        decreases |args| - k
      {
        if args[k].required {
          return Err(Syntax(EndError(env, "unexpected end of input")));
        }
        acc := acc[args[k].dest := args[k].default];
        k := k + 1;
      }
      return Ok(acc);
    }

    /** The flag lookup of lines 84-132 for the flag token `arg`: see `FlagScan`. */
    method ScanFlag(arg: Token, flags: seq<Flag>, result: ParseResult)
      returns (r: Result<(Option<nat>, ParseResult), Failure>)
      requires |arg.text| > 0
      ensures r == FlagScan(env, flags, arg, result)
    {
      var chars := FlagChars(arg.text);
      var flagName := BeforeEq(chars);
      var longFlag := FindLong(flags, flagName);
      if longFlag.Some? {
        return Ok((longFlag, result));
      }
      if !IsShortText(arg.text) {
        return Err(Syntax(CommandError("unrecognized option: --" + flagName, Some(arg), env.cmd, Some(2),
                                       Some(if flagName != chars then |AfterEq(chars)| + 1 else 0))));
      }
      r := ScanCluster(arg, flags, chars, result);
    }

    /** The flag branch of `processCmd` (lines 76-210) for the flag token at
        `idx`. A bare `--` turns flags off for the rest of the parse and is
        otherwise skipped; any other flag token is read by `FlagToken`, as
        `FlagRun` says. */
    method ProcessFlag(idx: nat, cmdDef: Sub, result: ParseResult) returns (r: Result<Progress, Failure>)
      modifies this
      requires idx < |argv| && useFlags && IsFlagText(argv[idx])
      ensures useFlags == (old(argv)[idx].text != "--")
      ensures old(argv)[idx].text == "--" ==> argv == old(argv) && r == Ok(Progress(idx, result))
      ensures old(argv)[idx].text != "--" ==> (r, argv) == FlagRun(env, old(argv), idx, cmdDef.flags, result)
    {
      var arg := argv[idx];
      if !IsShortText(arg.text) && |arg.text| == 2 {
        useFlags := false;
        return Ok(Progress(idx, result));
      }
      r := FlagToken(idx, cmdDef.flags, result);
    }

    /** A flag token other than `--` (lines 84-207): `ScanFlag` names the
        flag, and `NamedFlag` reads it from the map the scan left. */
    method FlagToken(idx: nat, flags: seq<Flag>, result: ParseResult) returns (r: Result<Progress, Failure>)
      modifies this
      requires idx < |argv| && IsFlagText(argv[idx])
      ensures useFlags == old(useFlags)
      ensures (r, argv) == FlagRun(env, old(argv), idx, flags, result)
    {
      var arg := argv[idx];
      var scan := ScanFlag(arg, flags, result);
      if scan.Err? {
        return Err(scan.error);
      }
      var current, result1 := scan.value.0, scan.value.1;
      if current.None? {
        return Err(Fault(TypeErrorArgs));
      }
      var isLong := FindLong(flags, BeforeEq(FlagChars(arg.text))).Some?;
      r := NamedFlag(idx, flags[current.value], isLong, result1);
    }

    /** The rest of the flag branch (lines 134-207) once the token at `idx`
        is known to name `flag`, a long flag when `isLong`: `--name=...` on a
        long flag without arguments is an error; otherwise `SplitFlag` cuts
        off `=value` and `CompleteFlag` processes the flag's arguments and
        `dest` from the map `result1`. */
    method NamedFlag(idx: nat, flag: Flag, isLong: bool, result1: ParseResult) returns (r: Result<Progress, Failure>)
      modifies this
      requires idx < |argv| && |argv[idx].text| > 0
      ensures useFlags == old(useFlags)
      ensures var chars := FlagChars(old(argv)[idx].text);
        var flagName := BeforeEq(chars);
        chars != flagName && |flag.args| == 0 && isLong ==>
          argv == old(argv) && r == Err(Syntax(NoArgument(env, argv, idx, flagName, AfterEq(chars))))
      ensures (r, argv) == NamedRun(env, old(argv), idx, flag, isLong, result1)
    {
      var chars := FlagChars(argv[idx].text);
      var flagName := BeforeEq(chars);
      if chars != flagName && |flag.args| == 0 && isLong {
        return Err(Syntax(NoArgument(env, argv, idx, flagName, AfterEq(chars))));
      }
      SplitFlag(idx);
      r := CompleteFlag(idx, flag, chars != flagName, result1);
    }

    /** Lines 134-164 for the flag token at `idx`: `--name=value` and
        `-xyz=value` are cut at `=`, the value becoming a token of its own
        right after the flag (none when nothing follows `=`), which makes the
        tokens after the flag lighter than the flag and what followed it. */
    method SplitFlag(idx: nat)
      modifies this
      requires idx < |argv| && |argv[idx].text| > 0
      ensures var chars := FlagChars(old(argv)[idx].text);
        var flagName := BeforeEq(chars);
        argv == (if chars != flagName then SplitEqual(old(argv), idx, flagName, chars, AfterEq(chars)) else old(argv))
      ensures |argv| >= |old(argv)| && argv[..idx] == old(argv)[..idx] && Rest(argv, idx + 1) < Rest(old(argv), idx)
      ensures useFlags == old(useFlags)
    {
      var arg := argv[idx];
      var chars := FlagChars(arg.text);
      var flagName := BeforeEq(chars);
      var equalArg := AfterEq(chars);
      if chars != flagName {
        SplitEqualShape(argv, idx, flagName, chars, equalArg);
        argv := SplitEqual(argv, idx, flagName, chars, equalArg);
      }
      SplitLighterIf(old(argv), idx, flagName, chars, equalArg, argv);
    }

    /** The flag's arguments, if it has any, then its `dest` (lines 166-207). */
    method CompleteFlag(idx: nat, flag: Flag, fromEqual: bool, result1: ParseResult) returns (r: Result<Progress, Failure>)
      ensures r.Ok? ==> r.value.idx >= idx && Extends(result1, r.value.result, {flag.dest} + ArgDests(flag.args))
      ensures r.Ok? ==> flag.dest in r.value.result && r.value.result[flag.dest] == Bool(true)
      ensures r.Ok? ==> forall i :: 0 <= i < |flag.args| ==> flag.args[i].dest in r.value.result
      ensures r.Err? ==> r.error.Syntax? && r.error.error.command == env.cmd
      ensures |flag.args| == 0 ==> r == Ok(Progress(idx, result1[flag.dest := Bool(true)]))
      ensures r == Completed(env, argv, idx, flag, fromEqual, result1)
    {
      CompletedFacts(env, argv, idx, flag, fromEqual, result1);
      if |flag.args| > 0 {
        FlagArgsFacts(env, argv, flag.args, fromEqual, 0, idx, None, result1);
        FlagArgsPresent(env, argv, flag.args, fromEqual, 0, idx, None, result1);
        var fa := ConsumeFlagArgs(flag.args, fromEqual, idx, result1);
        if fa.Err? {
          return Err(fa.error);
        }
        return Ok(Progress(fa.value.idx, fa.value.result[flag.dest := Bool(true)]));
      }
      return Ok(Progress(idx, result1[flag.dest := Bool(true)]));
    }

    /** `processCmd(idx, cmdDef, result)` (lines 70-309): reads tokens from
        `idx` to the end of input as flags, positional arguments and, once
        the arguments are used up, a sub-command; then fills in the
        remaining arguments' defaults and sets the frame's `dest`. It
        computes `Process`, whose frame guarantees (`ProcessFacts`) are
        stated here too. */
    method ProcessCmd(idx0: nat, cmdDef: Sub, result0: ParseResult) returns (r: Result<Progress, Failure>)
      modifies this
      decreases cmdDef, 6
      ensures r.Ok? ==> r.value.idx >= |argv|
      ensures r.Ok? ==> Extends(result0, r.value.result, Dests(cmdDef))
      ensures r.Ok? ==> cmdDef.dest in r.value.result && r.value.result[cmdDef.dest] == Bool(true)
      ensures r.Ok? ==> forall i :: 0 <= i < |cmdDef.args| ==> cmdDef.args[i].dest in r.value.result
      ensures r.Err? && r.error.Syntax? ==> r.error.error.command == env.cmd
      ensures |argv| >= |old(argv)| && (useFlags ==> old(useFlags))
      ensures !old(useFlags) ==> argv == old(argv) && (r.Ok? ==> Extends(result0, r.value.result, PosDests(cmdDef)))
      ensures idx0 >= |old(argv)| ==>
        argv == old(argv) && useFlags == old(useFlags) && r == Finish(env, cmdDef, 0, idx0, result0)
      ensures Run(r, argv, useFlags) == Process(env, old(argv), old(useFlags), idx0, 0, cmdDef, result0)
    {
      ProcessFacts(env, argv, useFlags, idx0, 0, cmdDef, result0);
      var idx: nat := idx0;
      var result := result0;
      var argIdx: nat := 0;
      while idx < |argv|
        invariant argIdx <= |cmdDef.args|
        invariant Process(env, argv, useFlags, idx, argIdx, cmdDef, result)
               == Process(env, old(argv), old(useFlags), idx0, 0, cmdDef, result0)
        decreases Rest(argv, idx)
      {
        var step := ProcessToken(idx, argIdx, cmdDef, result);
        if step.Return? {
          return step.r;
        }
        idx, argIdx, result := step.idx, step.argIdx, step.result;
      }
      assert Process(env, argv, useFlags, idx, argIdx, cmdDef, result)
          == Run(Finish(env, cmdDef, argIdx, idx, result), argv, useFlags);
      var rest := FillDefaults(cmdDef.args, argIdx, result);
      if rest.Err? {
        return Err(rest.error);
      }
      return Ok(Progress(idx, rest.value[cmdDef.dest := Bool(true)]));
    }

    /** One iteration of `processCmd`'s loop (lines 74-279) on the token at
        `idx`, with `argIdx` positional arguments already read: a flag, the
        next positional argument, or, once those are used up, a sub-command,
        after which the frame is done. The loop goes on as `Process` does,
        on fewer tokens, or returns what `Process` returns. */
    method ProcessToken(idx: nat, argIdx: nat, cmdDef: Sub, result: ParseResult) returns (s: Step)
      modifies this
      requires idx < |argv| && argIdx <= |cmdDef.args|
      decreases cmdDef, 5
      ensures s.Next? ==> argIdx <= s.argIdx <= |cmdDef.args| && Rest(argv, s.idx) < Rest(old(argv), idx)
      ensures s.Next? ==>
        Process(env, argv, useFlags, s.idx, s.argIdx, cmdDef, s.result)
        == Process(env, old(argv), old(useFlags), idx, argIdx, cmdDef, result)
      ensures s.Return? ==> Run(s.r, argv, useFlags) == Process(env, old(argv), old(useFlags), idx, argIdx, cmdDef, result)
    {
      if useFlags && IsFlagText(argv[idx]) {
        s := FlagStep(idx, argIdx, cmdDef, result);
      } else if argIdx >= |cmdDef.args| {
        assert Process(env, argv, useFlags, idx, argIdx, cmdDef, result)
            == SubRun(env, argv, useFlags, idx, cmdDef, result);
        var r := SubStep(idx, cmdDef, result);
        s := Return(r);
      } else {
        s := PositionalStep(idx, argIdx, cmdDef, result);
      }
    }

    /** The flag branch of `ProcessToken`: a flag token at `idx`. */
    method FlagStep(idx: nat, argIdx: nat, cmdDef: Sub, result: ParseResult) returns (s: Step)
      modifies this
      requires idx < |argv| && argIdx <= |cmdDef.args| && useFlags && IsFlagText(argv[idx])
      ensures s.Next? ==> s.argIdx == argIdx && Rest(argv, s.idx) < Rest(old(argv), idx)
      ensures s.Next? ==>
        Process(env, argv, useFlags, s.idx, s.argIdx, cmdDef, s.result)
        == Process(env, old(argv), old(useFlags), idx, argIdx, cmdDef, result)
      ensures s.Return? ==> Run(s.r, argv, useFlags) == Process(env, old(argv), old(useFlags), idx, argIdx, cmdDef, result)
    {
      var arg := argv[idx];
      ghost var argv0 := argv;
      var f := ProcessFlag(idx, cmdDef, result);
      if arg.text == "--" {
        RestMono(argv, idx, idx + 1);
        return Next(idx + 1, argIdx, result);
      }
      FlagOutcomeRun(env, argv0, idx, argIdx, cmdDef, result);
      s := FlagOutcome(f, argIdx);
    }

    /** The positional branch of `ProcessToken`: the token at `idx` is the
        value of the next positional argument (line 279). */
    method PositionalStep(idx: nat, argIdx: nat, cmdDef: Sub, result: ParseResult) returns (s: Step)
      requires idx < |argv| && argIdx < |cmdDef.args| && !(useFlags && IsFlagText(argv[idx]))
      ensures s.Next? ==> s.argIdx == argIdx + 1 && Rest(argv, s.idx) < Rest(argv, idx)
      ensures s.Next? ==>
        Process(env, argv, useFlags, s.idx, s.argIdx, cmdDef, s.result)
        == Process(env, argv, useFlags, idx, argIdx, cmdDef, result)
      ensures s.Return? ==> Run(s.r, argv, useFlags) == Process(env, argv, useFlags, idx, argIdx, cmdDef, result)
    {
      var step := ArgStep(env, argv, idx, cmdDef.args[argIdx], result);
      if step.Err? {
        return Return(Err(step.error));
      }
      RestMono(argv, idx, step.value.idx);
      return Next(step.value.idx, argIdx + 1, step.value.result);
    }

    /** The token at `idx` once the positional arguments are used up: the
        sub-command it dispatches to (`DispatchSub`) runs to the end of the
        tokens, and this frame's own `dest` is then set to `true`. */
    method SubStep(idx: nat, cmdDef: Sub, result: ParseResult) returns (r: Result<Progress, Failure>)
      modifies this
      requires idx < |argv|
      decreases cmdDef, 4
      ensures Run(r, argv, useFlags) == SubRun(env, old(argv), old(useFlags), idx, cmdDef, result)
    {
      var d := DispatchSub(idx, cmdDef, result);
      if d.Err? {
        return Err(d.error);
      }
      return Ok(Progress(d.value.idx, d.value.result[cmdDef.dest := Bool(true)]));
    }

    /** `processCmd` called on a sub-command (lines 237 and 260), seen
        through what it computes. */
    method RunSub(idx: nat, sub: Sub, result: ParseResult) returns (r: Result<Progress, Failure>)
      modifies this
      decreases sub, 7
      ensures Run(r, argv, useFlags) == Process(env, old(argv), old(useFlags), idx, 0, sub, result)
    {
      r := ProcessCmd(idx, sub, result);
    }

    /** The sub-command dispatch of lines 213-276, for the token at `idx`
        once the positional arguments are used up: no sub-commands is a
        `too many arguments` error; a sub-command named by the token runs
        from the next token on; otherwise the unnamed ones are tried in
        turn (`TryUnnamed`), and with none of those the token is an
        `unknown sub-command`. */
    method DispatchSub(idx: nat, cmdDef: Sub, result: ParseResult) returns (r: Result<Progress, Failure>)
      modifies this
      requires idx < |argv|
      decreases cmdDef, 3
      ensures var arg := old(argv)[idx];
        && (cmdDef.subs == [] ==>
              argv == old(argv) && r == Err(Syntax(CommandError("too many arguments", Some(arg), env.cmd, Some(0), Some(-|env.cmd|)))))
        && (cmdDef.subs != [] && FindNamedSub(cmdDef.subs, arg.text).None? && Unnamed(cmdDef.subs, |cmdDef.subs|) == [] ==>
              argv == old(argv) && r == Err(Syntax(CommandError("unknown sub-command: " + arg.text, Some(arg), env.cmd, None, None))))
      ensures Run(r, argv, useFlags) == Dispatch(env, old(argv), old(useFlags), idx, cmdDef, result)
    {
      var arg := argv[idx];
      if |cmdDef.subs| == 0 {
        return Err(Syntax(CommandError("too many arguments", Some(arg), env.cmd, Some(0), Some(-|env.cmd|))));
      }
      var i, unnamed := ScanSubs(cmdDef.subs, arg.text);
      if i < |cmdDef.subs| {
        r := NamedSub(idx, cmdDef, i, result);
      } else {
        r := UnnamedSubs(idx, cmdDef, unnamed, result);
      }
    }

    /** A sub-command named by the token at `idx` runs from the next token
        on, into the frame's map (lines 229-241). */
    method NamedSub(idx: nat, cmdDef: Sub, i: nat, result: ParseResult) returns (r: Result<Progress, Failure>)
      modifies this
      requires idx < |argv| && cmdDef.subs != [] && FindNamedSub(cmdDef.subs, argv[idx].text) == Some(i)
      decreases cmdDef, 2
      ensures Run(r, argv, useFlags) == Dispatch(env, old(argv), old(useFlags), idx, cmdDef, result)
    {
      assert Dispatch(env, argv, useFlags, idx, cmdDef, result)
          == Process(env, argv, useFlags, idx + 1, 0, cmdDef.subs[i], result);
      r := RunSub(idx + 1, cmdDef.subs[i], result);
    }

    /** No sub-command is named by the token at `idx`: the unnamed ones are
        tried, and without any the token is an unknown sub-command (lines
        246-273). */
    method UnnamedSubs(idx: nat, cmdDef: Sub, unnamed: seq<nat>, result: ParseResult) returns (r: Result<Progress, Failure>)
      modifies this
      requires idx < |argv| && cmdDef.subs != [] && FindNamedSub(cmdDef.subs, argv[idx].text).None?
      requires unnamed == Unnamed(cmdDef.subs, |cmdDef.subs|)
      decreases cmdDef, 2
      ensures unnamed == [] ==>
        argv == old(argv) && r == Err(Syntax(CommandError("unknown sub-command: " + argv[idx].text, Some(argv[idx]), env.cmd, None, None)))
      ensures Run(r, argv, useFlags) == Dispatch(env, old(argv), old(useFlags), idx, cmdDef, result)
    {
      var arg := argv[idx];
      if unnamed == [] {
        return Err(Syntax(CommandError("unknown sub-command: " + arg.text, Some(arg), env.cmd, None, None)));
      }
      r := TryUnnamed(idx, cmdDef, unnamed, result);
    }

    /** The unnamed sub-commands `unnamed` of `cmdDef` tried in turn from the
        token at `idx` (lines 246-271), each into a map of its own that the
        frame's map is merged with on success; when every attempt throws,
        the first error is rethrown (`Attempts`, `FirstErrorRethrown`). */
    method TryUnnamed(idx: nat, cmdDef: Sub, unnamed: seq<nat>, result: ParseResult) returns (r: Result<Progress, Failure>)
      modifies this
      requires unnamed != [] && forall k :: 0 <= k < |unnamed| ==> unnamed[k] < |cmdDef.subs|
      decreases cmdDef, 1
      ensures Run(r, argv, useFlags) == Attempts(env, old(argv), old(useFlags), idx, cmdDef, unnamed, 0, None, result)
    {
      var firstErr: Option<Failure> := None;
      var k := 0;
      while k < |unnamed|
        invariant k <= |unnamed|
        invariant k == 0 <==> firstErr.None?
        invariant Attempts(env, argv, useFlags, idx, cmdDef, unnamed, k, firstErr, result)
               == Attempts(env, old(argv), old(useFlags), idx, cmdDef, unnamed, 0, None, result)
      {
        var attempt := RunSub(idx, cmdDef.subs[unnamed[k]], map[]);
        if attempt.Ok? {
          return Ok(Progress(attempt.value.idx, result + attempt.value.result));
        }
        if firstErr.None? {
          firstErr := Some(attempt.error);
        }
        k := k + 1;
      }
      return Err(firstErr.value);
    }
  }

  /** The search of lines 215-245 for a sub-command named `text`: it stops
      at the first one whose name or alias `text` is, and collects, up to
      there, the unnamed sub-commands in declaration order. */
  method ScanSubs(subs: seq<Sub>, text: string) returns (i: nat, unnamed: seq<nat>)
    ensures i <= |subs| && unnamed == Unnamed(subs, i)
    ensures FindNamedSub(subs, text) == (if i < |subs| then Some(i) else None)
  {
    FindNamedSubFirst(subs, text);
    unnamed := [];
    i := 0;
    while i < |subs|
      invariant i <= |subs|
      invariant unnamed == Unnamed(subs, i)
      invariant FindNamedSub(subs, text).None? || i <= FindNamedSub(subs, text).value
    {
      var sub := subs[i];
      if sub.name == [] {
        unnamed := unnamed + [i];
      } else if SubNamed(sub, text) {
        return;
      }
      i := i + 1;
    }
  }

  /** Splitting off `=value`, when it happens, makes the tokens after the flag lighter. */
  lemma SplitLighterIf(argv: seq<Token>, idx: nat, flagName: string, chars: string, equalArg: string,
                       argv2: seq<Token>)
    requires idx < |argv| && |equalArg| < |argv[idx].text|
    requires argv2 == argv || argv2 == SplitEqual(argv, idx, flagName, chars, equalArg)
    ensures Rest(argv2, idx + 1) < Rest(argv, idx)
  {
    if argv2 == argv {
      RestMono(argv, idx, idx + 1);
    } else {
      SplitLighter(argv, idx, flagName, chars, equalArg);
    }
  }

  /** `parseCommand(info, cmd, argv)`: parses from token 1, the command name
      being token 0, into an empty map. The argument vector is returned as
      the call leaves it, since the parser rewrites the caller's array. */
  method ParseCommand(info: Sub, cmd: string, argv: seq<Token>, parsers: map<string, TypeParser>)
    returns (r: Result<ParseResult, Failure>, argvAfter: seq<Token>)
    ensures r.Ok? ==> r.value.Keys <= Dests(info)
    ensures r.Ok? ==> info.dest in r.value && r.value[info.dest] == Bool(true)
    ensures r.Ok? ==> forall i :: 0 <= i < |info.args| ==> info.args[i].dest in r.value
    ensures r.Err? && r.error.Syntax? ==> r.error.error.command == cmd
    ensures |argvAfter| >= |argv|
    ensures var run := ParseRun(info, cmd, argv, parsers);
      argvAfter == run.argv && r == (if run.r.Ok? then Ok(run.r.value.result) else Err(run.r.error))
    ensures |argv| <= 1 ==> argvAfter == argv && r == (match Defaults(Env(cmd, parsers), info.args, 0, map[])
                                                        case Ok(m) => Ok(m[info.dest := Bool(true)])
                                                        case Err(e) => Err(e))
  {
    var p := new Parser(cmd, argv, parsers);
    var out := p.ProcessCmd(1, info, map[]);
    argvAfter := p.argv;
    if out.Err? {
      return Err(out.error), argvAfter;
    }
    return Ok(out.value.result), argvAfter;
  }
}
