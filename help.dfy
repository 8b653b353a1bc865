/** The help command (src/server/commands/help.ts): its grammar, and the
    paging arithmetic and message of the command listing. */
module Help {
  import opened Base
  import opened JsString
  import opened Command
  import opened CmdParser

  const MaxPageSize := 10

  // ---------------------------------------------------------------------------
  // Grammar

  const PageArg := Arg(Some("page"), Named("int"), "page", false, Int(1))
  const NameArg := Arg(Some("command"), Named("string"), "name", true, Undefined)

  /** Two unnamed sub-commands: `pg` with an optional page number, tried
      first, then `cmd` with a required command name. */
  const HelpInfo := Sub("help", "", [], [], [], [
    Sub("", "pg", [], [PageArg], [], []),
    Sub("", "cmd", [], [NameArg], [], [])
  ])

  /** `pg` is tried before `cmd`, and no token is ever a named sub-command. */
  lemma HelpSubs()
    ensures Unnamed(HelpInfo.subs, 2) == [0, 1]
    ensures forall t :: FindNamedSub(HelpInfo.subs, t).None?
  {
    var subs := HelpInfo.subs;
    forall t ensures FindNamedSub(subs, t).None? {
      assert subs[1..][1..] == [];
      assert FindNamedSub(subs[1..][1..], t).None?;
      assert subs[1..][0].name == [];
      assert FindNamedSub(subs[1..], t).None?;
    }
  }

  /** With the built-in registry, a token after `help` is never a page: the
      `int` argument of `pg` has no parser, so `pg` fails; `cmd` then takes
      the token as the command name. */
  lemma HelpArgs(cmd: string, argv: seq<Token>, idx: nat, result: ParseResult)
    requires idx < |argv|
    ensures ArgStep(Env(cmd, BuiltinParsers()), argv, idx, PageArg, result).Err?
    ensures ArgStep(Env(cmd, BuiltinParsers()), argv, idx, NameArg, result)
         == Ok(Progress(idx + 1, result["name" := Str(argv[idx].text)]))
  {
    assert "int" !in BuiltinParsers();
    assert DropT(argv, idx)[0] == argv[idx];
  }

  /** `help` alone: no sub-command runs, so the parse sets only the
      command's own key and leaves `page` undefined, the case the paging
      below has to cope with. */
  lemma HelpAlone(cmd: string, t: Token)
    ensures ParseRun(HelpInfo, cmd, [t], BuiltinParsers()) == Run(Ok(Progress(1, map["" := Bool(true)])), [t], true)
    ensures "page" !in ParseRun(HelpInfo, cmd, [t], BuiltinParsers()).r.value.result
  {
    var env := Env(cmd, BuiltinParsers());
    assert Defaults(env, HelpInfo.args, 0, map[]) == Ok(map[]);
  }

  /** `help <word>`: `pg` is tried first and fails, since the built-in
      registry has no `int` parser; `cmd` then takes the word as the command
      name, and its result is merged into the frame's map. */
  lemma HelpWord(cmd: string, t0: Token, t1: Token)
    requires !IsFlagText(t1)
    ensures ParseRun(HelpInfo, cmd, [t0, t1], BuiltinParsers())
         == Run(Ok(Progress(2, map["name" := Str(t1.text), "cmd" := Bool(true), "" := Bool(true)])), [t0, t1], true)
  {
    var env := Env(cmd, BuiltinParsers());
    var argv := [t0, t1];
    var pg, cm := HelpInfo.subs[0], HelpInfo.subs[1];
    HelpSubs();
    HelpArgs(cmd, argv, 1, map[]);
    assert argv[1] == t1;
    var named := map["name" := Str(t1.text)];
    // `pg` fails on its page argument.
    var e := ArgStep(env, argv, 1, PageArg, map[]).error;
    assert Process(env, argv, true, 1, 0, pg, map[]) == Run(Err(e), argv, true);
    // `cmd` reads the word, then fills nothing more and sets its key.
    assert Defaults(env, cm.args, 1, named) == Ok(named);
    assert Process(env, argv, true, 2, 1, cm, named) == Run(Ok(Progress(2, named["cmd" := Bool(true)])), argv, true);
    assert Process(env, argv, true, 1, 0, cm, map[]) == Run(Ok(Progress(2, named["cmd" := Bool(true)])), argv, true);
    // The attempts in order, then the frame.
    assert Attempts(env, argv, true, 1, HelpInfo, [0, 1], 1, Some(e), map[])
        == Run(Ok(Progress(2, map[] + named["cmd" := Bool(true)])), argv, true);
    assert Attempts(env, argv, true, 1, HelpInfo, [0, 1], 0, None, map[])
        == Run(Ok(Progress(2, map[] + named["cmd" := Bool(true)])), argv, true);
    assert Dispatch(env, argv, true, 1, HelpInfo, map[])
        == Run(Ok(Progress(2, map[] + named["cmd" := Bool(true)])), argv, true);
    assert map[] + named["cmd" := Bool(true)] == named["cmd" := Bool(true)];
    assert SubRun(env, argv, true, 1, HelpInfo, map[])
        == Run(Ok(Progress(2, named["cmd" := Bool(true)][HelpInfo.dest := Bool(true)])), argv, true);
    assert Process(env, argv, true, 1, 0, HelpInfo, map[])
        == Run(Ok(Progress(2, named["cmd" := Bool(true)][HelpInfo.dest := Bool(true)])), argv, true);
  }

  // ---------------------------------------------------------------------------
  // Paging

  /** `Math.ceil(len / MAX_PAGE_SIZE)`. */
  function MaxPage(len: nat): (r: nat)
    ensures r * MaxPageSize >= len
    ensures r == 0 || (r - 1) * MaxPageSize < len
    ensures r == 0 <==> len == 0
  {
    (len + MaxPageSize - 1) / MaxPageSize
  }

  function Min(a: int, b: int): int {
    if a <= b then a else b
  }

  /** The lines a listing shows: the 0-based page (-1 for the whole list)
      and the index range, or NaN everywhere when the page is undefined. */
  datatype Window = Window(page: int, start: int, end: int) | NotANumber

  /** The paging for a requested page number. */
  function PageWindow(len: nat, requested: int): (w: Window)
    ensures w.Window?
  {
    var page := Min(requested, MaxPage(len)) - 1;
    var start := if page == -1 then 0 else page * MaxPageSize;
    Window(page, start, if page == -1 then len else Min(start + MaxPageSize, len))
  }

  /** The paging as written: `args.page` is undefined whenever no sub-command
      ran, and `Math.min` of undefined is NaN, which then poisons the page,
      the start and the end. */
  function WindowAsWritten(len: nat, page: Option<int>): (w: Window)
    ensures w.NotANumber? <==> page.None?
  {
    if page.None? then NotANumber else PageWindow(len, page.value)
  }

  /** The paging with the page argument's declared default, 1, standing in
      for an absent page. */
  function HelpWindow(len: nat, page: Option<int>): (w: Window)
    ensures w.Window?
  {
    PageWindow(len, if page.Some? then page.value else 1)
  }

  /** The whole list is shown exactly when page 0 is requested, or any
      positive page of an empty list. */
  lemma WholeList(len: nat, requested: int)
    ensures var w := PageWindow(len, requested);
      (w.page == -1 <==> requested == 0 || (len == 0 && requested > 0))
      && (w.page == -1 ==> w.start == 0 && w.end == len)
  {
  }

  /** A numbered page lies within the list and shows between one and ten
      lines; a page within range is the one requested, a larger one is the last. */
  lemma PageBounds(len: nat, requested: int)
    requires PageWindow(len, requested).page >= 0
    ensures var w := PageWindow(len, requested);
      && 0 <= w.start < w.end <= len
      && w.end - w.start <= MaxPageSize
      && w.start == w.page * MaxPageSize
      && w.page < MaxPage(len)
      && (requested <= MaxPage(len) ==> w.page == requested - 1)
      && (requested > MaxPage(len) ==> w.page == MaxPage(len) - 1)
  {
    var w := PageWindow(len, requested);
    var m := MaxPage(len);
    assert w.page <= m - 1;
    assert w.page * MaxPageSize <= (m - 1) * MaxPageSize;
  }

  // ---------------------------------------------------------------------------
  // Message

  /** What the listing prints for index `i`: the line, or the text a template
      makes of the undefined value read outside the list. */
  function LineAt(list: seq<string>, i: int): string {
    if 0 <= i < |list| then list[i] else "undefined"
  }

  /** The lines listed for the indices `start` up to `end`. */
  function Listed(list: seq<string>, start: int, end: int): (r: seq<string>)
    ensures |r| == if end <= start then 0 else end - start
    decreases end - start
  {
    if end <= start then [] else Listed(list, start, end - 1) + [LineAt(list, end - 1)]
  }

  /** Within the list, the lines listed are exactly its slice. */
  lemma {:induction false} ListedSlice(list: seq<string>, start: int, end: int)
    requires 0 <= start <= end <= |list|
    ensures Listed(list, start, end) == list[start..end]
    decreases end - start
  {
    if start < end {
      ListedSlice(list, start, end - 1);
      assert list[start..end] == list[start..end - 1] + [list[end - 1]];
    }
  }

  function Shown(list: seq<string>, w: Window): seq<string> {
    match w
    case NotANumber => []
    case Window(_, start, end) => Listed(list, start, end)
  }

  /** What the listing shows: the whole list, or the page's slice of it. */
  lemma ShownLines(list: seq<string>, requested: int)
    ensures var w := PageWindow(|list|, requested);
      && (w.page == -1 ==> Shown(list, w) == list)
      && (w.page >= 0 ==> Shown(list, w) == list[w.start..w.end] && 1 <= |Shown(list, w)| <= MaxPageSize)
  {
    var w := PageWindow(|list|, requested);
    WholeList(|list|, requested);
    if w.page == -1 {
      ListedSlice(list, 0, |list|);
    } else if w.page >= 0 {
      PageBounds(|list|, requested);
      ListedSlice(list, w.start, w.end);
    }
  }

  /** `help` with no argument, as written, lists no command at all, even
      though there are commands to list; with the declared default it lists
      the first page. */
  lemma NoPageListsNothing(list: seq<string>)
    requires |list| > 0
    ensures Shown(list, WindowAsWritten(|list|, None)) == []
    ensures Shown(list, HelpWindow(|list|, None)) == list[..Min(MaxPageSize, |list|)]
  {
    ShownLines(list, 1);
    WholeList(|list|, 1);
    PageBounds(|list|, 1);
  }

  /** The first line of the message. */
  function Header(w: Window, maxPage: nat): string {
    match w
    case NotANumber => "\U{00A7}aShowing help page NaN of " + Decimal(maxPage) + "\U{00A7}r\n"
    case Window(page, _, _) =>
      if page == -1 then "\U{00A7}aShowing help to all commands\U{00A7}r\n"
      else "\U{00A7}aShowing help page " + Decimal(page + 1) + " of " + Decimal(maxPage) + "\U{00A7}r\n"
  }

  /** Each line, behind the command prefix and followed by a line break. */
  function Lines(prefix: string, lines: seq<string>): string {
    if lines == [] then [] else Lines(prefix, lines[..|lines| - 1]) + (prefix + lines[|lines| - 1] + "\n")
  }

  /** The listing message of `help`, for the sorted help lines of all
      commands and the page argument. */
  method HelpListing(list: seq<string>, prefix: string, page: Option<int>) returns (msg: string)
    ensures msg == Header(HelpWindow(|list|, page), MaxPage(|list|)) + Lines(prefix, Shown(list, HelpWindow(|list|, page)))
  {
    var w := HelpWindow(|list|, page);
    var lines := ListLines(list, prefix, w.start, w.end);
    msg := Header(w, MaxPage(|list|)) + lines;
  }

  /** The loop of the listing: the lines from `start` up to `end`, each
      behind the prefix and followed by a line break. */
  method ListLines(list: seq<string>, prefix: string, start: int, end: int) returns (lines: string)
    ensures lines == Lines(prefix, Listed(list, start, end))
  {
    lines := [];
    var i := start;
    while i < end
      invariant start <= i <= if start <= end then end else start
      invariant lines == Lines(prefix, Listed(list, start, i))
      decreases end - i
    {
      LinesSnoc(list, prefix, start, i);
      lines := lines + (prefix + LineAt(list, i) + "\n");
      i := i + 1;
    }
  }

  lemma LinesSnoc(list: seq<string>, prefix: string, start: int, i: int)
    requires start <= i
    ensures Lines(prefix, Listed(list, start, i + 1)) == Lines(prefix, Listed(list, start, i)) + (prefix + LineAt(list, i) + "\n")
  {
    var listed := Listed(list, start, i);
    assert Listed(list, start, i + 1) == listed + [LineAt(list, i)];
    assert (listed + [LineAt(list, i)])[..|listed|] == listed;
  }
}
