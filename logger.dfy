/** The logger of the framework (src/catalyst/core/logger.ts): a format with
    `[type]` and `[text]` placeholders, and five levels routed to the three
    console channels. The console is modelled as the list of what it has
    received. */
module Logger {
  import opened Base
  import opened JsString

  const TextPlaceholder := "[text]"
  const TypePlaceholder := "[type]"
  const DefaultFormat := "[[type]] [text]"

  /** `console.log`, `console.warn` and `console.error`. */
  datatype Channel = ConsoleLog | ConsoleWarn | ConsoleError

  /** The five logging methods. */
  datatype Level = Log | Info | Debug | Warn | Error

  /** The type each level writes into the `[type]` placeholder. */
  function TypeName(l: Level): string {
    match l
    case Log => "log"
    case Info => "info"
    case Debug => "debug"
    case Warn => "warning"
    case Error => "error"
  }

  /** `makeLogText`: the first `[type]` of the format is replaced by the type,
      then the first `[text]` of that result by the text, both with the `$`
      patterns of `String.prototype.replace`. */
  function MakeLogText(format: string, text: string, typ: string): string {
    ReplaceFirst(ReplaceFirst(format, TypePlaceholder, typ), TextPlaceholder, text)
  }

  /** With the default format, the log text is the type in brackets, a space
      and the text, for any type without brackets or `$` other than `text`
      (every level's type is one). A `$` pattern in the text is expanded
      against the match of `[text]`. */
  lemma DefaultLogText(text: string, typ: string)
    requires '$' !in typ && '[' !in typ && ']' !in typ && typ != "text"
    ensures MakeLogText(DefaultFormat, text, typ)
         == "[" + typ + "] " + Substitute(text, TextPlaceholder, "[" + typ + "] ", "")
  {
    var f := DefaultFormat;
    assert OccursAt(f, TypePlaceholder, 1);
    assert !OccursAt(f, TypePlaceholder, 0) by {
      assert f[0..6][1] == '[' != TypePlaceholder[1];
    }
    assert IndexOf(f, TypePlaceholder) == Some(1);
    var t := "[" + typ + "] [text]";
    assert ReplaceFirst(f, TypePlaceholder, typ) == t by {
      assert f[..1] == "[" && f[7..] == "] [text]";
    }
    var n := |typ| + 3;
    FirstText(typ);
    assert IndexOf(t, TextPlaceholder) == Some(n);
    assert t[..n] == "[" + typ + "] " && t[n + 6..] == [];
  }

  /** In `[typ] [text]`, the first `[text]` is the placeholder. */
  lemma FirstText(typ: string)
    requires '[' !in typ && ']' !in typ && typ != "text"
    ensures var t := "[" + typ + "] [text]";
      && OccursAt(t, TextPlaceholder, |typ| + 3)
      && forall j :: 0 <= j < |typ| + 3 ==> !OccursAt(t, TextPlaceholder, j)
  {
    var t := "[" + typ + "] [text]";
    var n := |typ| + 3;
    assert t[n..n + 6] == TextPlaceholder;
    forall j | 0 <= j < n ensures !OccursAt(t, TextPlaceholder, j) {
      if j == 0 {
        if |typ| >= 5 {
          assert t[5] == typ[4];
          Mismatch(t, TextPlaceholder, 0, 5);
        } else if |typ| == 4 {
          var k :| 0 <= k < 4 && typ[k] != "text"[k];
          Mismatch(t, TextPlaceholder, 0, k + 1);
        } else {
          assert t[|typ| + 1] == ']';
          Mismatch(t, TextPlaceholder, 0, |typ| + 1);
        }
      } else {
        assert j <= |typ| ==> t[j] == typ[j - 1];
        Mismatch(t, TextPlaceholder, j, 0);
      }
    }
  }

  /** A pattern does not occur where one of its characters is missing. */
  lemma Mismatch(s: string, pat: string, j: nat, k: nat)
    requires j + |pat| <= |s| && k < |pat| && s[j + k] != pat[k]
    ensures !OccursAt(s, pat, j)
  {
    assert s[j..j + |pat|][k] == s[j + k];
  }

  /** The channel of each `printLog` priority; any other priority prints nothing. */
  function ChannelOf(prior: nat): Option<Channel> {
    if prior == 0 then Some(ConsoleLog)
    else if prior == 1 then Some(ConsoleWarn)
    else if prior == 2 then Some(ConsoleError)
    else None
  }

  /** The priority a level prints with: `warn` always 1, `error` always 2,
      the others 1 when shown on the screen and 0 otherwise. */
  function Priority(l: Level, showToGui: bool): nat {
    match l
    case Warn => 1
    case Error => 2
    case _ => if showToGui then 1 else 0
  }

  /** What one call of a level method sends to the console: nothing for
      `debug` unless debugging is on, else the log text on its priority's channel. */
  function Printed(format: string, l: Level, text: string, showToGui: bool, showDebug: bool): (r: seq<(Channel, string)>)
    ensures |r| <= 1
  {
    if l == Debug && !showDebug then []
    else [(ChannelOf(Priority(l, showToGui)).value, MakeLogText(format, text, TypeName(l)))]
  }

  /** The routing rules: warnings always go to `console.warn` and errors to
      `console.error`; the other levels go to `console.warn` exactly when
      shown on the screen, else to `console.log`; only `debug` can print nothing. */
  lemma Routing(format: string, l: Level, text: string, showToGui: bool, showDebug: bool)
    ensures var r := Printed(format, l, text, showToGui, showDebug);
      && (r == [] <==> l == Debug && !showDebug)
      && (r != [] ==> r[0].1 == MakeLogText(format, text, TypeName(l)))
      && (r != [] && l == Warn ==> r[0].0 == ConsoleWarn)
      && (r != [] && l == Error ==> r[0].0 == ConsoleError)
      && (r != [] && l != Warn && l != Error ==> r[0].0 == (if showToGui then ConsoleWarn else ConsoleLog))
  {
  }

  class Logger {
    const format: string
    var showToGui: bool
    var showDebug: bool
    /** Everything sent to the console so far, in order. */
    var printed: seq<(Channel, string)>

    /** The constructor once the format has been checked. */
    constructor (format: string)
      requires IndexOf(format, TextPlaceholder).Some?
      ensures this.format == format && !showToGui && !showDebug && printed == []
    {
      this.format := format;
      showToGui := false;
      showDebug := false;
      printed := [];
    }

    /** `printLog`. */
    method PrintLog(text: string, prior: nat)
      modifies this
      ensures printed == old(printed) + (if ChannelOf(prior).Some? then [(ChannelOf(prior).value, text)] else [])
      ensures showToGui == old(showToGui) && showDebug == old(showDebug)
    {
      var channel := ChannelOf(prior);
      if channel.Some? {
        printed := printed + [(channel.value, text)];
      }
    }

    /** `log`, `info`, `debug`, `warn` and `error`. */
    method Emit(l: Level, text: string)
      modifies this
      ensures printed == old(printed) + Printed(format, l, text, old(showToGui), old(showDebug))
      ensures showToGui == old(showToGui) && showDebug == old(showDebug)
    {
      if l == Debug && !showDebug {
        return;
      }
      PrintLog(MakeLogText(format, text, TypeName(l)), Priority(l, showToGui));
    }
  }

  /** `new Logger(format)`: throws unless the format holds `[text]`; a new
      logger shows nothing on the screen and does not debug. */
  method NewLogger(format: string) returns (r: Result<Logger, string>)
    ensures r.Err? <==> IndexOf(format, TextPlaceholder).None?
    ensures r.Err? ==> r.error == "Placeholder \"[text]\" not found on log format: " + format
    ensures r.Ok? ==>
      && fresh(r.value) && r.value.format == format
      && !r.value.showToGui && !r.value.showDebug && r.value.printed == []
  {
    if IndexOf(format, TextPlaceholder).None? {
      return Err("Placeholder \"[text]\" not found on log format: " + format);
    }
    var logger := new Logger(format);
    return Ok(logger);
  }
}
