# Catalyst command core, modelled in Dafny

This project models the core of Catalyst, a scripting framework for Minecraft Bedrock servers. Its centre is the chat-command pipeline:

- the tokenizer `tokenizeCommand` cuts a chat line into tokens with their spans and a quoted flag;
- the command registry maps a command name or alias to its entry;
- `parseCommand` resolves a grammar tree of arguments, flags and sub-commands into a flat `dest → value` map, or a `CommandError`.

Around that core it models the framework's smaller services:

- the printf-style formatter of the localization helpers (`parseFormat`, `applyFormat`, `formatString`);
- the target-selector and rawtext builders;
- the listener-list event manager and the plugin registry;
- the key/value cache of `Database`;
- the `Logger`;
- `removeFormatCodes` and the formatting-code table;
- `colorize` for JSON-like values;
- the tag-based permissions;
- the paging of `help` and the home table of `home`.

One Dafny module per source file:

| module | file | source |
|---|---|---|
| `Base` | base.dfy | shared `Option` and `Result` types; a thrown exception is the `Err` side of a `Result` |
| `JsString` | js_string.dfy | the JavaScript string primitives the sources use, on `seq<char>` |
| `Json` | json.dfy | JSON-like values and `JSON.stringify` of a string |
| `Command` | command.dfy | src/catalyst/core/command.ts |
| `CmdParser` | cmdparser.dfy | src/catalyst/core/cmdparser.ts |
| `Locale` | locale.dfy | src/catalyst/core/locale.ts |
| `Selector` | selector.dfy | src/catalyst/core/selector.ts |
| `RawText` | rawtext.dfy | src/catalyst/core/rawtext.ts |
| `Events` | events.dfy | src/catalyst/core/events.ts |
| `Plugin` | plugin.dfy | src/catalyst/core/plugin.ts |
| `Database` | database.dfy | src/catalyst/core/database.ts |
| `Logger` | logger.dfy | src/catalyst/core/logger.ts |
| `Format` | format.dfy | src/catalyst/core/format.ts |
| `Colorize` | colorize.dfy | src/server/utils.ts |
| `Permissions` | permissions.dfy | src/catalyst/plugins/permissions/app.ts |
| `Help` | help.dfy | src/server/commands/help.ts |
| `Home` | home.dfy | src/server/commands/home.ts |

The form of each module follows its source:

- Code that changes state step by step is imperative Dafny. The tokenizer, the parse loops of `parseFormat` and `applyFormat`, and the recursive `processCmd` are methods with loop invariants, each proved against a function that specifies it.
- Objects whose fields the source updates are classes with `modifies` frames: the parser state, the registries, the builders, the event manager, the database and the logger.
- Pure code (`colorize`, `removeFormatCodes`, the paging arithmetic) is functions and lemmas.

`CommandError` is used by cmdparser.ts, but its definition is not part of this model. It is modelled as a datatype of a message, an optional token, the command line and the two optional offsets given to its constructor.

## Model

| member | source | states |
|---|---|---|
| Json.Escape | src/server/utils.ts:11 | what `JSON.stringify` writes for one character of a string; anything it adds besides the character itself is ASCII |
| Json.Quote | src/server/utils.ts:11 | `JSON.stringify` of a string starts and ends with a double quote, and adds only ASCII characters besides those of the string |
| Format.Code | src/catalyst/core/format.ts:9-51 | a formatting code is the section sign followed by its code character |
| Format.FormatsAreCodes | src/catalyst/core/format.ts:9-51 | the `formats` enum has 34 members, each a two-character code that opens with the section sign |
| Format.RemoveFormatCodes | src/catalyst/core/format.ts:58-60 | `removeFormatCodes` never lengthens the text |
| Format.RemovedHasNoCodes | src/catalyst/core/format.ts:53-60 | the result of `removeFormatCodes` holds no formatting code |
| Format.NoCodesUnchanged | src/catalyst/core/format.ts:58-60 | a text without formatting codes is returned unchanged |
| Format.RemoveIdempotent | src/catalyst/core/format.ts:58-60 | removing the codes twice is the same as removing them once |
| Format.RemoveAppend | src/catalyst/core/format.ts:58-60 | removal distributes over a concatenation whose first part does not end in a lone section sign |
| Format.EndsCleanAppend | src/catalyst/core/format.ts:58-60 | two texts that end clean concatenate to a text that ends clean |
| Format.PlainText | src/catalyst/core/format.ts:58-60 | a text without section signs ends clean and is kept whole |
| Format.CodeRemoved | src/catalyst/core/format.ts:9-60 | each formatting code ends clean and is removed whole |
| Colorize.Colorize | src/server/utils.ts:8-16 | every rendering opens with the reset code |
| Colorize.RemoveJoin | src/server/utils.ts:13-14 | with the codes removed, a join of coloured parts is the join of their plain parts |
| Colorize.CodeThen | src/server/utils.ts:9-12 | a code followed by plain text loses only the code |
| Colorize.CodesThen | src/server/utils.ts:9-12 | the reset and colour codes in front of a scalar are removed, leaving its text |
| Colorize.DigitsPlain | src/server/utils.ts:10 | the decimal text of a number holds no section sign |
| Colorize.Concat3 | src/server/utils.ts:13-14 | three clean pieces concatenate to a clean text whose removal is the concatenation of their removals |
| Colorize.ColorsOnly | src/server/utils.ts:8-16 | `colorize` only adds colour: with its codes removed, the rendering of any value whose strings hold no section sign is the value's plain rendering, in every branch (boolean, number, string, null/undefined, array, object, other) |
| Colorize.ArrayColors | src/server/utils.ts:13 | the array case of the above, from the items' |
| Colorize.EntryColors | src/server/utils.ts:14 | one object entry (key, colon, value) removes to its plain form |
| Colorize.ObjectColors | src/server/utils.ts:14 | the object case of the above, from the entries' values |
| Colorize.EmptyArray | src/server/utils.ts:13 | an empty array is rendered as its two coloured brackets |
| JsString.Repeat | src/catalyst/core/locale.ts:351-353 | `n` copies of one character |
| JsString.PadStart | src/catalyst/core/locale.ts:351-353 | `padStart`: the length is the larger of the target and the length; the string is the suffix and the fill is in front |
| JsString.PadEnd | src/catalyst/core/locale.ts:536 | `padEnd`: the length is the larger of the target and the length; the string is the prefix and the fill follows |
| JsString.SliceTo | src/catalyst/core/locale.ts:334 | `slice(0, end)`: a negative end counts from the end, and either end is clamped to the string |
| JsString.IndexFrom | src/catalyst/core/logger.ts:21 | `indexOf` finds the first occurrence from the start position, and reports none only when there is none |
| JsString.Substitute | src/catalyst/core/logger.ts:47 | the replacement text of `replace` is taken literally when it has no `$` |
| JsString.NatToStringRoundTrip | src/catalyst/core/locale.ts:338-435 | reading back the digits of `n.toString(radix)` gives `n` |
| JsString.NatToStringShape | src/catalyst/core/locale.ts:338-435 | `n.toString(radix)` is a non-empty string of digits of that radix that starts with 0 exactly when `n` is 0 |
| JsString.AsciiUpper | src/catalyst/core/locale.ts:417 | `toUpperCase` keeps the length |
| Permissions.Player.AddTag | src/catalyst/plugins/permissions/app.ts:48 | `addTag` appends a tag that is not yet there and otherwise changes nothing |
| Permissions.Player.RemoveTag | src/catalyst/plugins/permissions/app.ts:57 | `removeTag` removes every copy of the tag and keeps the rest in order |
| Permissions.Without | src/catalyst/plugins/permissions/app.ts:57 | the tag is gone and exactly the other tags remain |
| Permissions.Permissions | src/catalyst/plugins/permissions/app.ts:10-19 | the permissions are no more than the tags |
| Permissions.PermissionTag | src/catalyst/plugins/permissions/app.ts:10-29 | a permission is listed exactly when the tag `permission.` + it is present |
| Permissions.GetPermissions | src/catalyst/plugins/permissions/app.ts:10-19 | the loop over the tags collects exactly the suffixes of the `permission.` tags, in tag order |
| Permissions.HasPermission | src/catalyst/plugins/permissions/app.ts:27-29 | true exactly when the permission's tag is present |
| Permissions.AssertHasPermission | src/catalyst/plugins/permissions/app.ts:37-40 | passes exactly when at least one of the permissions is held; otherwise it throws `You have no permission!`, also for an empty list |
| Permissions.GrantPermission | src/catalyst/plugins/permissions/app.ts:47-49 | afterwards the permission is held and every other permission is as before |
| Permissions.RevokePermission | src/catalyst/plugins/permissions/app.ts:56-58 | afterwards the permission is not held and every other permission is as before |
| Permissions.PrefixInjective | src/catalyst/plugins/permissions/app.ts:47-57 | distinct permissions have distinct tags |
| Logger.DefaultLogText | src/catalyst/core/logger.ts:20-48 | with the default format, the log text is the type in brackets, a space and the text; a `$` pattern in the text is expanded against the match of `[text]` |
| Logger.FirstText | src/catalyst/core/logger.ts:47 | in `[type] [text]`, the first `[text]` is the placeholder |
| Logger.Mismatch | src/catalyst/core/logger.ts:47 | a pattern does not occur where one of its characters differs |
| Logger.Printed | src/catalyst/core/logger.ts:70-105 | one call of a level method prints at most one line |
| Logger.Routing | src/catalyst/core/logger.ts:58-105 | warnings always go to `console.warn` and errors to `console.error`; the other levels go to `console.warn` exactly when `showToGui` is set; only `debug` can print nothing, and it does exactly when `showDebug` is unset |
| Logger.Logger.constructor | src/catalyst/core/logger.ts:23-38 | a new logger keeps its format and starts with both switches off and nothing printed |
| Logger.Logger.PrintLog | src/catalyst/core/logger.ts:58-64 | `printLog` sends the text to the channel of its priority and changes no switch |
| Logger.Logger.Emit | src/catalyst/core/logger.ts:70-105 | `log`, `info`, `debug`, `warn` and `error` print exactly what `Printed` says and change no switch |
| Logger.NewLogger | src/catalyst/core/logger.ts:20-24 | the constructor throws exactly when the format has no `[text]`, with the message written out, and otherwise gives a logger with that format |
| Help.HelpSubs | src/server/commands/help.ts:11-37 | `pg` is tried before `cmd`, and no token names a sub-command |
| Help.HelpArgs | src/server/commands/help.ts:11-37 | with the built-in type parsers, `pg` fails on any token (there is no `int` parser), and `cmd` takes the token as the command name |
| Help.HelpAlone | src/server/commands/help.ts:11-37 | `help` alone parses to the command's own key only: no sub-command runs and `page` is undefined |
| Help.HelpWord | src/server/commands/help.ts:11-37 | `help <word>` tries `pg`, which fails, then `cmd`, which takes the word: the parse reads both tokens and sets `name`, `cmd` and the command's own key |
| Help.MaxPage | src/server/commands/help.ts:72 | `Math.ceil(len / 10)`: the least number of ten-line pages that hold the list, 0 exactly for an empty list |
| Help.PageWindow | src/server/commands/help.ts:73-75 | a requested page number always gives a window |
| Help.WindowAsWritten | src/server/commands/help.ts:73-75 | as written, a missing page argument makes the page NaN, and only then |
| Help.HelpWindow | src/server/commands/help.ts:17-21 | with the declared default page 1, the paging always gives a window |
| Help.WholeList | src/server/commands/help.ts:73-79 | the whole list is shown exactly when page 0 is requested, or any page of an empty list |
| Help.PageBounds | src/server/commands/help.ts:72-75 | a numbered page lies within the list and shows one to ten lines; a page in range is the one requested, a larger one is the last page |
| Help.Listed | src/server/commands/help.ts:83-84 | the loop lists `end - start` lines, none when `end <= start` |
| Help.ListedSlice | src/server/commands/help.ts:83-84 | within the list, the lines listed are exactly its slice |
| Help.ShownLines | src/server/commands/help.ts:72-84 | what is shown is the whole list or the page's slice of it |
| Help.NoPageListsNothing | src/server/commands/help.ts:73-84 | `help` without argument, as written, lists no command although there are commands; with the default page it lists the first ten |
| Help.HelpListing | src/server/commands/help.ts:65-86 | the listing message is the header for the page followed by one prefixed line per command shown |
| Help.ListLines | src/server/commands/help.ts:83-84 | the loop appends exactly the prefixed lines from `start` to `end` |
| Help.LinesSnoc | src/server/commands/help.ts:83-84 | one more turn of the loop appends one prefixed line |
| Home.HomeSubs | src/server/commands/home.ts:7-55 | each name and alias selects its sub-command, and no other word selects one |
| Home.HomeTable.Add | src/server/commands/home.ts:69-86 | `home add` throws when the name exists and otherwise appends exactly one home |
| Home.HomeTable.Delete | src/server/commands/home.ts:89-101 | `home delete` throws exactly when no home has the name and otherwise removes every home with it |
| Home.Remove | src/server/commands/home.ts:95 | the filter keeps exactly the homes with another name |
| Home.RemoveAbsent | src/server/commands/home.ts:95 | removing an absent name keeps the table as it is |
| Home.DeleteRule | src/server/commands/home.ts:89-101 | the delete rule throws `home not found!` exactly when no home has the name; otherwise the table shrinks to the homes with other names |
| Home.RemoveShrinks | src/server/commands/home.ts:95 | removing a name some home has shortens the table |
| Home.Find | src/server/commands/home.ts:104-110 | `home teleport` finds the first home with the name, and throws exactly when there is none |
| Home.CountLineFirst | src/server/commands/home.ts:126-135 | a count line is never the empty-table message |
| Home.ListMessage | src/server/commands/home.ts:125-142 | the empty-table message is shown exactly when there are no homes; otherwise the count line comes first |
| Database.Lookup | src/catalyst/core/database.ts:100-102 | `get` gives the cached value unless it is absent, `null` or `undefined`, and then the default |
| Database.Present | src/catalyst/core/database.ts:109-111 | `has` holds exactly when the key's value is not `undefined`; `null` counts as present |
| Database.GetAfterSet | src/catalyst/core/database.ts:89-111 | after `set`, `get` reads the value unless it is nullish, `has` holds unless it is `undefined`, and other keys read as before |
| Database.NullPresentButDefaulted | src/catalyst/core/database.ts:100-111 | a `null` value is present yet `get` gives the default |
| Database.AbsentAfterDelete | src/catalyst/core/database.ts:118-127 | after `del` the key is gone and the others are as before; after `clear` no key is present |
| Database.LoadOutcome | src/catalyst/core/database.ts:43-55 | nothing stored gives undefined; a stored value that is not text throws `Invalid format!`; otherwise the parse of the text, or its error |
| Database.SaveOutcome | src/catalyst/core/database.ts:61-69 | `save` succeeds exactly when the serialisation is a non-empty text of at most 32767 characters; `Store failed!` and `Database overflow!` otherwise |
| Database.SaveLoad | src/catalyst/core/database.ts:43-69 | with a parser that reads back what the serialiser writes, a saved cache loads back as itself |
| Database.Describe | src/catalyst/core/database.ts:133-140 | `toString` starts with `Database[`, the id and ` @ ` |
| Database.Database.Set | src/catalyst/core/database.ts:89-92 | the key holds the value and the other keys are unchanged |
| Database.Database.Del | src/catalyst/core/database.ts:113-120 | `del` removes the key and reports whether it was there |
| Database.Database.Clear | src/catalyst/core/database.ts:125-127 | the cache is emptied |
| Database.Database.Load | src/catalyst/core/database.ts:43-55 | `load` gives the outcome above and replaces the cache only with a value it read |
| Database.Database.Save | src/catalyst/core/database.ts:61-69 | `save` stores the serialised cache under the id exactly when the outcome is a success, and keeps the cache |
| Database.Database.Destroy | src/catalyst/core/database.ts:74-76 | the stored property is unset and the cache is kept |
| Database.Deleted | src/catalyst/core/database.ts:113-120 | `del` as documented: the result says whether the key existed; afterwards it is absent and every other key is as before |
| Database.DelAsWritten | src/catalyst/core/database.ts:118-120 | `delete` on a record always gives true |
| Database.DelReportsAbsentKey | src/catalyst/core/database.ts:113-120 | for a key never set, `del` as written reports a removal, while the documented result is false |
| Events.FirstIndex | src/catalyst/core/events.ts:63 | `indexOf` finds the first position of the listener, and none exactly when it is absent |
| Events.Without | src/catalyst/core/events.ts:62-67 | the list without the first occurrence of the listener, or the same list when it is absent |
| Events.Count | src/catalyst/core/events.ts:75-102 | the number of listeners for the event: 0 exactly when there is none |
| Events.Keep | src/catalyst/core/events.ts:97-98 | after every listener for the event has run once, exactly the listeners that are not `once` listeners for it remain |
| Events.ForEachRun | src/catalyst/core/events.ts:80-99 | the `forEach` as written runs no more listeners than there are from its start index |
| Events.ForEachWithoutOnce | src/catalyst/core/events.ts:80-99 | without a `once` listener for the event, the `forEach` runs every listener for it and removes nothing |
| Events.SkipAfterOnce | src/catalyst/core/events.ts:80-99 | a `once` listener followed by another listener for the same event: as written only the first runs, where both are meant to |
| Events.EventManager.AddEventListener | src/catalyst/core/events.ts:42-55 | a new listener with the event and `once` flag is appended, also when `prepend` asks for the front |
| Events.EventManager.RemoveEventListener | src/catalyst/core/events.ts:62-67 | true exactly when the listener was registered; its first occurrence is removed |
| Events.EventManager.DispatchEventAsWritten | src/catalyst/core/events.ts:75-102 | the dispatch as written: the count and list of the `forEach` above |
| Events.EventManager.DispatchEvent | src/catalyst/core/events.ts:75-102 | every listener registered for the event runs once, the count is their number, and the `once` ones are gone afterwards |
| Events.EventManager.On | src/catalyst/core/events.ts:106-108 | appends a listener that is not `once` |
| Events.EventManager.Once | src/catalyst/core/events.ts:110-112 | appends a `once` listener |
| Events.EventManager.Prepend | src/catalyst/core/events.ts:114-116 | appends (not prepends) a listener that is not `once` |
| Events.EventManager.PrependOnce | src/catalyst/core/events.ts:118-120 | appends (not prepends) a `once` listener |
| Events.EventManager.Off | src/catalyst/core/events.ts:122-124 | as `removeEventListener` |
| Events.EventManager.Emit | src/catalyst/core/events.ts:126-128 | `emit` returns the number of listeners registered for the event and removes the `once` ones among them, keeping every other listener in order |
| Events.IndexOf | src/catalyst/core/events.ts:63 | the search loop finds the first index of the listener |
| Events.FirstIndexAt | src/catalyst/core/events.ts:63 | the first index is the one before which the listener does not occur |
| Plugin.Plugin.constructor | src/catalyst/core/plugin.ts:67-75 | a new plugin is inactive, without exports and listeners, and replaces any plugin registered under its id |
| Plugin.Registry.LoadPlugin | src/catalyst/core/plugin.ts:16-32 | an unknown id throws and changes nothing; an active plugin's exports are returned as they are; an inactive plugin becomes active with new exports before its startup function runs, and when its load succeeds every plugin it requires is registered and active and `pluginLoaded` has fired (no `once` listener of it is left); only `once` listeners of `pluginLoaded` are ever removed; no plugin is deactivated, and each startup function runs exactly when its plugin becomes active |
| Plugin.Registry.Activate | src/catalyst/core/plugin.ts:21-28 | the loaded plugin is active with new exports, which are returned when its startup succeeds; on success every required plugin is registered and active and `pluginLoaded` has fired; only `once` listeners of `pluginLoaded` are removed |
| Plugin.Registry.MarkActive | src/catalyst/core/plugin.ts:22-23 | the plugin is active with new exports and its startup counted, so fewer plugins are inactive |
| Plugin.Registry.RunStartup | src/catalyst/core/plugin.ts:25 | the startup function from its `i`-th `require` on: loading the required plugins in turn deactivates none and runs each startup function only on activation; when it succeeds every required id from `i` on is registered and active; with nothing left to require it succeeds and dispatches nothing; only `once` listeners of `pluginLoaded` are removed |
| Plugin.Registry.Require | src/catalyst/core/plugin.ts:16-32 | one `require` call inside a startup function: no plugin becomes inactive, and on success the required id is registered and active |
| Plugin.Registry.UnloadPlugin | src/catalyst/core/plugin.ts:38-49 | an unknown id changes nothing; otherwise the plugin is inactive with new exports, and the `pluginUnload` and `pluginUnloaded` listeners are dispatched |
| Command.Flush | src/catalyst/core/command.ts:73-84 | `addVec` keeps the tokens before it and adds exactly one token when text is in progress, none otherwise; the new token carries the text and its quoted flag, and a quoted token's span is widened by one on each side to take in its quotes |
| Command.FlushTexts | src/catalyst/core/command.ts:73-84 | flushing appends the text in progress, if any, to the token texts |
| Command.FlushPlaced | src/catalyst/core/command.ts:73-84 | flushing keeps the tokens placed in the line and in order |
| Command.WordsAreWords | src/catalyst/core/command.ts:115-119 | every word of a line is non-empty and holds no whitespace |
| Command.WordsSplit | src/catalyst/core/command.ts:115-119 | a whitespace character splits the word list into the words before it and those after it |
| Command.WordsOfWord | src/catalyst/core/command.ts:115-121 | a non-empty run without whitespace is one word |
| Command.StartScan | src/catalyst/core/command.ts:64-71 | before the first character nothing has been read |
| Command.StepPlaced | src/catalyst/core/command.ts:87-122 | one turn of the loop keeps every token placed where its text was read, in order |
| Command.StepKept | src/catalyst/core/command.ts:87-122 | one turn of the loop keeps the token texts equal to the characters kept so far, and to the words on a plain line |
| Command.LexPlaced | src/catalyst/core/command.ts:87-126 | from a state that keeps the placement invariant, the tokens lie where their texts were read, in order |
| Command.LexKept | src/catalyst/core/command.ts:87-126 | from a state that keeps the content invariant, the tokens hold exactly the line's kept characters, and on a plain line its words |
| Command.Tokens | src/catalyst/core/command.ts:57-127 | the tokens of a line: each lies where its text was read, they are in order, their texts concatenate to the line with escaping backslashes, unescaped quotes and unquoted whitespace dropped, on a line without quotes and backslashes they are its maximal non-whitespace runs, unquoted, and on every line their texts and quoted flags are exactly `Pieces`: an unescaped quote ends the token before it, the words of each run outside quotes are unquoted tokens, and each non-empty run inside quotes is one quoted token |
| Command.LexPieces | src/catalyst/core/command.ts:87-126 | from a state whose tokens and owed pieces make up the line's pieces, the tokens read are exactly the line's pieces |
| Command.StepPieces | src/catalyst/core/command.ts:87-122 | one turn of the loop keeps the tokens so far plus the pieces still owed equal to the line's pieces |
| Command.KeepOwed | src/catalyst/core/command.ts:96-121 | an escaped character, a character inside quotes, or an unquoted non-whitespace character joins the token in progress |
| Command.MarkOwed | src/catalyst/core/command.ts:109-112 | an unescaped quote ends the run: the token in progress is emitted with the old quoting and the next run starts with quoting toggled |
| Command.GapOwed | src/catalyst/core/command.ts:116-118 | unescaped whitespace outside quotes ends the word in progress |
| Command.QuotePieces | src/catalyst/core/command.ts:109-112 | the line `ab"cd"` has the pieces unquoted `ab` and quoted `cd` |
| Command.QuoteUnits | src/catalyst/core/command.ts:96-121 | `ab"cd"` resolves to the kept characters `a`, `b`, a quote, `c`, `d` and a quote |
| Command.QuoteRuns | src/catalyst/core/command.ts:109-112 | the quotes of `ab"cd"` cut it into the runs `ab`, `cd` and an empty last run |
| Command.QuoteHeads | src/catalyst/core/command.ts:109-121 | the outside run `ab` is one unquoted word, the inside run `cd` one quoted piece, the empty outside run nothing |
| Command.QuoteSplits | src/catalyst/core/command.ts:63-127 | the tokenizer splits `ab"cd"` into unquoted `ab` and quoted `cd`, not one token `abcd` |
| Command.Tokenize | src/catalyst/core/command.ts:63-127 | the loop computes exactly the tokens `Tokens` describes |
| Command.FindByName | src/catalyst/core/command.ts:156 | `findIndex`: the first entry with the name, or the length when none has it |
| Command.Registry.Register | src/catalyst/core/command.ts:139-149 | the entry keeps name and callback, defaults an empty or missing help to `No description.` and missing aliases to none, and is appended |
| Command.Registry.Deregister | src/catalyst/core/command.ts:155-160 | the first entry with the name is removed (aliases do not count); an unknown name changes nothing |
| Command.Registry.Get | src/catalyst/core/command.ts:167-169 | `getCommand` finds an entry exactly when one has the name or alias, and then the first such |
| Command.Registry.CallCommand | src/catalyst/core/command.ts:185-196 | the whole line is tokenized; it throws `Unknown command.` exactly when there is no token or no command has the first token's name or alias; otherwise that command is called with the tokens |
| Command.FlattenEmpty | src/catalyst/core/command.ts:188 | non-empty tokens hold no characters only when there are none |
| Command.FirstNamed | src/catalyst/core/command.ts:168 | `find` gives the first entry that the name or alias selects, and none exactly when none does |
| Command.KeepPlaced | src/catalyst/core/command.ts:95-121 | reading an escaped character, or one that is neither a backslash, a quote nor whitespace outside quotes, adds it to the token in progress and keeps every token placed and in order |
| Command.EscapePlaced | src/catalyst/core/command.ts:102-106 | an unescaped backslash only marks the next character as escaped; the tokens stay placed and in order |
| Command.FlushPlacedStep | src/catalyst/core/command.ts:108-119 | an unescaped quote (which toggles quoting) or whitespace outside quotes ends the token in progress, which is placed after the ones before it |
| Command.FinishPlaced | src/catalyst/core/command.ts:124-126 | the end of the line flushes the token in progress, and the tokens are all placed and in order |
| CmdParser.StringParser | src/catalyst/core/cmdparser.ts:318 | the built-in `string` parser gives the first token's text, or undefined when there is none, and no step |
| CmdParser.TypeRegistry.constructor | src/catalyst/core/cmdparser.ts:15-24 | the registry starts with the built-in parsers |
| CmdParser.TypeRegistry.Register | src/catalyst/core/cmdparser.ts:22-24 | `registerCommandTypeParser` adds or replaces the parser under its name and changes nothing else |
| CmdParser.ArgStep | src/catalyst/core/cmdparser.ts:38-67 | `processArg`: an argument whose type has no parser fails with `internal error: type parser of argument is not callable`; a success moves the cursor forward and writes exactly the argument's `dest`; every failure is a `CommandError` of this command line |
| CmdParser.BeforeEqShape | src/catalyst/core/cmdparser.ts:85 | the flag name is the longest prefix without `=`, and is followed by `=` unless it is the whole text |
| CmdParser.AfterEq | src/catalyst/core/cmdparser.ts:86 | what follows the first `=` is shorter than the text, or empty |
| CmdParser.FindLong | src/catalyst/core/cmdparser.ts:88 | a flag found by long name has that long name |
| CmdParser.FindLongFirst | src/catalyst/core/cmdparser.ts:88 | no earlier flag, and none at all when none is found, has the long name |
| CmdParser.FindShort | src/catalyst/core/cmdparser.ts:117 | a flag found by a character has a short name starting with it |
| CmdParser.FindShortFirst | src/catalyst/core/cmdparser.ts:117 | no earlier flag, and none at all when none is found, has a short name starting with the character |
| CmdParser.FindNamedSub | src/catalyst/core/cmdparser.ts:229-241 | a sub-command found for a token is named and has the token as name or alias |
| CmdParser.FindNamedSubFirst | src/catalyst/core/cmdparser.ts:229-241 | no earlier named sub-command, and none at all when none is found, is called by the token |
| CmdParser.Unnamed | src/catalyst/core/cmdparser.ts:226-233 | the unnamed sub-commands among the first `n`, each exactly once and in declaration order |
| CmdParser.ClusterFacts | src/catalyst/core/cmdparser.ts:107-131 | a short-flag cluster writes only flags' keys, ends on a flag of the list, and fails only with a `CommandError` of this command line |
| CmdParser.ClusterNoEqual | src/catalyst/core/cmdparser.ts:107-131 | a cluster without `=` succeeds exactly when each character starts some flag's short name |
| CmdParser.ClusterMarks | src/catalyst/core/cmdparser.ts:129-130 | after a successful cluster every flag it names is set to true |
| CmdParser.ClusterUnknown | src/catalyst/core/cmdparser.ts:119-127 | a failing cluster fails with `unknown flag: -c` for the first character `c` that starts no short name, with its offsets in the token |
| CmdParser.ClusterKeeps | src/catalyst/core/cmdparser.ts:107-131 | a key already true stays true through the cluster |
| CmdParser.FlagArgsFacts | src/catalyst/core/cmdparser.ts:166-204 | the flag-argument loop only moves the cursor forward (not at all once an argument has failed), writes only the arguments' keys, and fails only with a `CommandError` of this command line |
| CmdParser.FlagArgsPresent | src/catalyst/core/cmdparser.ts:172-203 | when the loop succeeds every argument has a value, parsed or default |
| CmdParser.FlagArgsLater | src/catalyst/core/cmdparser.ts:198 | past the first argument, the `=` form makes no difference |
| CmdParser.EqualFormAgrees | src/catalyst/core/cmdparser.ts:197-199 | `--name=value` succeeds only as `--name value` would, with the same result |
| CmdParser.SplitEqualShape | src/catalyst/core/cmdparser.ts:153-163 | the split keeps the tokens before and after the flag and the flag's text, and inserts what follows `=` as an unquoted token right after the flag, none when it is empty |
| CmdParser.SplitLighter | src/catalyst/core/cmdparser.ts:153-163 | the tokens after a split flag weigh less than the flag and what followed it, so the parse terminates |
| CmdParser.FlagChars | src/catalyst/core/cmdparser.ts:77-84 | the text without its dash or dashes is shorter than the token |
| CmdParser.FlagScan | src/catalyst/core/cmdparser.ts:84-132 | the flag lookup writes only flags' keys, ends on a flag of the list if any, and fails only with a `CommandError` of this command line |
| CmdParser.Defaults | src/catalyst/core/cmdparser.ts:283-303 | the remaining arguments all get a value, writing only their keys, or the parse fails with `unexpected end of input` at the end of the line |
| CmdParser.DefaultsFail | src/catalyst/core/cmdparser.ts:283-303 | the trailing defaults fail exactly when a remaining argument is required |
| CmdParser.Finish | src/catalyst/core/cmdparser.ts:283-308 | a frame that ran out of input fills its defaults and sets its `dest` to true, leaving the cursor where it is |
| CmdParser.Parser.ScanCluster | src/catalyst/core/cmdparser.ts:107-131 | the short-flag loop computes the cluster's outcome |
| CmdParser.Parser.ConsumeFlagArgs | src/catalyst/core/cmdparser.ts:166-204 | the flag-argument loop computes the outcome of `FlagArgs` |
| CmdParser.Parser.FillDefaults | src/catalyst/core/cmdparser.ts:283-303 | the defaults loop computes the outcome of `Defaults` |
| CmdParser.Parser.ScanFlag | src/catalyst/core/cmdparser.ts:84-132 | the flag lookup computes the outcome of `FlagScan` |
| CmdParser.Parser.ProcessFlag | src/catalyst/core/cmdparser.ts:76-210 | a bare `--` turns flags off for the rest of the line and is skipped, with the tokens untouched; any other flag token does exactly what `FlagRun` says, to the cursor, the result and the token vector |
| CmdParser.Parser.FlagToken | src/catalyst/core/cmdparser.ts:84-207 | the flag token's outcome and the token vector it leaves are those of `FlagRun`, and flags stay on |
| CmdParser.Parser.NamedFlag | src/catalyst/core/cmdparser.ts:134-207 | `--name=...` on a long flag without arguments fails with `option does not need any argument`; otherwise the outcome and the token vector are those of `NamedRun` |
| CmdParser.Parser.SplitFlag | src/catalyst/core/cmdparser.ts:134-164 | the token vector becomes the split one exactly when the flag holds `=`, and the tokens before the flag are untouched |
| CmdParser.Parser.CompleteFlag | src/catalyst/core/cmdparser.ts:166-207 | on success every argument of the flag has a value and its `dest` is true, and only those keys are written; a flag without arguments only sets its `dest`; the outcome is `Completed`'s |
| CmdParser.Parser.ProcessCmd | src/catalyst/core/cmdparser.ts:70-309 | `processCmd`'s outcome, token vector and flag switch are exactly those of `Process` from the same start; on success it has read to the end of input, wrote only keys of this command and its sub-commands, set its `dest` to true and gave every positional argument a value; failures are `CommandError`s of this command line |
| CmdParser.Parser.ProcessToken | src/catalyst/core/cmdparser.ts:74-279 | one iteration: either the loop goes on from fewer remaining tokens with no fewer arguments read, and `Process` from the new state equals `Process` from the old, or the frame returns what `Process` returns |
| CmdParser.Parser.FlagStep | src/catalyst/core/cmdparser.ts:76-210 | a flag token in the loop: `--` moves on with flags off; another flag fails the frame as `Process` does or moves past the flag's last token, on fewer remaining tokens, where `Process` goes on |
| CmdParser.Parser.PositionalStep | src/catalyst/core/cmdparser.ts:276-280 | the next positional argument: a failed parse ends the frame with its error, a success moves on, with one more argument read and fewer remaining tokens, where `Process` goes on |
| CmdParser.Parser.SubStep | src/catalyst/core/cmdparser.ts:213-275 | the token after the last positional argument does what `SubRun` says: the dispatch, then the frame's `dest` set to true |
| CmdParser.Parser.DispatchSub | src/catalyst/core/cmdparser.ts:213-276 | no sub-commands fails with `too many arguments`; with no named match and no unnamed sub-command it fails with `unknown sub-command: ` and the token; in every case the outcome is `Dispatch`'s |
| CmdParser.Parser.NamedSub | src/catalyst/core/cmdparser.ts:229-241 | a sub-command named by the token runs from the next token on into the frame's map, as `Dispatch` says |
| CmdParser.Parser.UnnamedSubs | src/catalyst/core/cmdparser.ts:246-273 | with no named match and no unnamed sub-command the token fails with `unknown sub-command: ` and the token; otherwise the unnamed ones are tried; the outcome is `Dispatch`'s |
| CmdParser.Parser.RunSub | src/catalyst/core/cmdparser.ts:237 | `processCmd` on a sub-command computes `Process` for it, from the first of its arguments |
| CmdParser.Parser.TryUnnamed | src/catalyst/core/cmdparser.ts:246-273 | the loop over the unnamed sub-commands computes `Attempts` from the first: each tried in order into a fresh map, the first success merged and returned, the first error rethrown when all fail |
| CmdParser.ScanSubs | src/catalyst/core/cmdparser.ts:226-241 | the loop stops at the first sub-command named by the token, and has collected the unnamed ones before it |
| CmdParser.ParseCommand | src/catalyst/core/cmdparser.ts:33-315 | the outcome and the token vector are exactly `ParseRun`'s; on success the map holds only keys of the command, its `dest` is true and every positional argument has a value; failures are `CommandError`s of this command line; the vector only grows; with no token after the name, the result is exactly the defaults plus the `dest` |
| CmdParser.CompletedFacts | src/catalyst/core/cmdparser.ts:166-207 | a flag's arguments then its `dest`: on success the cursor has not moved back, only the flag's keys are written, its `dest` is true and each argument has a value; failures are `CommandError`s of this command line |
| CmdParser.NamedRunLighter | src/catalyst/core/cmdparser.ts:134-207 | a named flag, after the `=` split, leaves fewer tokens after its last one than there were from the flag on, so the frame's loop terminates |
| CmdParser.NamedRunFacts | src/catalyst/core/cmdparser.ts:134-207 | a named flag only lengthens the token vector, writes only its own keys, sets its `dest` to true, and fails only with a `CommandError` of this command line |
| CmdParser.FlagRunLighter | src/catalyst/core/cmdparser.ts:84-207 | a flag token leaves fewer tokens after its last one than there were from the flag on |
| CmdParser.ProcessAtFlag | src/catalyst/core/cmdparser.ts:84-210 | at a flag token other than `--` the frame fails as the flag does, or goes on from the token after the flag's last one with the map the flag left |
| CmdParser.FlagOutcome | src/catalyst/core/cmdparser.ts:84-210 | the loop returns exactly when the flag failed; otherwise it moves past the flag's last token with the flag's map and the same argument count |
| CmdParser.FlagOutcomeRun | src/catalyst/core/cmdparser.ts:84-210 | the step after a flag token agrees with `Process`, on fewer remaining tokens |
| CmdParser.FlagRunFacts | src/catalyst/core/cmdparser.ts:84-207 | a flag token only lengthens the token vector, writes only keys of the command's flags, and fails only with a `CommandError` of this command line |
| CmdParser.ProcessFacts | src/catalyst/core/cmdparser.ts:70-309 | a frame only lengthens the token vector and turns flags off only through `--`; on success it read to the end, wrote only its command's keys (only positional ones once flags are off), set its `dest` and gave every positional argument a value |
| CmdParser.FlagBranchFacts | src/catalyst/core/cmdparser.ts:76-210 | the same for a frame whose next token is a flag other than `--` |
| CmdParser.ArgBranchFacts | src/catalyst/core/cmdparser.ts:276-280 | the same for a frame whose next token is its next positional argument |
| CmdParser.SubRunFacts | src/catalyst/core/cmdparser.ts:211-276 | the same for a frame whose positional arguments are all read and whose next token goes to a sub-command |
| CmdParser.DispatchFacts | src/catalyst/core/cmdparser.ts:213-276 | a sub-command dispatch writes only keys of the command's sub-commands and reads to the end of input |
| CmdParser.AttemptsFacts | src/catalyst/core/cmdparser.ts:246-273 | trying the unnamed sub-commands writes only keys of the command's sub-commands, reads to the end on success, and fails only with a `CommandError` of this command line |
| CmdParser.AttemptSucceeds | src/catalyst/core/cmdparser.ts:256-270 | an unnamed sub-command that succeeds is merged into the frame's map, which then holds only the command's keys |
| CmdParser.FirstErrorRethrown | src/catalyst/core/cmdparser.ts:254-273 | when every remaining unnamed sub-command fails, the error thrown is the first attempt's, whatever the later ones threw |
| CmdParser.DispatchRethrowsFirst | src/catalyst/core/cmdparser.ts:246-273 | a dispatch with no named match fails only with the error of the first unnamed sub-command, run from the same token into a fresh map |
| Selector.BaseText | src/catalyst/core/selector.ts:8-33 | each base selector is written as `@` and a name, without brackets |
| Selector.KeyIndex | src/catalyst/core/selector.ts:181 | the objective's place in the record, and none exactly when it is not there |
| Selector.SetScore | src/catalyst/core/selector.ts:180-183 | an objective already in the record keeps its place and takes the new value; a new one goes at the end |
| Selector.SetScoreKeys | src/catalyst/core/selector.ts:180-183 | the record never holds an objective twice, and after setting an objective it reads the value set |
| Selector.Each | src/catalyst/core/selector.ts:337 | one argument per value, each the prefix followed by the value, in order |
| Selector.ScoreTexts | src/catalyst/core/selector.ts:353-364 | one entry per objective |
| Selector.ItemTexts | src/catalyst/core/selector.ts:387-395 | one object per item |
| Selector.EmptyGroups | src/catalyst/core/selector.ts:336-374 | each group of arguments is empty exactly when nothing in it is set |
| Selector.EmptyStatus | src/catalyst/core/selector.ts:376-397 | the rotation, level, mode and item arguments are empty exactly when none of them is set |
| Selector.Brackets | src/catalyst/core/selector.ts:332-402 | there are brackets exactly when some criterion is recorded; otherwise the selector is its base alone |
| Selector.DefaultSelector | src/catalyst/core/selector.ts:51-53 | a new builder writes `@s` |
| Selector.ScoresWritten | src/catalyst/core/selector.ts:353-365 | each score entry is `objective=value`, a range leaving out a missing bound, in insertion order, and a non-empty record gives one `scores={...}` argument |
| Selector.ItemsWritten | src/catalyst/core/selector.ts:396-397 | no item gives no argument, one item `hasitem={...}`, several `hasitem=[...]` |
| Selector.Selector.constructor | src/catalyst/core/selector.ts:51-53 | a new builder records only its base |
| Selector.Selector.Type | src/catalyst/core/selector.ts:63-67 | a plain type replaces the earlier one; a negated type is appended; nothing else changes |
| Selector.Selector.Count | src/catalyst/core/selector.ts:76-79 | sets the count and nothing else |
| Selector.Selector.X | src/catalyst/core/selector.ts:93-97 | sets `x` and whether it is relative, and nothing else |
| Selector.Selector.Y | src/catalyst/core/selector.ts:104-108 | sets `y` and whether it is relative, and nothing else |
| Selector.Selector.Z | src/catalyst/core/selector.ts:115-119 | sets `z` and whether it is relative, and nothing else |
| Selector.Selector.MinRadius | src/catalyst/core/selector.ts:128-131 | sets `rm` and nothing else |
| Selector.Selector.MaxRadius | src/catalyst/core/selector.ts:137-140 | sets `r` and nothing else |
| Selector.Selector.Length | src/catalyst/core/selector.ts:150-153 | sets `dx` and nothing else |
| Selector.Selector.Height | src/catalyst/core/selector.ts:159-162 | sets `dy` and nothing else |
| Selector.Selector.Width | src/catalyst/core/selector.ts:168-171 | sets `dz` and nothing else |
| Selector.Selector.Scores | src/catalyst/core/selector.ts:180-183 | sets the objective in the score record and nothing else |
| Selector.Selector.Name | src/catalyst/core/selector.ts:193-197 | a plain name replaces the earlier one; a negated name is appended; nothing else changes |
| Selector.Selector.Tag | src/catalyst/core/selector.ts:207-211 | appends the tag to the plain or the negated tags, and nothing else |
| Selector.Selector.Family | src/catalyst/core/selector.ts:221-225 | appends the family to the plain or the negated families, and nothing else |
| Selector.Selector.MinXrot | src/catalyst/core/selector.ts:236-239 | sets `rxm` and nothing else |
| Selector.Selector.MaxXrot | src/catalyst/core/selector.ts:245-248 | sets `rx` and nothing else |
| Selector.Selector.MinYrot | src/catalyst/core/selector.ts:254-257 | sets `rym` and nothing else |
| Selector.Selector.MaxYrot | src/catalyst/core/selector.ts:263-266 | sets `ry` and nothing else |
| Selector.Selector.MinLvl | src/catalyst/core/selector.ts:275-278 | sets `lm` and nothing else |
| Selector.Selector.MaxLvl | src/catalyst/core/selector.ts:284-287 | sets `l` and nothing else |
| Selector.Selector.Mode | src/catalyst/core/selector.ts:296-299 | sets the game mode and nothing else |
| Selector.Selector.AddItem | src/catalyst/core/selector.ts:317-326 | appends the item and nothing else |
| Selector.Selector.ToString | src/catalyst/core/selector.ts:332-402 | `toString` writes exactly the rendering of the recorded criteria |
| Selector.EachArgs | src/catalyst/core/selector.ts:337 | the `forEach` pushes each value behind the prefix, in order |
| Selector.ScoreArgs | src/catalyst/core/selector.ts:352-365 | the loop over the score record gives the `scores` argument, if any |
| Selector.ItemArgs | src/catalyst/core/selector.ts:386-397 | the loop over the items gives the `hasitem` argument, if any |
| RawText.Extend | src/catalyst/core/rawtext.ts:118-122 | a rawtext argument replaces what was there; strings are added to an earlier list of strings, in order, and replace anything else |
| RawText.ExtendTwice | src/catalyst/core/rawtext.ts:120-121 | two `with` calls with strings add up to one call with both lists |
| RawText.WithLast | src/catalyst/core/rawtext.ts:115-124 | only a last node that is a translation changes; every other node, and a list whose last node is of another kind, stays |
| RawText.TranslateWithStrings | src/catalyst/core/rawtext.ts:100-124 | a translation followed by two `with` calls with strings carries both lists of arguments, in order, and the nodes before it are untouched |
| RawText.StrValues | src/catalyst/core/rawtext.ts:180-185 | string arguments are written as JSON strings, one per argument |
| RawText.NodeRoundTrip | src/catalyst/core/rawtext.ts:177-188 | every node is read back from its JSON object as itself |
| RawText.RawRoundTrip | src/catalyst/core/rawtext.ts:177-188 | `toJSON` loses nothing: the rawtext is read back from it |
| RawText.RawJsonInjective | src/catalyst/core/rawtext.ts:177-188 | different rawtexts have different JSON forms |
| RawText.RawText.constructor | src/catalyst/core/rawtext.ts:71-73 | the builder holds the given nodes |
| RawText.RawText.Append | src/catalyst/core/rawtext.ts:158-161 | the node goes at the end |
| RawText.RawText.Prepend | src/catalyst/core/rawtext.ts:168-171 | the node goes at the start |
| RawText.RawText.Text | src/catalyst/core/rawtext.ts:87-92 | a text node at the start or the end |
| RawText.RawText.Translate | src/catalyst/core/rawtext.ts:100-105 | a translation node without arguments at the start or the end |
| RawText.RawText.Selector | src/catalyst/core/rawtext.ts:132-137 | a selector node at the start or the end |
| RawText.RawText.Score | src/catalyst/core/rawtext.ts:146-151 | a score node at the start or the end |
| RawText.RawText.With | src/catalyst/core/rawtext.ts:113-124 | the arguments go to the last node when it is a translation |
| RawText.RawText.ToJson | src/catalyst/core/rawtext.ts:177-188 | the JSON form, from which the nodes read back |
| Locale.DigitsEnd | src/catalyst/core/locale.ts:73-78 | `getNum` takes the maximal run of decimal digits: every character in it is a digit and the one after it is not |
| Locale.LeadingDigit | src/catalyst/core/locale.ts:130-131 | an argument index, which starts with a digit from 1 to 9, is at least 1 |
| Locale.ArgIndexAt | src/catalyst/core/locale.ts:129-133 | either no argument index (-1, position unchanged) or an index of at least 1 whose text ends with `$` |
| Locale.FlagsFrom | src/catalyst/core/locale.ts:135-143 | the flag loop moves forward within the format and leaves the argument index alone |
| Locale.Normalize | src/catalyst/core/locale.ts:145-147 | `+` switches the space flag off and `-` the `0` flag; the other flags are kept |
| Locale.FieldAt | src/catalyst/core/locale.ts:152-162 | a field width is read forward and stays within the format |
| Locale.PrecisionAt | src/catalyst/core/locale.ts:164-179 | the precision part stays within the format; its only error is an incomplete placeholder (a `.` at the end) |
| Locale.LengthAt | src/catalyst/core/locale.ts:181-194 | the length modifier (with a doubled `h` or `l`) is read forward within the format |
| Locale.HeadAt | src/catalyst/core/locale.ts:109-147 | the head of a placeholder ends after the `%` and has consistent flags |
| Locale.TailAt | src/catalyst/core/locale.ts:152-207 | a placeholder that is read spans exactly its text and ends at a known specifier; otherwise the error is an incomplete placeholder or an unknown specifier |
| Locale.PlaceholderAt | src/catalyst/core/locale.ts:109-207 | a placeholder spans at least `%` and one character, its text is what it spans, it ends at its specifier and is valid; the only errors are incomplete and unknown specifier |
| Locale.TextEnd | src/catalyst/core/locale.ts:89-94 | literal text runs up to the next `%` or the end of the format, and holds no `%` |
| Locale.AddText | src/catalyst/core/locale.ts:95-102 | empty text adds nothing; text after a literal token is appended to it; otherwise it becomes a new literal token |
| Locale.AddTextWellFormed | src/catalyst/core/locale.ts:95-102 | adding text keeps the token list free of empty and adjacent literals |
| Locale.AddPlaceholderWellFormed | src/catalyst/core/locale.ts:209-218 | adding a placeholder (or the literal `%` of `%%`) keeps the token list well formed |
| Locale.ParseFromWellFormed | src/catalyst/core/locale.ts:86-220 | every successful parse from a well-formed list yields a well-formed list |
| Locale.ParseAtWellFormed | src/catalyst/core/locale.ts:109-219 | the same, from a placeholder position |
| Locale.ParseWellFormed | src/catalyst/core/locale.ts:66-224 | `parseFormat` never yields an empty literal or two literals in a row, and each placeholder has consistent flags, an argument index of -1 or at least 1, and a specifier other than `%` |
| Locale.AddTextFlat | src/catalyst/core/locale.ts:95-102 | merging literal text appends exactly that text to the flat text of the tokens |
| Locale.AddTextPercent | src/catalyst/core/locale.ts:95-102 | a `%` in literal text survives merging |
| Locale.ParseFromFlat | src/catalyst/core/locale.ts:86-220 | from any position, the tokens put together give back the rest of the format, when no `%%` was met |
| Locale.TextFlat | src/catalyst/core/locale.ts:89-102 | one literal step adds its text to the flat text |
| Locale.ParseAtFlat | src/catalyst/core/locale.ts:109-219 | from a placeholder, the tokens put together give back the rest of the format, when no `%%` was met |
| Locale.PlaceholderFlat | src/catalyst/core/locale.ts:206-218 | one placeholder step adds the placeholder's text to the flat text |
| Locale.ParseReassembles | src/catalyst/core/locale.ts:66-224 | when no `%%` was met, the literals and the placeholder texts put together give back the format string |
| Locale.ParseLiteral | src/catalyst/core/locale.ts:86-102 | a format without `%` is one literal token, or none when it is empty |
| Locale.EscapedPercent | src/catalyst/core/locale.ts:199-207 | `%%` is a two-character placeholder with specifier `%` |
| Locale.EscapedPercentParse | src/catalyst/core/locale.ts:209-216 | `%%` adds a `%` to the literal text and the parse goes on after it |
| Locale.TrailingPercent | src/catalyst/core/locale.ts:103-105 | a `%` at the end of the format is the trailing-`%` error |
| Locale.MissingSpecifier | src/catalyst/core/locale.ts:196-197 | a placeholder that stops after its argument index is incomplete |
| Locale.UnknownSpecifier | src/catalyst/core/locale.ts:199-201 | a character that is not a flag, width, precision, length modifier or specifier after the `%` is reported as unknown |
| Locale.DotWithoutNumber | src/catalyst/core/locale.ts:164-179 | a `.` followed by neither a digit nor `*` leaves the precision unset |
| Locale.NextArg | src/catalyst/core/locale.ts:238-245 | an error exactly when an explicit index is past the arguments (missing) or the cursor is at the end (insufficient); index -1 takes the argument at the cursor and advances it |
| Locale.FieldValue | src/catalyst/core/locale.ts:258-274 | an unset width or precision reads nothing; a written one is its number; `*` takes the next argument and fails unless it is a number |
| Locale.ZeroFill | src/catalyst/core/locale.ts:352 | the `0` flag without `-` puts only zeros in front, up to the width; otherwise the text is unchanged |
| Locale.Convert | src/catalyst/core/locale.ts:284-435 | the conversion fails exactly when a numeric specifier gets a non-number, `s` a non-string, or `c` neither; `s` writes the string cut to the precision; `c` writes one character |
| Locale.Padded | src/catalyst/core/locale.ts:535-537 | space padding to the width, on the right with `-` and on the left otherwise, keeping the field whole |
| Locale.ApplyToken | src/catalyst/core/locale.ts:248-540 | a literal is copied and reads nothing; a placeholder advances the cursor by the arguments it reads and fails with insufficient arguments at the end of the list |
| Locale.ZeroPrefixValue | src/catalyst/core/locale.ts:350-352 | zeros in front of digits do not change their value |
| Locale.PadZerosValue | src/catalyst/core/locale.ts:350 | padding with zeros to a precision keeps the value |
| Locale.ZeroFillValue | src/catalyst/core/locale.ts:352 | zero filling to the width keeps the value |
| Locale.PaddedDigitsValue | src/catalyst/core/locale.ts:350-352 | the digits of a number, padded to a precision and then a width, still read as that number |
| Locale.UnsignedValue | src/catalyst/core/locale.ts:423-435 | `u` writes the number modulo 2^32 in decimal; only 0 with precision 0 writes nothing |
| Locale.OctalValue | src/catalyst/core/locale.ts:359-382 | `o` writes the magnitude in octal, the `#` zero included; 0 with precision 0 writes `0` with `#` and nothing without |
| Locale.BinaryValue | src/catalyst/core/locale.ts:385-400 | `b` writes the binary digits of the number, after `0b` with `#` |
| Locale.HexValue | src/catalyst/core/locale.ts:403-420 | `x` writes the hexadecimal digits of the number, after `0x` with `#` |
| Locale.SignedValue | src/catalyst/core/locale.ts:338-355 | `d`/`i` (as intended): the sign first, then digits worth the magnitude |
| Locale.MagnitudeValue | src/catalyst/core/locale.ts:350-352 | the digits after the sign are worth the magnitude and, with the `0` flag, fill at least the width |
| Locale.ZerosBeforeSign | src/catalyst/core/locale.ts:343-352 | as written, `%05d` of a negative number starts with `0`; the intended conversion starts with `-` |
| Locale.PrecisionBeforeSign | src/catalyst/core/locale.ts:343-350 | as written, `%.3d` of a negative number starts with `0`; the intended conversion starts with `-` |
| Locale.ApplyLiterals | src/catalyst/core/locale.ts:248-253 | literal tokens are copied verbatim and in order, and read no argument |
| Locale.FormatLiteral | src/catalyst/core/locale.ts:555-557 | a format without `%` formats to itself whatever the arguments |
| Locale.ReadHead | src/catalyst/core/locale.ts:109-147 | the argument-index and flag part of the parse loop computes the placeholder head |
| Locale.ReadPlaceholder | src/catalyst/core/locale.ts:109-207 | the placeholder part of the parse loop computes the placeholder at the `%` |
| Locale.ReadText | src/catalyst/core/locale.ts:87-94 | the literal part of the parse loop reads up to the next `%` |
| Locale.ParseFormat | src/catalyst/core/locale.ts:66-224 | the `parseFormat` loop computes the parse, whose properties are proved above |
| Locale.ApplyFormat | src/catalyst/core/locale.ts:233-546 | the `applyFormat` loop computes the token-by-token application |
| Locale.FormatString | src/catalyst/core/locale.ts:555-557 | `formatString` is `applyFormat` of `parseFormat` |

## Left out

- The chat-event subscription that feeds chat lines to the registry (src/catalyst/core/command.ts:199-232) is game I/O and is not part of this model.
- `getAllCommands` is not modelled: entries are values here, so its shallow copy is the `entries` field itself.
- The `commandRegistered`, `commandDeregistered` and `commandRun` events that the registry dispatches are not modelled. Their listeners are foreign code.
- Command.Registry.CallCommand: the command's callback is foreign code. The entry holds an opaque handle, and the method returns the call it would make (entry and tokens) instead of running it.
- CmdParser.TypeRegistry.Register: custom type parsers are Dafny functions from the remaining tokens to a value and a step, a `CommandError` or another exception. A negative step has no counterpart, because the step is a `nat`.
- The caret-annotated rendering of a `CommandError` is not modelled.
- The text of a wrapped non-`CommandError` exception is the `trace` string carried by `Crashed`. The runtime's stack trace itself is not modelled.
- Locale.Convert: the floating-point conversions (`f`, `F`, `e`, `E`, `g`, `G`, `a`, `A`, and `?` on a number) are a `FloatFormat` parameter. They rely on logarithms, `toFixed` and regular-expression rewriting.
- Locale.Convert: numbers are integers, so the `Math.round` the integer conversions apply is not modelled. Only safe integers (magnitude below 2^53, so below 10^21) are written as JavaScript writes them: `d`, `i` and `u` of a larger integer print every digit here, where JavaScript loses precision beyond 2^53 and switches to exponent form (`1e+21`) from 10^21 on.
- Locale.HexValue: proved for `x` only. `X` is the same digits upper-cased by `AsciiUpper`.
- Locale.ParseFormat: the slice `getNum` reads is bounded by the format string. Numbers too large for a JavaScript double are kept exact here.
- Locale.Convert: `c` of a number gives the UTF-16 code unit modulo 2^16. A lone surrogate is not a Dafny `char`, so it becomes U+FFFD.
- The Selector builders take integer numbers. The JavaScript text of a non-integer number is not modelled, and `Selector.Number` and `CoordArg` write the text of safe integers only (magnitude below 2^53, so below 10^21): a larger integer prints every digit here, where JavaScript loses precision and from 10^21 on writes exponent form.
- RawText.RawText.With: `with` changes the last node in place. A `RawText` passed to it is held by value, so later changes to that object are not seen through the node.
- `RawText.toString` is `JSON.stringify` of the `toJSON` form and is not modelled. `toJSON` is.
- Events: listener callbacks are not modelled. An exception from one is caught and dispatch continues, so the model keeps only which listeners run and how many.
- Events.EventManager.Prepend: `prepend` and `prependOnce` append, exactly as written. The `prepend` argument of `addEventListener` is ignored by the source.
- Plugin.Registry.LoadPlugin: a plugin's startup function is foreign. It is modelled as the list of plugin ids it loads through `require`, in order.
- Database: `JSON.stringify`, `JSON.parse` and the host's dynamic-property storage are foreign. The first two are parameters, and the host is a class holding a map from property id to stored value.
- Logger: the console is modelled as the list of what it has received on each channel.
- Colorize.Colorize: an object is the list of its `Object.entries`. The host's key order is not modelled, and numbers are integers; a `Num` is written as JavaScript writes it only for safe integers (magnitude below 2^53, so below 10^21), a larger one printing every digit here instead of the rounded or exponent form (`1e+21`).
- Colorize.Colorize: a symbol reaches the final template literal of src/server/utils.ts:15, which throws a TypeError; the model has no symbol value (`Json.Other` is a function or a bigint), so that throw is not modelled.
- Database.Lookup: the cache is a Dafny map, while the source's `_cache` is a `{}` literal that also sees `Object.prototype` members. The model assumes no key is such a member name (`toString`, `constructor`, ...) or `__proto__`: for those `get` would return the inherited member and `set("__proto__", v)` would replace the prototype instead of storing a key.
- Database.Present: `has` of an `Object.prototype` member name is true in the source on a fresh database; keys are assumed never to be such names or `__proto__`, as for Database.Lookup.
- Database.Database.Del: returns the documented result, true only when the key existed, as corrected in `Database.Deleted`. As written `del` returns the result of `delete`, which is always true; see Findings and `Database.DelReportsAbsentKey`.
- Database.Deleted: keys are assumed never to be `Object.prototype` member names or `__proto__`, as for Database.Lookup.
- Database.Database.Load: the stored text is assumed to parse to an object. The source stores whatever `JSON.parse` returns, so a stored `5` or `null` leaves `_cache` a non-object and a later `get` on `null` throws; the `parse` parameter returns a `Cache` and cannot produce that.
- CmdParser.ArgStep: the type-parser registry is a Dafny map, while the source's `typeParsers` is a `{}` literal. A grammar type naming an `Object.prototype` member (`constructor` resolves to the callable `Object`) would be called in the source instead of failing with `not callable`; grammar types are assumed never to be such names.
- Permissions.Player.AddTag: a player's tags are a set, as the host keeps them. The host's tag order is not modelled.
- Help: building the list from the registered commands' help and sorting it are not modelled, and neither is sending the message. The paging takes the list as given.
- Home: sending messages and teleporting the player are game I/O. The model gives the home found, the table after a change and the message text.
- Help.HelpListing: pages through the corrected window `HelpWindow`, which falls back to page 1 when no page was given. As written the listing is empty in that case; see Findings and `Help.NoPageListsNothing`.
- Events.EventManager.Emit: dispatches through the corrected `DispatchEvent`, which runs every listener once. As written, a listener that follows a `once` listener is skipped; see Findings and `Events.SkipAfterOnce`.
- Plugin.Plugin.constructor: the `pluginRegistered` dispatch is the corrected one; the as-written skip after a `once` listener is not modelled here (see Findings).
- Plugin.Registry.Activate: the `pluginLoaded` dispatch is the corrected one; the as-written skip after a `once` listener is not modelled here (see Findings).
- Plugin.Registry.UnloadPlugin: the `pluginUnload` and `pluginUnloaded` dispatches are the corrected ones; the as-written skip after a `once` listener is not modelled here (see Findings).
- Plugin.Registry.LoadPlugin: returns the exports object created before the startup function runs. A startup function that assigns a new object to `module.exports` changes what the source returns; that reassignment is not modelled.
- Locale.Convert: `d` and `i` put the sign before the padding zeros, as corrected in `Signed` (proved in `Locale.SignedValue`). As written the zeros go in front of the sign; see Findings and `Locale.ZerosBeforeSign`.
- Locale.ApplyToken: uses the corrected `d`/`i` conversion of `Locale.Convert` (see Findings).
- Locale.ApplyFormat: uses the corrected `d`/`i` conversion of `Locale.Convert` (see Findings).
- Locale.FormatString: uses the corrected `d`/`i` conversion of `Locale.Convert` (see Findings).
- Selector.SetScore: the score record keeps insertion order. JavaScript's `Object.entries` lists integer-like keys first, in ascending order, and then the other keys in insertion order; that ordering is not modelled.
- Selector.ScoresWritten: entries are written in insertion order; the integer-like-keys-first order of `Object.entries` is not modelled.
- Selector.Selector.Scores: the integer-like-keys-first order of the score record's keys is not modelled.
- Selector.ScoreArgs: writes the entries in insertion order; the integer-like-keys-first order of `Object.entries` is not modelled.
- Selector.Selector.ToString: the `scores` argument lists objectives in insertion order; the integer-like-keys-first order of `Object.entries` is not modelled.
- Strings are sequences of Dafny characters (Unicode scalar values), not UTF-16 code units. A character outside the Basic Multilingual Plane counts as one here and two in JavaScript. This changes token `start`/`end` offsets and `CommandError` offsets, the 32767 bound on a stored JSON text's length, `padStart`/`padEnd` widths and the `%.Ns` cut, `%c` of a string that starts with such a character (a lone surrogate in JavaScript), and the `/§./g` colour-code strip when `§` precedes such a character.
- thread.ts, forms.ts, shop.ts, math.ts, the chat filter and the remaining command callbacks are outside the modelled core.

## Findings

| source | as written | input that shows it | evidently intended | confidence | as-written member | corrected member |
|---|---|---|---|---|---|---|
| src/server/commands/help.ts:73-75 | `Math.min(args.page, maxPage) - 1` reads `args.page`, which is undefined when no sub-command ran, giving NaN for the page, start and end | `help` with no argument and at least one command: the loop from NaN to NaN lists nothing | the argument's declared default page 1, listing the first page | high (not executed) | Help.NoPageListsNothing | Help.HelpWindow |
| src/catalyst/core/database.ts:118-120 | `del` returns the result of `delete`, which is true for an own property whether or not it existed | `del("money")` on an empty cache returns true | true only when the key existed and was removed, as its doc comment says | high (not executed) | Database.DelReportsAbsentKey | Database.Database.Del |
| src/catalyst/core/events.ts:80-99 | `forEach` iterates the array it splices a `once` listener out of, so the next listener moves to an index already visited | a `once` listener followed by another listener for the same event: `dispatchEvent` runs only the first and returns 1 | every listener for the event runs once, and the `once` ones are removed | medium (not executed) | Events.SkipAfterOnce | Events.EventManager.DispatchEvent |
| src/catalyst/core/locale.ts:343-352 | `d` and `i` pad the digits together with their `-`, so zeros land in front of the sign (section 7.21.6.1 of ISO/IEC 9899:2011 puts the sign first) | `%05d` of -42 gives `00-42`, `%.3d` of -5 gives `0-5` | `-0042` and `-005` | medium (not executed) | Locale.ZerosBeforeSign | Locale.SignedValue |
