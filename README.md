# RPGDataFumbler-Ni: event interpreter, game parser and translator

RPGDataFumbler-Ni translates the text of RPG Maker MV/MZ games with a
language-model completion service. This project models and proves four parts
of it:

- **The event interpreter.** It decompiles a page's raw event commands into
  semantic events:
  - runs of "show text" / "add text" lines become one `EventText` block, and
    an MV speaker name can be predicted from the first line;
  - choice menus become `EventChoice`;
  - KMS ActiveMessage comments become their plugin event.

  It also compiles semantic events back into commands.
- **The game parser.**
  - It recognises a data file by the keys of its second entry.
  - It extracts translation containers, positional keys to source text
    (`L_xx` for event text, `IT_xxxx` for items).
  - It merges the answered containers into one source-to-translation map.
  - It writes that map back into maps, common events and items.
- **The translation container and prompt configuration**
  (`TranslationContainer.get_text_map`, `PromptConfig`).
- **The translator.**
  - It cuts a container into chunks.
  - It runs the retry loop on each completion: fence extraction, JSON
    decoding, key count, leftover Japanese text, per-key checks, bracket
    counters and the full-width post-fix.
  - It keeps the conversation window of `do_container`.
  - It writes the finished containers back by index in the batched driver.

Layout, one module per source file:

| module | file | models |
|---|---|---|
| `Common` | `common.dfy` | JSON values, `Option`/`Result`, and the Python string operations used |
| `Dict` | `dict.dfy` | insertion-ordered Python dicts |
| `EventBase` | `event_base.dfy` | raw event records and command codes |
| `ActiveMessage` | `active_message.dfy` | `KMSActiveMessage.py` |
| `EventCommon` | `event_common.dfy` | `EventCommon.py` |
| `EventInterpreter` | `event_interpreter.dfy` | `EventInterpreter.py` |
| `FumblerModels` | `fumbler_models.dfy` | `FumblerModels.py` |
| `GameParser` | `game_parser.dfy` | `GameParser.py` |
| `Translator` | `translator.dfy` | `Translator.py` |

Modelling choices:

- **Objects the source mutates are classes.** These are the interpreter with
  its cursor, `EventText`, `EventChoice`, the ActiveMessage event and
  `PromptConfig`. Their methods are proved against pure specification
  functions on values (`TextBlock`, `SemValue`).
- **Loops become methods.** The apply, prepare and translate loops are
  methods with loop invariants, each proved equal to a recursive
  specification function. Lemmas state the properties of those functions.
- **Python dicts are association lists.** Insertion order fixes chunking and
  last-write-wins.
- **Python exceptions are `Result.Err` values.** Their kinds (KeyError,
  IndexError, TypeError, ...) indicate which error the source raises.

## Model

| member | source | states |
|---|---|---|
| Common.Iterate | FumblerLibrary/Parsers/RPGMVMZ/EventsModels/EventCommon.py:57 | `tuple(x)` of a JSON value: a list gives its items; a string or object also iterates; anything else cannot be iterated |
| Common.Chars | FumblerLibrary/Parsers/RPGMVMZ/EventsModels/EventCommon.py:57 | iterating a string gives its characters, one string each, in order |
| Common.KeyStrings | FumblerLibrary/Parsers/RPGMVMZ/EventsModels/EventCommon.py:57 | iterating an object gives its keys in insertion order |
| Common.Len | FumblerLibrary/Parsers/RPGMVMZ/GameParser.py:231-245 | `len(itemtl)` is defined exactly where iteration is, and equals the number of elements iterated |
| Common.ElemAt | FumblerLibrary/Parsers/RPGMVMZ/GameParser.py:235-243 | `itemtl[i]` succeeds exactly for an in-range index of a list or string; a list gives its i-th item |
| Common.LStrip | FumblerLibrary/Parsers/RPGMVMZ/EventInterpreter.py:87 | the result is a suffix of the input; everything removed is whitespace; the result does not start with whitespace |
| Common.RStrip | FumblerLibrary/Parsers/RPGMVMZ/EventInterpreter.py:87 | the result is a prefix of the input; everything removed is whitespace; the result does not end with whitespace |
| Common.StripFirst | FumblerLibrary/Parsers/RPGMVMZ/EventInterpreter.py:87-88 | `strip()` is empty iff the string is all whitespace; otherwise its first character is the first non-whitespace character of the input |
| Common.StripIdempotent | FumblerLibrary/Parsers/RPGMVMZ/EventInterpreter.py:88 | stripping twice is stripping once, so the second `strip()` at line 88 changes nothing |
| Common.Strip | FumblerLibrary/Parsers/RPGMVMZ/EventInterpreter.py:87-88 | `strip()` is never longer than its input, and a non-empty result neither starts nor ends with whitespace |
| Common.Split | FumblerLibrary/Parsers/RPGMVMZ/EventsModels/EventCommon.py:45 | `split("\n")` gives at least one part, and no part contains the separator |
| Common.JoinSplit | FumblerLibrary/Parsers/RPGMVMZ/EventsModels/EventCommon.py:45 | joining the parts of a split with the separator gives back the original string |
| Common.SplitNoSep | FumblerLibrary/Parsers/RPGMVMZ/EventsModels/EventCommon.py:45 | a string without the separator splits into itself alone |
| Common.JoinSnoc | FumblerLibrary/Parsers/RPGMVMZ/EventInterpreter.py:139-142 | joining one more part appends the separator and the part; a single part joins to itself |
| Common.Join | FumblerLibrary/Parsers/RPGMVMZ/EventInterpreter.py:139-142 | `sep.join(parts)` of at least one part starts with the first part |
| Common.NatToStringValue | FumblerLibrary/Parsers/RPGMVMZ/GameParser.py:101 | `str(n)` is a non-empty digit string whose decimal value is n |
| Common.PaddedIndexValue | FumblerLibrary/Parsers/RPGMVMZ/GameParser.py:308 | `str(n).zfill(w)` has at least w characters, all digits, still with value n |
| Common.PaddedIndex | FumblerLibrary/Parsers/RPGMVMZ/GameParser.py:308 | `str(n).zfill(w)` has at least w characters and never fewer than `str(n)` |
| Common.PaddedIndexInjective | FumblerLibrary/Parsers/RPGMVMZ/GameParser.py:101 | two different indices never get the same zero-padded key |
| Common.PrefixedIndexInjective | FumblerLibrary/Parsers/RPGMVMZ/GameParser.py:308 | `IT_`/`L_` keys of different indices differ |
| Common.Upper | FumblerLibrary/FumblerModels.py:89 | `upper()` keeps the length and maps each character through the upper-case map |
| Dict.KeysOf | FumblerLibrary/FumblerModels.py:90 | `d.keys()`: one key per entry, in insertion order |
| Dict.Get | FumblerLibrary/FumblerModels.py:93 | a lookup fails exactly when the key is absent |
| Dict.GetAt | FumblerLibrary/FumblerModels.py:93 | in a dict without duplicate keys, each entry's key looks up its own value |
| Dict.Put | FumblerLibrary/FumblerModels.py:93 | `d[k] = v`: k then maps to v, every other key is unchanged, and a new key goes last with the existing order kept |
| Dict.PutNoDup | FumblerLibrary/FumblerModels.py:93 | assignment keeps keys unique |
| Dict.UpdateSnoc | FumblerLibrary/Parsers/RPGMVMZ/GameParser.py:113 | `d.update(e)` with one more entry is the update followed by one assignment |
| Dict.Update | FumblerLibrary/Parsers/RPGMVMZ/GameParser.py:113 | `d.update(e)` keeps every key of d and holds every key of e |
| Dict.UpdateGet | FumblerLibrary/Parsers/RPGMVMZ/GameParser.py:113 | after `d.update(e)`, a key of e maps to e's value and every other key keeps d's |
| Dict.UpdateNoDup | FumblerLibrary/Parsers/RPGMVMZ/GameParser.py:113 | update keeps keys unique |
| Dict.UpdateLastWins | FumblerLibrary/Translators/OpenAICompatible/Translator.py:232 | a key's last occurrence in the update wins |
| Dict.UpdateAbsent | FumblerLibrary/Parsers/RPGMVMZ/GameParser.py:113 | a key the update does not mention keeps its old lookup |
| Dict.MapKeysInOrder | FumblerLibrary/Parsers/RPGMVMZ/GameParser.py:115-117 | the re-keying loop, assigning `remapped[f(k)] = v` in order, builds the re-keyed dict |
| Dict.MapKeys | FumblerLibrary/Parsers/RPGMVMZ/GameParser.py:114-118 | the re-keyed dict holds the transformed key of every entry |
| Dict.MapKeysPairs | FumblerLibrary/Parsers/RPGMVMZ/GameParser.py:115-117 | the pairs visited are the entries with their keys transformed, in order |
| Dict.MapKeysGet | FumblerLibrary/FumblerModels.py:89 | in a re-keyed dict, a key nothing maps to is absent; otherwise it holds the value of the last entry mapping to it |
| Dict.MapKeysInjective | FumblerLibrary/Parsers/RPGMVMZ/GameParser.py:114-118 | under an injective key transformation, the new key of k looks up what k did |
| ActiveMessage.SpaceEnd | FumblerLibrary/Parsers/RPGMVMZ/EventsModels/KMSActiveMessage.py:7 | the greedy `\s*` run: everything up to the result is whitespace and the next character is not |
| ActiveMessage.CloseFrom | FumblerLibrary/Parsers/RPGMVMZ/EventsModels/KMSActiveMessage.py:7 | the greedy `[^>]` run ends at the first `>` or the end of the string |
| ActiveMessage.CaptureAt | FumblerLibrary/Parsers/RPGMVMZ/EventsModels/KMSActiveMessage.py:7 | `([^>]+)>`: a captured payload is non-empty, has no `>` and is followed by `>` |
| ActiveMessage.AfterSeparator | FumblerLibrary/Parsers/RPGMVMZ/EventsModels/KMSActiveMessage.py:7 | the `\s*` after the separator, backtracking shorter: any capture starts within the whitespace run |
| ActiveMessage.Separator | FumblerLibrary/Parsers/RPGMVMZ/EventsModels/KMSActiveMessage.py:7 | `\s*[:\s]\s*` with backtracking: any capture starts after at least one separator character |
| ActiveMessage.TagEnd | FumblerLibrary/Parsers/RPGMVMZ/EventsModels/KMSActiveMessage.py:7 | the `<` and the Japanese or English tag name: on success, the position lies after the `<` that starts the match |
| ActiveMessage.MatchAt | FumblerLibrary/Parsers/RPGMVMZ/EventsModels/KMSActiveMessage.py:26 | `rgx.match` at a position: a success starts at `<` and captures a payload followed by `>` |
| ActiveMessage.AnnotationTagAt | FumblerLibrary/Parsers/RPGMVMZ/EventsModels/KMSActiveMessage.py:7 | an `<ActiveMessage:value>` annotation has its tag end at the colon, with no whitespace around it |
| ActiveMessage.AnnotationCaptureAt | FumblerLibrary/Parsers/RPGMVMZ/EventsModels/KMSActiveMessage.py:7 | the payload capture of such an annotation is exactly its value |
| ActiveMessage.AnnotationMatchesAt | FumblerLibrary/Parsers/RPGMVMZ/EventsModels/KMSActiveMessage.py:26-28 | the regex matched at an annotation captures its value |
| ActiveMessage.AnnotationRoundTrip | FumblerLibrary/Parsers/RPGMVMZ/EventsModels/KMSActiveMessage.py:24-34 | writing `text` then reading it gives the value back when the value starts with non-whitespace and has no `>` or newline |
| ActiveMessage.LaterAnnotationHasNoText | FumblerLibrary/Parsers/RPGMVMZ/EventsModels/KMSActiveMessage.py:12-28 | an annotation after other text is found by `search`, so the comment is wrapped, but the anchored `match` of `text` finds nothing |
| ActiveMessage.ActiveMessage.constructor | FumblerLibrary/Parsers/RPGMVMZ/EventsModels/KMSActiveMessage.py:15-17 | the plugin event copies code, indent and parameters of the record |
| ActiveMessage.ActiveMessage.Wrap | FumblerLibrary/Parsers/RPGMVMZ/EventsModels/KMSActiveMessage.py:12-22 | wraps exactly the records whose first parameter is a string the regex finds; the wrapped event models the record |
| ActiveMessage.ActiveMessage.Text | FumblerLibrary/Parsers/RPGMVMZ/EventsModels/KMSActiveMessage.py:24-28 | a text found is non-empty, free of `>`, and captured after the leading `<` |
| ActiveMessage.ActiveMessage.SetText | FumblerLibrary/Parsers/RPGMVMZ/EventsModels/KMSActiveMessage.py:30-34 | writes `<ActiveMessage:value>` with a newline-free value as is (escaped otherwise) into parameter 0 only; reading it back gives the value |
| EventCommon.LineRecords | FumblerLibrary/Parsers/RPGMVMZ/EventsModels/EventCommon.py:45-46 | one ADD_TEXT record per line, at the block's indent, with the line as its only parameter |
| EventCommon.LinesOfLineRecords | FumblerLibrary/Parsers/RPGMVMZ/EventsModels/EventCommon.py:45-46 | reading the lines of those records gives the lines back |
| EventCommon.Expand | FumblerLibrary/Parsers/RPGMVMZ/EventsModels/EventCommon.py:23-46 | `as_evtbase` emits a SHOW_TEXT header followed only by ADD_TEXT records, at least one of them |
| EventCommon.ExpandShape | FumblerLibrary/Parsers/RPGMVMZ/EventsModels/EventCommon.py:23-46 | the header is SHOW_TEXT with face (an empty face index becomes 0), background and position. An MZ name is a fifth parameter. A predicted MV name becomes a separate first line. The remaining lines joined by newlines are the filled text. Every record has the block's indent |
| EventCommon.EventText.constructor | FumblerLibrary/Parsers/RPGMVMZ/EventInterpreter.py:144-154 | the text event holds the block, with code -1 and no parameters |
| EventCommon.EventText.AsEvtBase | FumblerLibrary/Parsers/RPGMVMZ/EventsModels/EventCommon.py:23-46 | yields the expansion of the block; the object afterwards holds the filled text and the normalised face index |
| EventCommon.EventChoice.Wrap | FumblerLibrary/Parsers/RPGMVMZ/EventsModels/EventCommon.py:51-53 | the choice event copies code, indent and parameters |
| EventCommon.EventChoice.Choices | FumblerLibrary/Parsers/RPGMVMZ/EventsModels/EventCommon.py:55-57 | `tuple(parameters[0])`: defined exactly when parameter 0 is iterable; a list gives its items |
| EventCommon.EventChoice.SetChoices | FumblerLibrary/Parsers/RPGMVMZ/EventsModels/EventCommon.py:59-61 | replaces parameter 0 only; reading the choices back gives the value |
| EventInterpreter.OpensWithBraceStrip | FumblerLibrary/Parsers/RPGMVMZ/EventInterpreter.py:86-89 | the brace test holds exactly when the stripped text is non-empty and begins with one of the six opening braces |
| EventInterpreter.IsSpeaker | FumblerLibrary/Parsers/RPGMVMZ/EventInterpreter.py:80-90 | `is_speaker` gives the empty string or the candidate line itself, and the line only when it has at most 40 characters and the next line is not blank |
| EventInterpreter.IsSpeakerSpec | FumblerLibrary/Parsers/RPGMVMZ/EventInterpreter.py:80-90 | `is_speaker` returns the text when it has at most 40 characters and the next line opens with a brace, and "" otherwise |
| EventInterpreter.RunEnd | FumblerLibrary/Parsers/RPGMVMZ/EventInterpreter.py:108 | the end of the ADD_TEXT run: every record before it is ADD_TEXT and the one at it is not |
| EventInterpreter.LinesFrom | FumblerLibrary/Parsers/RPGMVMZ/EventInterpreter.py:108-133 | the texts of a run of line records, one per record, in order |
| EventInterpreter.RunStateStep | FumblerLibrary/Parsers/RPGMVMZ/EventInterpreter.py:108-138 | one pass of the line loop. The first line becomes the predicted name when the speaker check is on, no name was given, another line follows and `is_speaker` accepts it. Otherwise the line is appended |
| EventInterpreter.RunStateEnd | FumblerLibrary/Parsers/RPGMVMZ/EventInterpreter.py:104-138 | at the end of the run: the lines after any predicted name, the name, and whether it was predicted |
| EventInterpreter.PredictedCases | FumblerLibrary/Parsers/RPGMVMZ/EventInterpreter.py:112-127 | a name is predicted iff the check is on, no MZ name is given, a second line follows and the first passes `is_speaker` |
| EventInterpreter.PredictedSpec | FumblerLibrary/Parsers/RPGMVMZ/EventInterpreter.py:112-142 | a predicted block is named by its first line and joins the rest with spaces; otherwise the name is the given one |
| EventInterpreter.ShowTextBlockIs | FumblerLibrary/Parsers/RPGMVMZ/EventInterpreter.py:92-154 | the block is built from the header's face, background and position, the block's indent, the name, and the lines joined by "\n" (no check or no name) or " " |
| EventInterpreter.ShowTextFields | FumblerLibrary/Parsers/RPGMVMZ/EventInterpreter.py:98-154 | with the speaker check off, the name is the header's fifth parameter and the text is every line joined by "\n"; indent and face fields come from the header |
| EventInterpreter.StepNext | FumblerLibrary/Parsers/RPGMVMZ/EventInterpreter.py:169-172 | each step of the scan moves the cursor forward |
| EventInterpreter.DecompiledStep | FumblerLibrary/Parsers/RPGMVMZ/EventInterpreter.py:164-172 | the decompiled list grows by one semantic event per step of the scan |
| EventInterpreter.Decompiled | FumblerLibrary/Parsers/RPGMVMZ/EventInterpreter.py:164-180 | `decompile` yields at most one semantic event per record |
| EventInterpreter.StopAt | FumblerLibrary/Parsers/RPGMVMZ/EventInterpreter.py:192-195 | the first semantic event compile rejects (a plain record with a negative code) |
| EventInterpreter.CompileOne | FumblerLibrary/Parsers/RPGMVMZ/EventInterpreter.py:185-198 | one event compiles exactly when it is not a plain record with a negative code; it gives at least one record, and a non-text event gives its own record |
| EventInterpreter.Compiled | FumblerLibrary/Parsers/RPGMVMZ/EventInterpreter.py:182-198 | `list(compile(vs))` succeeds exactly when no event is a plain record with a negative code, and then gives at least one record per event |
| EventInterpreter.CompiledState | FumblerLibrary/Parsers/RPGMVMZ/EventInterpreter.py:185-188 | events before the stop have been expanded (text blocks hold the filled text); the rest are untouched |
| EventInterpreter.CompiledOutcome | FumblerLibrary/Parsers/RPGMVMZ/EventInterpreter.py:181-198 | compile succeeds iff no event is rejected; otherwise it raises for the code of the first rejected one |
| EventInterpreter.CompileStops | FumblerLibrary/Parsers/RPGMVMZ/EventInterpreter.py:192-195 | the first failing event is where compilation stops, with its error |
| EventInterpreter.CompileGoesOn | FumblerLibrary/Parsers/RPGMVMZ/EventInterpreter.py:185-198 | a successful event extends the output by its records |
| EventInterpreter.CompiledErrPrefix | FumblerLibrary/Parsers/RPGMVMZ/EventInterpreter.py:192-195 | once a prefix fails, the whole list fails the same way |
| EventInterpreter.DecompileWithoutText | FumblerLibrary/Parsers/RPGMVMZ/EventInterpreter.py:164-172 | without SHOW_TEXT, the scan visits every record once, classifying it alone |
| EventInterpreter.DecompiledClassified | FumblerLibrary/Parsers/RPGMVMZ/EventInterpreter.py:156-162 | without SHOW_TEXT, record k decompiles to a choice, an ActiveMessage event or itself, per its code and content |
| EventInterpreter.CompileClassified | FumblerLibrary/Parsers/RPGMVMZ/EventInterpreter.py:189-196 | compiling classified records with non-negative codes gives the records back |
| EventInterpreter.RoundTripWithoutText | FumblerLibrary/Parsers/RPGMVMZ/EventInterpreter.py:175-198 | a list without SHOW_TEXT and without negative codes compiles back to itself; with a negative code, compile raises for the first one |
| EventInterpreter.ClassifiedStop | FumblerLibrary/Parsers/RPGMVMZ/EventInterpreter.py:192-195 | the first negative code is where a classified list stops |
| EventInterpreter.TextRoundTrip | FumblerLibrary/Parsers/RPGMVMZ/EventInterpreter.py:92-154 | decompiling (check off) an expanded non-predicted block gives the block with its filled text and consumes exactly its records |
| EventInterpreter.RunEndAt | FumblerLibrary/Parsers/RPGMVMZ/EventInterpreter.py:108 | the run ends at the first non-ADD_TEXT record |
| EventInterpreter.LinesFromRecords | FumblerLibrary/Parsers/RPGMVMZ/EventInterpreter.py:109 | the lines of a run are the first parameters of its records |
| EventInterpreter.EmitAll | FumblerLibrary/Parsers/RPGMVMZ/EventInterpreter.py:196 | what compile yields for plain records: each record as is |
| EventInterpreter.CompileOneAsWritten | FumblerLibrary/Parsers/RPGMVMZ/EventInterpreter.py:185-198 | the code as written succeeds exactly where the corrected compile does and emits as many items; each item stands for the corrected record, and it is a `super` proxy exactly for a choice menu or a wrapped comment |
| EventInterpreter.WrappedCompilesToProxy | FumblerLibrary/Parsers/RPGMVMZ/EventInterpreter.py:189-190 | as written, a choice or ActiveMessage record compiles to a `super()` proxy, not the record; the corrected compile gives the record back (see Findings) |
| EventInterpreter.Interpreter.constructor | FumblerLibrary/Parsers/RPGMVMZ/EventInterpreter.py:49-65 | holds the events and the speaker-check setting, cursor at 0 |
| EventInterpreter.Interpreter.DefaultParseFn | FumblerLibrary/Parsers/RPGMVMZ/EventInterpreter.py:67-70 | returns the record at the cursor and advances it by one |
| EventInterpreter.Interpreter.ShowChoices | FumblerLibrary/Parsers/RPGMVMZ/EventInterpreter.py:72-78 | wraps the record at the cursor as a new choice event and advances by one |
| EventInterpreter.Interpreter.EventCommentParser | FumblerLibrary/Parsers/RPGMVMZ/EventInterpreter.py:156-162 | an ActiveMessage event if the comment carries the annotation, the record itself otherwise; advances by one |
| EventInterpreter.Interpreter.AddTextRun | FumblerLibrary/Parsers/RPGMVMZ/EventInterpreter.py:104-138 | the line loop leaves the cursor at the run's end, with the lines, the name and the prediction flag of its specification |
| EventInterpreter.Interpreter.ShowTextParser | FumblerLibrary/Parsers/RPGMVMZ/EventInterpreter.py:92-154 | returns a new text event holding the specified block, cursor just past the run |
| EventInterpreter.Interpreter.Step | FumblerLibrary/Parsers/RPGMVMZ/EventInterpreter.py:169-172 | dispatches on the code and yields the specified semantic event; a text block moves the cursor past its run, anything else by one |
| EventInterpreter.Interpreter.Run | FumblerLibrary/Parsers/RPGMVMZ/EventInterpreter.py:164-173 | yields exactly the decompiled list in fresh, pairwise distinct objects, cursor at the end |
| EventInterpreter.Interpreter.Decompile | FumblerLibrary/Parsers/RPGMVMZ/EventInterpreter.py:175-179 | a fresh interpreter's run: the decompiled list |
| EventInterpreter.Interpreter.CompileStep | FumblerLibrary/Parsers/RPGMVMZ/EventInterpreter.py:185-198 | compiles one event; a text block is left holding its filled text |
| EventInterpreter.Interpreter.CompileAt | FumblerLibrary/Parsers/RPGMVMZ/EventInterpreter.py:185-198 | compiles event i and changes no other event of the list |
| EventInterpreter.Interpreter.Compile | FumblerLibrary/Parsers/RPGMVMZ/EventInterpreter.py:181-198 | returns the compiled records or the first non-conforming code; the events are left in the compiled state up to the stop |
| FumblerModels.SourceValues | FumblerLibrary/FumblerModels.py:90-92 | the source values of a container, in data order |
| FumblerModels.TextMapFrom | FumblerLibrary/FumblerModels.py:90-94 | the source-to-translation map has at most one entry per data entry |
| FumblerModels.TextMapFromOk | FumblerLibrary/FumblerModels.py:90-93 | the text map can be built iff every data key has an upper-cased translation and every value can be hashed |
| FumblerModels.TextMapFromKeys | FumblerLibrary/FumblerModels.py:90-93 | its keys are unique and are exactly the source values |
| FumblerModels.TextMapFromLastWins | FumblerLibrary/FumblerModels.py:93 | a source value maps to the translation of the last key holding it |
| FumblerModels.GetTextMap | FumblerLibrary/FumblerModels.py:84-94 | the loop builds the specified text map, or the first KeyError/TypeError |
| FumblerModels.TextMapSpec | FumblerLibrary/FumblerModels.py:84-94 | no translations gives the empty map. Otherwise the map is defined iff every pair is translatable. Its keys are then the source values, and each maps to the translation of its last key |
| FumblerModels.DbEntries | FumblerLibrary/FumblerModels.py:22 | one `"k": "v"` entry per knowledge-base pair, in order |
| FumblerModels.TextDb | FumblerLibrary/FumblerModels.py:21-24 | `get_text_db` is bracketed, and is `[]` exactly for an empty knowledge base |
| FumblerModels.TextDbSpec | FumblerLibrary/FumblerModels.py:20-24 | an empty base gives "[]"; one more pair adds "; " and its entry before the closing bracket |
| FumblerModels.PromptConfig.constructor | FumblerLibrary/FumblerModels.py:6-16 | the configuration holds the given fields |
| FumblerModels.PromptConfig.SetDb | FumblerLibrary/FumblerModels.py:44-46 | replaces the knowledge base only; the prompt's db text becomes that of the new base |
| FumblerModels.PromptConfig.SetSamples | FumblerLibrary/FumblerModels.py:52-54 | replaces both samples only; reading `samples` gives the pair back |
| FumblerModels.PromptConfig.SystemPrompt | FumblerLibrary/FumblerModels.py:26-38 | defined iff the mode is configured; the template is formatted with the db text, the languages, the mode's text and both samples |
| GameParser.FirstMatch | FumblerLibrary/Parsers/RPGMVMZ/GameParser.py:40-85 | the first kind whose signature keys are all present; none iff no kind matches |
| GameParser.ClassifyPriority | FumblerLibrary/Parsers/RPGMVMZ/GameParser.py:42-85 | the elif chain is the first-match reading over actor, armor, classes, common events, enemy, items, skills |
| GameParser.SniffPriority | FumblerLibrary/Parsers/RPGMVMZ/GameParser.py:40-42 | a list of at least two entries is recognised by the keys of its second entry |
| GameParser.SniffOutcome | FumblerLibrary/Parsers/RPGMVMZ/GameParser.py:40-89 | the `in` test raises TypeError iff entry 1 of a long list is not a container. A map is an object with `autoplayBgm`. Short lists and scalars are not recognised |
| GameParser.Sniff | FumblerLibrary/Parsers/RPGMVMZ/GameParser.py:31-89 | only a list can fail to be classified, always with TypeError, and only an object is classified as a map |
| GameParser.EntriesAdvance | FumblerLibrary/Parsers/RPGMVMZ/GameParser.py:93-103 | one pass of `_interp_event_list`: a failing event fails the whole; otherwise its entry, if any, goes under key `L_` + index |
| GameParser.EventEntries | FumblerLibrary/Parsers/RPGMVMZ/GameParser.py:91-104 | `_interp_event_list` gives at most one entry per semantic event |
| GameParser.EventEntriesOk | FumblerLibrary/Parsers/RPGMVMZ/GameParser.py:91-104 | extraction succeeds iff every semantic event's entry can be read |
| GameParser.EventEntriesKeys | FumblerLibrary/Parsers/RPGMVMZ/GameParser.py:101-103 | extracted keys are unique positional keys `L_` + index |
| GameParser.EventEntriesGet | FumblerLibrary/Parsers/RPGMVMZ/GameParser.py:96-103 | key `L_i` holds event i's entry: `[name, text]` for a named block, the text otherwise, a menu's options; nothing for other events |
| GameParser.EntryOf | FumblerLibrary/Parsers/RPGMVMZ/GameParser.py:96-103 | the entry read from a semantic event object is that of its model |
| GameParser.InterpEventList | FumblerLibrary/Parsers/RPGMVMZ/GameParser.py:91-104 | the loop returns the specified extraction of the decompiled list |
| GameParser.PageExtracts | FumblerLibrary/Parsers/RPGMVMZ/GameParser.py:266-267 | the extraction of each page, in order |
| GameParser.MapExtracts | FumblerLibrary/Parsers/RPGMVMZ/GameParser.py:261-267 | per map event slot: nothing for an empty slot, the page extractions otherwise |
| GameParser.CommonExtracts | FumblerLibrary/Parsers/RPGMVMZ/GameParser.py:286-292 | per common event slot: nothing for an empty slot, its extraction otherwise |
| GameParser.PageSlotsSpec | FumblerLibrary/Parsers/RPGMVMZ/GameParser.py:266-273 | the page slots exist iff every page extracts. Each slot is then an "event" container, or None when nothing was extracted |
| GameParser.MapSlotsLength | FumblerLibrary/Parsers/RPGMVMZ/GameParser.py:258-278 | the map gives, for each present event, one slot per page plus the trailing None that the `for`/`else` appends after its pages, and one slot per absent event |
| GameParser.MapSlotsLayout | FumblerLibrary/Parsers/RPGMVMZ/GameParser.py:258-278 | the slots of event j start after those of the earlier events and hold its pages' containers in order |
| GameParser.CommonSlotsSpec | FumblerLibrary/Parsers/RPGMVMZ/GameParser.py:285-299 | one slot per common event: None when absent or empty, its "event" container otherwise; defined iff every present one extracts |
| GameParser.ItemDataKeys | FumblerLibrary/Parsers/RPGMVMZ/GameParser.py:302-308 | the item container's keys are unique `IT_` + index keys |
| GameParser.ItemDataGet | FumblerLibrary/Parsers/RPGMVMZ/GameParser.py:306-308 | key `IT_i` holds `[name, description, note]` of item i exactly when it has a non-empty field |
| GameParser.PageContainerList | FumblerLibrary/Parsers/RPGMVMZ/GameParser.py:266-273 | the page loop computes the specified page slots |
| GameParser.MapContainerList | FumblerLibrary/Parsers/RPGMVMZ/GameParser.py:258-278 | the map loop computes the specified map slots |
| GameParser.CommonContainerList | FumblerLibrary/Parsers/RPGMVMZ/GameParser.py:285-299 | the common-event loop computes the specified slots |
| GameParser.ItemContainerData | FumblerLibrary/Parsers/RPGMVMZ/GameParser.py:300-308 | the item loop computes the specified item data |
| GameParser.PrepareTlContainers | FumblerLibrary/Parsers/RPGMVMZ/GameParser.py:255-309 | the containers of a map, a common-event list or an item list; an empty list for a list shorter than two; None for any other document |
| GameParser.Prepare | FumblerLibrary/Parsers/RPGMVMZ/GameParser.py:255-309 | `prepare_tl_containers` returns None exactly for a list of at least two entries whose entry 1 is absent or of no handled kind; an item list gives at most one container |
| GameParser.SubstOne | FumblerLibrary/Parsers/RPGMVMZ/GameParser.py:142-173 | a successful substitution reports a translation iff the text map hits the event. It changes only a block's name and text, or a menu's first parameter. It leaves a missed event as it was |
| GameParser.SubstTextPrecedence | FumblerLibrary/Parsers/RPGMVMZ/GameParser.py:144-150 | a bare text found in the map is replaced first, the name kept |
| GameParser.CollectSpec | FumblerLibrary/Parsers/RPGMVMZ/GameParser.py:142-175 | the loop succeeds iff every substitution does; `do_repack` holds iff any substitution translated |
| GameParser.SubstAllSpec | FumblerLibrary/Parsers/RPGMVMZ/GameParser.py:142-175 | substituting a whole list keeps every event's shape and every missed event, and repacks iff some event is hit |
| GameParser.EntryHits | FumblerLibrary/Parsers/RPGMVMZ/GameParser.py:142-171 | an extracted entry found in the text map is a hit when the list is re-applied |
| GameParser.ApplyEventsUntouched | FumblerLibrary/Parsers/RPGMVMZ/GameParser.py:175-178 | a list that no event hits is left as it was, not recompiled |
| GameParser.ApplyEvents | FumblerLibrary/Parsers/RPGMVMZ/GameParser.py:137-178 | an event list that comes back changed has some event with a translation in the map |
| GameParser.Substitute | FumblerLibrary/Parsers/RPGMVMZ/GameParser.py:142-173 | mutates the event object into the specified substitution, or reports its error |
| GameParser.SubstituteAt | FumblerLibrary/Parsers/RPGMVMZ/GameParser.py:142-173 | substitutes event i and leaves every other event of the list as it was |
| GameParser.SubstituteAll | FumblerLibrary/Parsers/RPGMVMZ/GameParser.py:142-175 | the loop leaves the objects holding the substituted list, or stops at the first error, and returns `do_repack` |
| GameParser.ApplyEventList | FumblerLibrary/Parsers/RPGMVMZ/GameParser.py:138-178 | decompile, substitute and, on a hit, recompile one event list |
| GameParser.TextMaps | FumblerLibrary/Parsers/RPGMVMZ/GameParser.py:111-113 | the text map of each present container, in order |
| GameParser.MergeOk | FumblerLibrary/Parsers/RPGMVMZ/GameParser.py:111-113 | merging succeeds iff every present container's text map does |
| GameParser.MergeNoDup | FumblerLibrary/Parsers/RPGMVMZ/GameParser.py:111-113 | the merged map has unique keys |
| GameParser.MergeAbsent | FumblerLibrary/Parsers/RPGMVMZ/GameParser.py:111-113 | a source in no container is absent from the merged map |
| GameParser.MergeLast | FumblerLibrary/Parsers/RPGMVMZ/GameParser.py:111-113 | a source maps to its translation in the last container that has it |
| GameParser.FullMapOk | FumblerLibrary/Parsers/RPGMVMZ/GameParser.py:106-113 | the full mapping exists iff every present container's text map does, and then has unique keys |
| GameParser.FullMapLast | FumblerLibrary/Parsers/RPGMVMZ/GameParser.py:111-113 | a later container's translation of a source wins over an earlier one's |
| GameParser.FullMapAbsent | FumblerLibrary/Parsers/RPGMVMZ/GameParser.py:111-113 | a source no container mentions has no translation |
| GameParser.FullMappingJson | FumblerLibrary/Parsers/RPGMVMZ/GameParser.py:114-118 | with `json`, every key is a string, and `str(k)` looks up what k did |
| GameParser.FullMapping | FumblerLibrary/Parsers/RPGMVMZ/GameParser.py:107-119 | `get_full_mapping` fails exactly when merging the text maps fails; with `json` every key is a string, and without it the merged map is returned as it is |
| GameParser.GetFullMapping | FumblerLibrary/Parsers/RPGMVMZ/GameParser.py:106-119 | the loops compute the specified full mapping |
| GameParser.MergeTextMaps | FumblerLibrary/Parsers/RPGMVMZ/GameParser.py:110-113 | the update loop computes the merged map |
| GameParser.PageApplies | FumblerLibrary/Parsers/RPGMVMZ/GameParser.py:137-178 | the result of applying the map to each page, in order |
| GameParser.MapApplies | FumblerLibrary/Parsers/RPGMVMZ/GameParser.py:131-178 | per map event slot: nothing for an empty slot, the page results otherwise |
| GameParser.CommonApplies | FumblerLibrary/Parsers/RPGMVMZ/GameParser.py:184-221 | per common event slot: nothing for an empty slot, its result otherwise |
| GameParser.PagesFromSpec | FumblerLibrary/Parsers/RPGMVMZ/GameParser.py:137-178 | the pages succeed iff each one does, and then hold the new lists in order |
| GameParser.MapEventsFromSpec | FumblerLibrary/Parsers/RPGMVMZ/GameParser.py:131-178 | the map succeeds iff every page does. Empty slots stay empty and every event keeps its page count, each page holding its new list |
| GameParser.CommonEventsFromSpec | FumblerLibrary/Parsers/RPGMVMZ/GameParser.py:184-221 | common events succeed iff each present one does; empty slots stay empty |
| GameParser.ApplyPages | FumblerLibrary/Parsers/RPGMVMZ/GameParser.py:137-178 | the page loop computes the specified pages |
| GameParser.ApplyMapEvents | FumblerLibrary/Parsers/RPGMVMZ/GameParser.py:131-178 | the map loop computes the specified events |
| GameParser.ApplyCommonEvents | FumblerLibrary/Parsers/RPGMVMZ/GameParser.py:184-221 | the common-event loop computes the specified events |
| GameParser.ApplyItem | FumblerLibrary/Parsers/RPGMVMZ/GameParser.py:230-251 | a translation without a length raises TypeError. A pair sets a non-empty name and description, and sets the note unless both it and the (new) description are non-empty. A triple replaces all three fields. Any other length leaves the item unchanged |
| GameParser.ItemUpdates | FumblerLibrary/Parsers/RPGMVMZ/GameParser.py:224-252 | the update of each item from its `IT_` translation, in order |
| GameParser.GatherSpec | FumblerLibrary/Parsers/RPGMVMZ/GameParser.py:224-252 | the item loop succeeds iff every update does, and then holds the updates in order |
| GameParser.ItemsFrom | FumblerLibrary/Parsers/RPGMVMZ/GameParser.py:224-252 | the item loop keeps the list length and which slots are empty |
| GameParser.ItemsFromSpec | FumblerLibrary/Parsers/RPGMVMZ/GameParser.py:224-252 | items succeed iff each item with a field has a translation (or is skipped) that applies. Absent items, empty items and untranslated items stay as they were |
| GameParser.ApplyItemOwnFields | FumblerLibrary/Parsers/RPGMVMZ/GameParser.py:245-249 | applying an item's own `[name, description, note]` leaves it unchanged |
| GameParser.ItemsFromOwnData | FumblerLibrary/Parsers/RPGMVMZ/GameParser.py:222-252 | writing back the prepared item data unchanged gives the items back |
| GameParser.ApplyItems | FumblerLibrary/Parsers/RPGMVMZ/GameParser.py:222-252 | the item loop computes the specified items, untranslated ones skipped |
| GameParser.ApplyTlContainers | FumblerLibrary/Parsers/RPGMVMZ/GameParser.py:121-253 | computes the specified application to a map, common events or items; other documents come back unchanged |
| GameParser.Apply | FumblerLibrary/Parsers/RPGMVMZ/GameParser.py:121-253 | `apply_tl_containers` keeps the kind of document, keeps an item list's length, and hands any other document back unchanged |
| GameParser.ApplyMapShape | FumblerLibrary/Parsers/RPGMVMZ/GameParser.py:128-179 | applying to a map keeps its slots and page counts, and each page list is its own list with the full mapping applied |
| GameParser.ItemsRoundTrip | FumblerLibrary/Parsers/RPGMVMZ/GameParser.py:222-309 | an item list yields one "item" container of its own data; applying a container translated to that same data gives the list back |
| GameParser.UntranslatedItemAsWritten | FumblerLibrary/Parsers/RPGMVMZ/GameParser.py:225-230 | as written, an item with a field but no translation fails the whole list (see Findings) |
| GameParser.UntranslatedItemSkipped | FumblerLibrary/Parsers/RPGMVMZ/GameParser.py:225-226 | with the intended skip, an untranslated item is kept unchanged |
| Translator.ChunksConcat | FumblerLibrary/Translators/OpenAICompatible/Translator.py:36-40 | the chunks, concatenated, are the data in order |
| Translator.ChunksOf | FumblerLibrary/Translators/OpenAICompatible/Translator.py:37-40 | `dict_chunk` yields no chunk for empty data, and every chunk holds between one and `size` pairs |
| Translator.ChunksCount | FumblerLibrary/Translators/OpenAICompatible/Translator.py:39 | as many chunks as `range(0, len, chunk)`: the least count covering the data |
| Translator.ChunkSizes | FumblerLibrary/Translators/OpenAICompatible/Translator.py:40 | every chunk but the last holds `chunk` entries; the last holds between 1 and `chunk` |
| Translator.ChunkBounds | FumblerLibrary/Translators/OpenAICompatible/Translator.py:40 | no chunk is empty or larger than the chunk size |
| Translator.DictChunk | FumblerLibrary/Translators/OpenAICompatible/Translator.py:36-40 | a zero chunk size raises ValueError, a negative one yields nothing, a positive one yields the chunks |
| Translator.FenceOfWrapped | FumblerLibrary/Translators/OpenAICompatible/Translator.py:42-44 | the fence extractor finds, in `wrap_json`'s output, exactly the dumped object between newlines |
| Translator.WrapJson | FumblerLibrary/Translators/OpenAICompatible/Translator.py:43-45 | `wrap_json` opens with a json fence and closes with a fence, around the dump and two newlines |
| Translator.UserTurns | FumblerLibrary/Translators/OpenAICompatible/Translator.py:53-61 | per chunk: the system prompt, the chunk, and a user message wrapping its JSON |
| Translator.FormatMessages | FumblerLibrary/Translators/OpenAICompatible/Translator.py:46-61 | a failing system prompt fails first; then the chunk size decides as in `dict_chunk` |
| Translator.FormatMessagesTurns | FumblerLibrary/Translators/OpenAICompatible/Translator.py:46-61 | every turn carries the system prompt and its chunk's user message; chunks are non-empty, at most the batch size, and concatenate to the data |
| Translator.FindFrom | FumblerLibrary/Translators/OpenAICompatible/Translator.py:72 | the leftmost occurrence of the pattern from a position, or none |
| Translator.FindLast | FumblerLibrary/Translators/OpenAICompatible/Translator.py:72 | the rightmost occurrence within bounds, or none |
| Translator.ExtractFenceSpec | FumblerLibrary/Translators/OpenAICompatible/Translator.py:108-118 | a fence is found iff a "```json" opening is followed, not overlapping, by a "```". The body runs from the first opening to the last closing: the greedy `.*` with DOTALL |
| Translator.ExtractFence | FumblerLibrary/Translators/OpenAICompatible/Translator.py:72 | a match leaves out at least the two fences and the `json` tag, and a text without an opening fence has no match |
| Translator.PostFixChar | FumblerLibrary/Translators/OpenAICompatible/Translator.py:76-84 | characters outside the table are kept; the replacement contains no full-width punctuation |
| Translator.PostFix | FumblerLibrary/Translators/OpenAICompatible/Translator.py:76-84 | the post-fix never shortens a text |
| Translator.PostFixAppend | FumblerLibrary/Translators/OpenAICompatible/Translator.py:191 | the post-fix distributes over concatenation |
| Translator.PostFixClean | FumblerLibrary/Translators/OpenAICompatible/Translator.py:191 | the post-fixed string has no full-width punctuation left |
| Translator.PostFixPlain | FumblerLibrary/Translators/OpenAICompatible/Translator.py:191 | a string without full-width punctuation is unchanged |
| Translator.PostFixIdempotent | FumblerLibrary/Translators/OpenAICompatible/Translator.py:189-191 | post-fixing twice is post-fixing once |
| Translator.CheckKey | FumblerLibrary/Translators/OpenAICompatible/Translator.py:137-184 | a key passes iff present, of the original's type, of the original's length for a list, and bracket-consistent (or its counter exceeds 2). A bracket mismatch is only reported for a string whose counter is at most 2 |
| Translator.Screen | FumblerLibrary/Translators/OpenAICompatible/Translator.py:103-134 | the checks before the key loop drop exactly a broken stream, and pass on a response only when a fence was found whose body has no Japanese text |
| Translator.FirstFailure | FumblerLibrary/Translators/OpenAICompatible/Translator.py:137-184 | the key loop breaks at the first failing raw key; every earlier key passed |
| Translator.Checks | FumblerLibrary/Translators/OpenAICompatible/Translator.py:137-184 | the check of each raw key, in order |
| Translator.FirstNonPass | FumblerLibrary/Translators/OpenAICompatible/Translator.py:137-187 | the first failing check; all before it pass |
| Translator.Bump | FumblerLibrary/Translators/OpenAICompatible/Translator.py:181 | the key's bracket counter goes up by one, every other key's stays |
| Translator.PostFixValues | FumblerLibrary/Translators/OpenAICompatible/Translator.py:189-191 | every value post-fixed under its key, order kept |
| Translator.PostFixValuesGet | FumblerLibrary/Translators/OpenAICompatible/Translator.py:189-191 | a key looks up its post-fixed value |
| Translator.KeyVerdictIgnore | FumblerLibrary/Translators/OpenAICompatible/Translator.py:177-187 | a key-check failure spends no try and bumps at most one counter, that of a key still at 2 or below |
| Translator.JudgeCounted | FumblerLibrary/Translators/OpenAICompatible/Translator.py:104-134 | a completion spends a try iff it has no fence, does not decode or has the wrong key count. A non-object body raises AttributeError |
| Translator.PassedAcceptable | FumblerLibrary/Translators/OpenAICompatible/Translator.py:137-193 | a response whose keys all pass is, once post-fixed, acceptable: every raw key present with the right type and length, no full-width punctuation |
| Translator.DecideParsed | FumblerLibrary/Translators/OpenAICompatible/Translator.py:104-135 | only a parsed response is accepted; the earlier failures leave the counters alone |
| Translator.KeyVerdictAccepted | FumblerLibrary/Translators/OpenAICompatible/Translator.py:185-193 | the object returned after the key loop is acceptable |
| Translator.JudgeAccepted | FumblerLibrary/Translators/OpenAICompatible/Translator.py:103-193 | whatever a completion's verdict accepts is acceptable |
| Translator.Judge | FumblerLibrary/Translators/OpenAICompatible/Translator.py:103-193 | a completion is accepted only when it is acceptable for the raw chunk, and a broken stream is retried without spending a try or touching the bracket counters |
| Translator.JudgeIgnore | FumblerLibrary/Translators/OpenAICompatible/Translator.py:179-181 | a retry bumps at most one counter, so no counter climbs past 3 |
| Translator.CheckKeys | FumblerLibrary/Translators/OpenAICompatible/Translator.py:136-187 | the key loop: fails iff some key fails, bumping the first failing key's counter iff it failed on brackets |
| Translator.CheckOne | FumblerLibrary/Translators/OpenAICompatible/Translator.py:138-184 | one pass of the key loop computes the key's check |
| Translator.PostFixAll | FumblerLibrary/Translators/OpenAICompatible/Translator.py:189-191 | the post-fix loop computes the post-fixed response |
| Translator.ScreenOf | FumblerLibrary/Translators/OpenAICompatible/Translator.py:103-135 | the checks before the key loop, in the source's order |
| Translator.Attempt | FumblerLibrary/Translators/OpenAICompatible/Translator.py:103-193 | one pass of the retry loop computes the completion's verdict |
| Translator.BudgetStop | FumblerLibrary/Translators/OpenAICompatible/Translator.py:95-193 | a completion that raises or is accepted ends the loop with no try spent |
| Translator.BudgetAgain | FumblerLibrary/Translators/OpenAICompatible/Translator.py:95-187 | a retried completion keeps the budget facts of the rest of the loop |
| Translator.RetryBudget | FumblerLibrary/Translators/OpenAICompatible/Translator.py:93-193 | the loop never spends more than its tries. It gives up (None) iff it spends them all, the last completion used having spent one. It runs out of completions only at the end of the service |
| Translator.Retry | FumblerLibrary/Translators/OpenAICompatible/Translator.py:86-193 | the retry loop only moves forward through the completions; running out of completions means all were used, and an accepted object uses at least one |
| Translator.RetryAccepted | FumblerLibrary/Translators/OpenAICompatible/Translator.py:86-193 | whatever the retry loop returns is acceptable for the raw chunk |
| Translator.RetryableCompletion | FumblerLibrary/Translators/OpenAICompatible/Translator.py:86-193 | the loop, with 10 tries and empty counters, computes the specified outcome and the next unused completion |
| Translator.Window | FumblerLibrary/Translators/OpenAICompatible/Translator.py:201-238 | a deque with `maxlen` n keeps the last n entries appended |
| Translator.ChunkLoop | FumblerLibrary/Translators/OpenAICompatible/Translator.py:202-241 | the chunk loop only extends the sent prompts and accepted objects and never goes back in the completions; as written, a successful run accepted every remaining chunk |
| Translator.RunContainer | FumblerLibrary/Translators/OpenAICompatible/Translator.py:195-242 | `do_container` raises ValueError for a negative history before anything else, and otherwise keeps the container's type and data and moves forward through the completions |
| Translator.UserWindow | FumblerLibrary/Translators/OpenAICompatible/Translator.py:207-211 | each prompt starts with the system message, holds at most `maxlen` window entries, and ends with the chunk's user message, the previous answer just before it |
| Translator.AcceptKeeps | FumblerLibrary/Translators/OpenAICompatible/Translator.py:229-238 | accepting an acceptable object keeps the loop invariant |
| Translator.AcceptMerges | FumblerLibrary/Translators/OpenAICompatible/Translator.py:231-232 | the translations are the old ones updated by each accepted object in turn |
| Translator.AcceptChecks | FumblerLibrary/Translators/OpenAICompatible/Translator.py:219-232 | every accepted object is acceptable for its chunk |
| Translator.AcceptPrompts | FumblerLibrary/Translators/OpenAICompatible/Translator.py:207-211 | every chunk was sent with a well-formed prompt |
| Translator.AcceptQueue | FumblerLibrary/Translators/OpenAICompatible/Translator.py:231-238 | the window stays bounded, and a non-empty answer is its last entry |
| Translator.AcceptRemembers | FumblerLibrary/Translators/OpenAICompatible/Translator.py:207-238 | each prompt after the first remembers the previous non-empty answer |
| Translator.ChunkLoopShape | FumblerLibrary/Translators/OpenAICompatible/Translator.py:202-241 | a finished chunk loop satisfies every window, prompt and merge fact above |
| Translator.GiveUpShape | FumblerLibrary/Translators/OpenAICompatible/Translator.py:226-228 | giving up after sending a chunk keeps those facts |
| Translator.ContainerShape | FumblerLibrary/Translators/OpenAICompatible/Translator.py:195-242 | a finished `do_container` has a non-negative history. Its container is the input with the accepted objects merged into its translations, and the run satisfies the loop facts with window `history * 2` |
| Translator.GiveUpAsWritten | FumblerLibrary/Translators/OpenAICompatible/Translator.py:226-228 | as written, giving up on the first chunk raises NameError; the corrected give-up returns the container unchanged (see Findings) |
| Translator.DoContainer | FumblerLibrary/Translators/OpenAICompatible/Translator.py:195-242 | the chunk loop computes the specified (corrected) `do_container` |
| Translator.ChunkTurn | FumblerLibrary/Translators/OpenAICompatible/Translator.py:206-241 | one pass of the chunk loop either continues with the next chunk's state or ends the loop with its outcome |
| Translator.Pending | FumblerLibrary/Translators/OpenAICompatible/Translator.py:264-268 | the queue holds index and container of present slots only, indices increasing |
| Translator.PendingCovers | FumblerLibrary/Translators/OpenAICompatible/Translator.py:264-268 | every present slot is queued |
| Translator.WriteBack | FumblerLibrary/Translators/OpenAICompatible/Translator.py:270-271 | writing back keeps the list's length |
| Translator.WriteBackAt | FumblerLibrary/Translators/OpenAICompatible/Translator.py:270-271 | a slot ends up with the last response for its index |
| Translator.WriteBackElse | FumblerLibrary/Translators/OpenAICompatible/Translator.py:270-271 | a slot with no response is unchanged |
| Translator.WorkSpec | FumblerLibrary/Translators/OpenAICompatible/Translator.py:250-260 | the workers answer every queued container, in queue order, each by a `do_container` run |
| Translator.Work | FumblerLibrary/Translators/OpenAICompatible/Translator.py:250-260 | the workers keep the responses already collected and add exactly one per remaining queue entry |
| Translator.BatchedShape | FumblerLibrary/Translators/OpenAICompatible/Translator.py:244-272 | the list keeps its length and empty slots. Each present slot holds a processed container of the same type and data |
| Translator.Batched | FumblerLibrary/Translators/OpenAICompatible/Translator.py:244-272 | `translate_containers_batched` keeps the list length, and a list with nothing to translate comes back unchanged |
| Translator.QueueContainers | FumblerLibrary/Translators/OpenAICompatible/Translator.py:264-268 | the enqueue loop builds the specified queue |
| Translator.ContainerWorker | FumblerLibrary/Translators/OpenAICompatible/Translator.py:250-260 | the workers' loop computes the specified responses |
| Translator.WriteResponses | FumblerLibrary/Translators/OpenAICompatible/Translator.py:270-271 | the final loop computes the specified write-back |
| Translator.TranslateContainersBatched | FumblerLibrary/Translators/OpenAICompatible/Translator.py:244-272 | the whole driver computes the specified batched translation |

## Left out

- I/O stays outside the model. Reading files and `parse_files`' JSON
  decoding are replaced by a loaded JSON value, and `Sniff` classifies it.
  Logging, statistics and `tqdm` progress bars are dropped.
- The network is reduced to its answers:
  - the completion service is a finite list of streamed completions, with
    None where the stream broke off (`stream_to_str` and its
    `RemoteProtocolError`);
  - the model names running out of completions `NoResponse`, an outcome the
    source never reaches;
  - stop strings, model parameters and the prompt text sent are not
    modelled.
- Concurrency is not modelled. The five `asyncio` workers run one after
  another, sharing the service in queue order. `asyncio.gather` is modelled
  as raising the first worker's error.
- Opaque library functions become parameters:
  - `textwrap.fill` is `fill`;
  - `unicode_escape` is `escape`;
  - `orjson.dumps` is `dumps`, `orjson.loads` is `decode`;
  - `str(k)` is `show`, assumed injective in `FullMappingJson`;
  - the jinja template and `str.format` of the system prompt are `format`;
  - whether a template is configured is `hasTemplate`, since its rendering
    is not modelled.
- `transform_text` (`FumblerLibrary/Parsers/RPGMVMZ/EventInterpreter.py:34-37`)
  is never called by the core, and `JP_TRANSFORMS` is not modelled.
- `EventBase.py`, `RPGMVZModels.py` and pydantic validation are not part of
  this model. The command codes 101/401/102/108/408 are constants. The data
  classes are reduced to the fields the core reads.
- Floats, `None` inside event parameters, and Python's `True == 1` key
  equality are left out. JSON numbers are integers, and `Atom` decides
  hashability.
- Upper-casing covers ASCII only, and the post-fix table is the five
  full-width characters of the source.
- Parameter lists are values, so aliasing between a wrapped event and its
  record is not modelled. Containers are returned rather than mutated in
  place.
- `key_ignore` is local to one `do_retryable_completion_text` call, as in
  the code, not container-wide.
- `container.translated is None` (`Translator.py:229-230`) cannot happen,
  because the field defaults to `{}`.
- A document is returned whole or an error is returned. The partly updated
  document after a mid-way exception is not modelled.
- EventInterpreter.Interpreter.Run: requires the list to be decompilable.
  Where it is not, the source raises an exception the model does not return:
  - ValueError at `EventInterpreter.py:99` or `:102` for a SHOW_TEXT header
    without four or five parameters;
  - IndexError at line 104, 114, 125 or 135 when a SHOW_TEXT or its line run
    reaches the end of the list;
  - IndexError at line 109 for an ADD_TEXT record with no parameters, or at
    line 86 when that record is the next line of the speaker check;
  - TypeError for a line that is not a string: at `len` at line 83 for a
    number, otherwise at the join at line 140 or 142 once the line is part
    of the text;
  - AttributeError at line 87 when the speaker check meets a next line that
    is not a string;
  - it also does not return when a SHOW_TEXT is not followed by ADD_TEXT,
    because the cursor never moves;
  - the same precondition is on `Decompile`, `ShowTextParser`, `Step`, and
    the GameParser members that decompile (`InterpEventList`,
    `PrepareTlContainers`, `ApplyEventList`, `ApplyTlContainers`).
- GameParser.SubstOne: a translation that is not a string, written into a
  text, is reported as AttributeError at substitution time. In the source,
  `textwrap.fill` raises it when the list is recompiled.
- Translator.RetryBudget: the budget facts are stated through the
  `BudgetKept` predicate, not as separate ensures.
- Translator.DoContainer and Translator.ContainerShape: these follow the
  corrected give-up branch. The code as written is `asWritten`, and
  `GiveUpAsWritten` relates the two.
- GameParser.ApplyItems: follows the evidently intended skip of untranslated
  items (see Findings).
- EventInterpreter.CompileOne: yields the record itself for a choice menu or
  a wrapped comment, where `EventInterpreter.py:190` yields a `super` proxy
  (see Findings). `CompileOneAsWritten` models the code as written, and
  `WrappedCompilesToProxy` relates the two.
- EventInterpreter.Compiled: built on the corrected `CompileOne`, so it does
  not promise what the code as written emits for wrapped events.
- EventInterpreter.CompileClassified: states the round trip of the corrected
  compile; as written, a wrapped event compiles to a proxy.
- EventInterpreter.Interpreter.Compile: computes the corrected `Compiled`.
- GameParser.ApplyEvents: recompiles a translated list with the corrected
  compile.
- GameParser.ApplyEventList: computes `ApplyEvents`, so it uses the corrected
  compile too.
- GameParser.ItemsFrom: `Apply` calls it with the skip of untranslated items
  switched on, the evidently intended reading of `GameParser.py:225`. The
  code as written, which raises KeyError at line 230, is the same function
  with the skip off; `UntranslatedItemAsWritten` shows it.
- GameParser.Apply: uses the corrected compile for maps and common events
  and the intended item skip for item lists.
- GameParser.ApplyTlContainers: computes `Apply`, with the same two
  corrections.
- Translator.RunContainer: `Work` runs it with the corrected give-up branch
  (`asWritten` false); `GiveUpAsWritten` relates it to the NameError that the
  code as written raises at `Translator.py:227`.
- Translator.Work: runs each container with the corrected give-up branch.
- Translator.Batched: built on `Work`, with the same correction.
- Translator.TranslateContainersBatched: computes `Batched`, with the same
  correction.

## Findings

| source | as written | input that shows it | evidently intended | confidence | as-written member | corrected member |
|---|---|---|---|---|---|---|
| FumblerLibrary/Parsers/RPGMVMZ/GameParser.py:225 | `not itemidx not in tldata` means `itemidx in tldata`. The integer index is never a key of the string-keyed translations, so no item is skipped, and line 230 raises KeyError for an item without a translation. | item list `[None, Item("Potion", "", "")]`, translated `{}` | skip items that have no `IT_` translation | not executed | GameParser.UntranslatedItemAsWritten | GameParser.UntranslatedItemSkipped |
| FumblerLibrary/Translators/OpenAICompatible/Translator.py:227 | the give-up warning formats `idx`, which is undefined in `do_container`, so giving up raises NameError | a container whose first chunk gets ten completions without a fence | log and stop, keeping what was translated | not executed | Translator.GiveUpAsWritten | Translator.ContainerShape |
| FumblerLibrary/Parsers/RPGMVMZ/EventInterpreter.py:190 | `super(EventBase, event)` yields a proxy object, not the event, so choice and ActiveMessage events do not compile back to records | a page holding one SHOW_CHOICES record | yield the event itself | not executed | EventInterpreter.WrappedCompilesToProxy | EventInterpreter.RoundTripWithoutText |
