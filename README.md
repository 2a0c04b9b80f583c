# sgv in Dafny

sgv is a live-coding MIDI sequencer. A small language describes triggers
(`(C_4 100)`), bars (`[kick - - kick= >]`), sequences of layered bars
(`{ x = (60 90) [x - x -] [- x] }`), assignments to slots (`<3> = ...`) and
commands (`bpm 120`, `play 3`, `sync 3 96`, `open_output 0 9`,
`do_file path`). The player keeps a number of slots, each walking a compiled
sequence one step every few ticks, and sends each step's notes to a MIDI
output, which ends every note once its duration has run out. A Launchpad Mini
shows the state of each slot on its 8x8 grid, and pressing one of its pads
toggles the slot that pad shows.

This project models both halves.

**The language front end** (`lang/src`):

- **Lex.** The token stream is an input: the tokenizer's output, a list of
  tokens with their spans. `Lexer` is the cursor with one token of
  lookahead.
- **SeqTypes.** `LineBuilder`, which compiles bars into step-indexed
  events, and the text display of values.
- **Environment.** The stack of scopes and the calls made on the runtime.
- **BarParser.** The bar parser.
- **Keywords.** The fixed-arity commands.
- **ParseFsm.** The statement parser. It includes the mutually recursive
  `root` → `do_file` → `Env::do_file` → `root`.
- **Err.** The error values, and the helpers that locate an error in its
  text.
- **Lib.** The entry point `parse`.

**The player** (`src`):

- **SequenceTypes.** `MapSeq`.
- **Slots.** The slot's transport and cursor.
- **Voicers.** An output's buffer of sounding notes.
- **Sequencers.** The sequencer's four-phase tick, `kill_all`, the slot
  commands and the Launchpad display.
- **Controllers.** The bytes sent to and read from the Launchpad.

**Supporting modules.** Base holds `Result`, `Option` and the integer
types. Text holds the standard-library text routines the interpreter uses:
`str::parse`, decimal printing and ASCII lower-casing.

**How each part is written.**

- Parsers that advance a lexer and update an environment are Dafny classes
  and methods.
- Each method is proved equal to a specification function over token
  indices. Its outcome, the position after it, the scopes after it and the
  runtime calls it made all match that function.
- The properties the language promises are then proved about those
  functions as lemmas.
- The slot, the voicer and the line builder are classes. Each is proved
  against functions on the value of its fields.
- The sequencer's tick is one method per phase, proved against `TickOf`.

## Model

| member | source | states |
|---|---|---|
| Lex.TokAt | lang/src/lex.rs:150-160 | the stream yields `Eof` exactly from its end on |
| Lex.SpanOfIn | lang/src/lex.rs:142-144 | every span a well-formed stream reports lies inside the text, so slicing it cannot panic |
| Lex.SpanAfterIn | lang/src/lex.rs:130-144 | the span after any number of `next` calls lies inside the text |
| Lex.SpanText | lang/src/lex.rs:142-144 | the text under a span in the text has the span's length |
| Lex.SpanAfterText | lang/src/lex.rs:150-160 | after `next` the span and slice belong to the token just handed out |
| Lex.NoteShapedAt | lang/src/lex.rs:75-76 | every `Note` token has the pitch-name shape letter, accidental, octave digit |
| Lex.WellFormedNotes | lang/src/lex.rs:75-76 | the tokenizer's guarantees include the shape of every `Note` |
| Lex.SpansOrdered | lang/src/lex.rs:150-160 | a later token's span starts no earlier than an earlier token's span ends |
| Lex.ExpectResult | lang/src/lex.rs:162-169 | `expect` succeeds exactly on the expected token; otherwise lexing error, end of input, or the wrong token, in that order |
| Lex.Lexer.constructor | lang/src/lex.rs:105-120 | a new lexer stands before the first token with the empty initial span |
| Lex.Lexer.Lookahead | lang/src/lex.rs:122-124 | the lookahead is the token at the cursor |
| Lex.Lexer.Next | lang/src/lex.rs:150-160 | hands out the lookahead, moves one token on, and the span becomes that token's |
| Lex.Lexer.Advance | lang/src/lex.rs:126-128 | consumes exactly one token |
| Lex.Lexer.Expect | lang/src/lex.rs:162-169 | consumes exactly one token, whatever it is, and reports `ExpectResult` for it |
| Lex.Lexer.Span | lang/src/lex.rs:130-132 | the span is that of the last token handed out, or the initial empty span |
| Lex.Lexer.Slice | lang/src/lex.rs:142-144 | the slice is the text of the last token handed out |
| Lex.Lexer.Done | lang/src/lex.rs:171-176 | returns the source with the span of the last token handed out |
| Lex.KeywordOf | lang/src/lex.rs:6-38 | a word recognised as a keyword is spelled as that keyword |
| Lex.ClassifyWord | lang/src/lex.rs:7-38 | a word is a keyword exactly when its lower-case form is one; an all-digit word is `Digits` |
| Lex.KeywordsIgnoreCase | lang/src/lex.rs:245-249 | a word is keyword `k` exactly when it lower-cases to `k`'s spelling (`BpM` is `bpm`) |
| Text.ParseUnsigned | lang/src/keywords.rs:7-8 | `parse::<uN>()` only yields values below the type's limit |
| Text.ParseUnsignedAccepts | lang/src/keywords.rs:7-8 | a parse succeeds exactly on an optional `+` and a non-empty digit string whose value is below the limit |
| Text.NatToStringRoundTrip | lang/src/seq_types.rs:93-96 | a printed number is a non-empty digit string whose value is the number |
| Text.ParsePrinted | lang/src/seq_types.rs:93-96 | parsing the printed form of an in-range number gives the number back |
| Text.ToLower | lang/src/lex.rs:7-38 | lower-casing keeps the length and folds each character |
| Environment.ResolveFinds | lang/src/env.rs:25-32 | a lookup fails exactly when no scope binds the name, and otherwise returns a binding of some scope |
| Environment.InnermostWins | lang/src/env.rs:25-32 | the innermost scope binding a name shadows all outer ones |
| Environment.WithBinding | lang/src/env.rs:42-45 | `set` changes only the innermost scope, binding the name to the value |
| Environment.SetThenLookup | lang/src/env.rs:42-45 | after `set(nm, v)` `nm` resolves to `v` and every other name as before |
| Environment.ScopedBindingIsForgotten | lang/src/env.rs:34-45 | a name bound after `step_in` resolves to its value until `step_out`; afterwards every name resolves as before `step_in` |
| Environment.StepInOut | lang/src/env.rs:34-40 | `step_in` then `step_out` restores the stack |
| Environment.ResolveOk | lang/src/env.rs:25-32 | a lookup in well-formed scopes finds a well-formed value: a bar among them is a compiled one |
| Environment.BindingOk | lang/src/env.rs:34-45 | `set` of a well-formed value and `step_in` keep the scopes well formed |
| Environment.Env.constructor | lang/src/env.rs:18-23 | one empty scope, no runtime call |
| Environment.Env.Lookup | lang/src/env.rs:25-32 | returns the binding of the innermost scope that has the name |
| Environment.Env.StepIn | lang/src/env.rs:34-36 | pushes one empty scope |
| Environment.Env.StepOut | lang/src/env.rs:38-40 | pops the innermost scope |
| Environment.Env.Set | lang/src/env.rs:42-45 | binds in the innermost scope and nothing else |
| Environment.Env.Forward | lang/src/env.rs:63-105 | each runtime forwarder makes exactly its one call and leaves the scopes alone |
| Err.FromMsg | lang/src/err.rs:6-10 | a bare message becomes a `Msg` error |
| Err.Error.FilePath | lang/src/err.rs:18-23 | only an error from an included file has a path, and it is the one stored |
| Err.Error.Msg | lang/src/err.rs:34-39 | the message of either kind of error |
| Err.Error.LineNum | lang/src/err.rs:25-32 | the line number is `lines().count()` of the text before the span: its line feeds, plus one when the text after the last of them is not empty (`"ab\ncd"` gives 2) |
| Err.Error.PreTxt | lang/src/err.rs:41-49 | the text from the start of the span's line up to the span: no line feed in it, and a line feed or the start of the text before it |
| Err.Error.Txt | lang/src/err.rs:51-56 | the text under the span, character by character |
| Err.Error.PostTxt | lang/src/err.rs:58-66 | the text from the span's end to the end of its line: no line feed in it, and a line feed or the end of the text after it |
| Err.ContextIsContiguous | lang/src/err.rs:41-66 | pre-text, text and post-text joined are one contiguous slice of the source |
| Err.Find | lang/src/err.rs:58-66 | `find` gives the first index of the character, or none when it is absent |
| Err.RFind | lang/src/err.rs:41-49 | `rfind` gives the last index of the character, or none when it is absent |
| Err.LinesCount | lang/src/err.rs:25-32 | `lines().count()` is the number of line feeds, plus one for an unterminated last line |
| SeqTypes.AfterTrig | lang/src/seq_types.rs:35-39 | `trig` moves the cursor by dur + 1 and leaves the recorded length alone |
| SeqTypes.TrigEffect | lang/src/seq_types.rs:35-39 | `trig` appends exactly one note of duration dur + 1 at the old cursor and changes no other offset |
| SeqTypes.AfterRests | lang/src/seq_types.rs:41-43 | `rests(n)` moves the cursor by n and changes no event |
| SeqTypes.AfterCr | lang/src/seq_types.rs:25-28 | `cr` records the longest line and returns the cursor to 0, keeping the reported length |
| SeqTypes.Finished | lang/src/seq_types.rs:30-33 | `done` reports at least the cursor and the longest line, and every event lies before that length |
| SeqTypes.AfterMerge | lang/src/seq_types.rs:45-59 | `merge` of a bar of length n moves the cursor by n |
| SeqTypes.MergeEffect | lang/src/seq_types.rs:45-59 | after `merge`, each offset holds its old notes followed by the merged bar's notes shifted to the cursor |
| SeqTypes.MergeShifts | lang/src/seq_types.rs:45-59 | each event of a merged bar lands at cursor + its offset, after what was there |
| SeqTypes.BuilderKeepsInvariant | lang/src/seq_types.rs:24-60 | every builder operation keeps every event before the reported length |
| SeqTypes.TrigKeepsInvariant | lang/src/seq_types.rs:35-39 | `trig` keeps the invariant and stores durations of at least one step |
| SeqTypes.MergeKeepsInvariant | lang/src/seq_types.rs:45-59 | `merge` of a compiled bar keeps the invariant |
| SeqTypes.LineBuilder.constructor | lang/src/seq_types.rs:17-22 | the default builder is empty |
| SeqTypes.LineBuilder.Cr | lang/src/seq_types.rs:25-28 | the builder's new state is `AfterCr` of the old one |
| SeqTypes.LineBuilder.Done | lang/src/seq_types.rs:30-33 | reports `Finished` of the builder's state |
| SeqTypes.LineBuilder.Trig | lang/src/seq_types.rs:35-39 | the builder's new state is `AfterTrig` of the old one |
| SeqTypes.LineBuilder.Rests | lang/src/seq_types.rs:41-43 | the builder's new state is `AfterRests` of the old one |
| SeqTypes.LineBuilder.Merge | lang/src/seq_types.rs:45-59 | the loop over the merged offsets ends in `AfterMerge` of the old state |
| SeqTypes.LineBuilderScenario | lang/src/seq_types.rs:66-84 | trig/rests/trig, cr, trig/rests gives length 20, two notes at 0 and one at 10 |
| SeqTypes.RowShape | lang/src/seq_types.rs:103-139 | a printed line has one cell per offset, and each cell is that offset's note for this line, a rest or a tie |
| SeqTypes.RowLength | lang/src/seq_types.rs:106-135 | a printed line has as many cells as the bar has steps |
| SeqTypes.RowCell | lang/src/seq_types.rs:106-135 | the cell of a printed line at each offset is a note, a rest or a tie, and the line's own note where that offset has one |
| SeqTypes.CellShape | lang/src/seq_types.rs:108-134 | a cell is `(nn vel) ` for the line's note of its offset, otherwise `- `, `= ` or `=>` |
| SeqTypes.RowsShape | lang/src/seq_types.rs:97-141 | a bar prints one line per voice of its largest chord, each with one cell per step |
| SeqTypes.RowsNext | lang/src/seq_types.rs:103-139 | each further line appends its text and carries the tie state on |
| SeqTypes.ChordBound | lang/src/seq_types.rs:110 | no offset holds more notes than the largest chord |
| SeqTypes.DisplayLine | lang/src/seq_types.rs:104-138 | the loop writes exactly the line's cells and raises the line count to the largest chord seen |
| SeqTypes.Display | lang/src/seq_types.rs:93-144 | `{}` writes `Render` of the value |
| SeqTypes.DisplayBar | lang/src/seq_types.rs:97-141 | the outer loop writes every line of the bar |
| BarParser.RunEnds | lang/src/bar.rs:35-38 | a run of a token is non-empty exactly when it starts there, and ends at a different token |
| BarParser.RunTokens | lang/src/bar.rs:35-38 | every token of a run is that token |
| BarParser.RunOfPrefix | lang/src/bar.rs:35-38 | n equal tokens followed by another token make a run of exactly n |
| BarParser.RestsStep | lang/src/bar.rs:31-42 | a run of N dashes is consumed and is N steps of rest; without a dash the builder is untouched |
| BarParser.TriggerStep | lang/src/bar.rs:44-79 | a name succeeds exactly when it resolves; an unknown name fails right after it with the builder untouched |
| BarParser.TiesStep | lang/src/bar.rs:56-76 | ties and the legato mark after a resolved name never fail |
| BarParser.TriggerPlacement | lang/src/bar.rs:56-76 | a trigger with k ties becomes one note lasting k + 1 steps; a bar is merged and followed by k steps of rest |
| BarParser.ItemStep | lang/src/bar.rs:10-25 | the item loop goes on only after an item that succeeded and consumed a token |
| BarParser.Items | lang/src/bar.rs:10-26 | the item loop never moves backwards |
| BarParser.BarSpec | lang/src/bar.rs:4-29 | a bar must start with `[`; otherwise it fails after one token with the builder untouched |
| BarParser.ItemsEndAtClose | lang/src/bar.rs:12-15 | a bar that parses ends just after a `]` |
| BarParser.ItemErrors | lang/src/bar.rs:18-24 | a lexing error or the end of input fails in place; any other stray token is consumed first |
| BarParser.PlaceKeepsInvariant | lang/src/bar.rs:70-76 | placing a well-formed trigger or bar keeps every event before the builder's length, each at least one step long |
| BarParser.ItemsKeepInvariant | lang/src/bar.rs:10-26 | under well-formed scopes the item loop keeps the builder's invariant |
| BarParser.ItemStepKeepsInvariant | lang/src/bar.rs:11-24 | under well-formed scopes one round of the item loop keeps the builder's invariant |
| BarParser.RestsKeepInvariant | lang/src/bar.rs:31-42 | a run of dashes keeps the builder's invariant |
| BarParser.TriggerKeepsInvariant | lang/src/bar.rs:44-80 | under well-formed scopes a named trigger or bar, with its ties and `>`, keeps the builder's invariant |
| BarParser.BarKeepsInvariant | lang/src/bar.rs:4-29 | under well-formed scopes a bar compiles to events before its length, each at least one step long |
| BarParser.ItemStepShift | lang/src/bar.rs:10-25 | one item succeeds or fails alike, stops at the same token and moves the cursor as far whatever the builder held |
| BarParser.ItemsShift | lang/src/bar.rs:10-26 | the same for the whole item loop: a bar's effect on the cursor does not depend on where the cursor was |
| BarParser.BarShift | lang/src/bar.rs:4-29 | a bar parsed into any builder moves its cursor by the bar's width, with the outcome and end position of a parse into a fresh builder |
| BarParser.RestsBarScenario | lang/src/bar.rs:86-99 | `[X - - -]` with `X` a trigger is four steps long with one one-step note at offset 0: dashes are rests |
| BarParser.BounceBarScenario | lang/src/bar.rs:101-112 | with `bounce` bound to that bar, `[bounce bounce bounce bounce]` is sixteen steps with one note at each of 0, 4, 8 and 12 |
| BarParser.CountRun | lang/src/bar.rs:35-38 | the counting loops consume exactly the run and return its length |
| BarParser.BarRests | lang/src/bar.rs:31-42 | outcome, position and builder as `RestsStep` |
| BarParser.PlaceValue | lang/src/bar.rs:70-76 | the builder calls for the named value, as `Place` |
| BarParser.BarTrigger | lang/src/bar.rs:44-79 | outcome, position and builder as `TriggerStep` |
| BarParser.ReadTies | lang/src/bar.rs:56-68 | counts the `=` run, then consumes one `>` exactly when it follows |
| BarParser.TiesAndPlace | lang/src/bar.rs:56-76 | position and builder as `TiesStep` |
| BarParser.ParseItem | lang/src/bar.rs:11-25 | one round of the item loop as `ItemStep` |
| BarParser.Parse | lang/src/bar.rs:4-29 | outcome, position and builder as `BarSpec`; the scopes are only read |
| Keywords.Command | lang/src/keywords.rs:4-105 | every command consumes at least its keyword |
| Keywords.UnarySucceeds | lang/src/keywords.rs:38-56 | a one-number command succeeds exactly on a parsable number, consuming two tokens and making its one call |
| Keywords.BinarySucceeds | lang/src/keywords.rs:14-36 | a two-number command succeeds exactly on two parsable numbers, consuming three tokens and making its one call |
| Keywords.FirstArgumentErrors | lang/src/keywords.rs:7-8 | a missing or unparsable first number fails with that keyword's message, right after it |
| Keywords.SecondArgumentErrors | lang/src/keywords.rs:19-20 | a missing or unparsable second number fails with that keyword's message, right after it |
| Keywords.OpenOutputChannel | lang/src/keywords.rs:64-78 | `open_output` never opens a channel above 15; a channel of 16 to 255 is out of range, a larger one does not parse |
| Keywords.BadNumberIsOverflow | lang/src/keywords.rs:7-8 | on a well-formed stream a number that does not parse is one too large for the type |
| Keywords.ReadNum | lang/src/keywords.rs:7-8 | consumes one token and reads it as `NumAt` |
| Keywords.OneNumber | lang/src/keywords.rs:38-56 | outcome, position and runtime calls as `Unary`; the scopes are untouched |
| Keywords.TwoNumbers | lang/src/keywords.rs:14-36 | outcome, position and runtime calls as `Binary`; the scopes are untouched |
| Keywords.SecondNumber | lang/src/keywords.rs:70-76 | the second number and the call, as `SecondArg` |
| Keywords.NoArgument | lang/src/keywords.rs:58-62 | `list_outs`/`find_lps` consume the keyword and always make their call |
| Keywords.RunCommand | lang/src/keywords.rs:4-105 | every command as `Command`: outcome, position, at most one runtime call |
| ParseFsm.NoteToU8 | lang/src/parse_fsm.rs:169-195 | a pitch name's number lies in 23..130, so the cast to u8 never wraps |
| ParseFsm.NoteNumbers | lang/src/parse_fsm.rs:170-193 | `C_4` is 72 in either case; `B_4` equals `C#4`, because B has pitch class 1; the extremes are 23 and 130 |
| ParseFsm.OctaveStep | lang/src/parse_fsm.rs:188-193 | one octave up is twelve semitones up |
| ParseFsm.AccidentalStep | lang/src/parse_fsm.rs:181-193 | a sharp is one above the natural, a flat one below |
| ParseFsm.NoteAt | lang/src/parse_fsm.rs:134 | a `Note` token's pitch lies in 23..130 |
| ParseFsm.TriggerAt | lang/src/parse_fsm.rs:130-159 | a trigger parse always consumes its first token |
| ParseFsm.TriggerArgsAt | lang/src/parse_fsm.rs:133-158 | after the `(`, the pitch, velocity and `)` always consume at least the pitch token |
| ParseFsm.TriggerRestAt | lang/src/parse_fsm.rs:145-158 | after the pitch, the velocity and `)` always consume at least one token |
| ParseFsm.TriggerRanges | lang/src/parse_fsm.rs:130-159 | a trigger that parses is four tokens, its velocity below 128, a numeric pitch below 128 and a named pitch `note_to_u8` |
| ParseFsm.NumberErrors | lang/src/parse_fsm.rs:135-150 | a number that is not a byte is unparsable, one of 128 or more is out of range, each with its own message for pitch and velocity |
| ParseFsm.TriggerEndErrors | lang/src/parse_fsm.rs:141-152 | running out at the pitch says so; at the velocity it is an unparsable velocity |
| ParseFsm.BarValue | lang/src/parse_fsm.rs:75-80 | the value of a finished builder is a bar of its length and events |
| ParseFsm.BarAt | lang/src/parse_fsm.rs:75-80 | a bar value consumes at least its first token |
| ParseFsm.AliasAt | lang/src/parse_fsm.rs:161-167 | an alias consumes one token and succeeds exactly when the name resolves, with the bound value |
| ParseFsm.ValueAt | lang/src/parse_fsm.rs:63-73 | a value never moves backwards and never drops a scope |
| ParseFsm.SequenceAt | lang/src/parse_fsm.rs:82-93 | a sequence always leaves one more scope than it found |
| ParseFsm.SeqAssignmentsAt | lang/src/parse_fsm.rs:95-109 | the local assignments never move backwards or drop a scope |
| ParseFsm.SeqAssignStep | lang/src/parse_fsm.rs:96-107 | the loop goes on only after a round that succeeded and consumed a token |
| ParseFsm.AssignmentAt | lang/src/parse_fsm.rs:33-42 | an assignment consumes at least its `=` position |
| ParseFsm.BindAt | lang/src/parse_fsm.rs:38-41 | the value and the binding after `=` never move backwards or drop a scope |
| ParseFsm.SeqBarsAt | lang/src/parse_fsm.rs:111-128 | the rows of a sequence never move backwards |
| ParseFsm.SeqBarStep | lang/src/parse_fsm.rs:116-126 | the loop goes on only after a row that succeeded and consumed a token |
| ParseFsm.AssignmentBinds | lang/src/parse_fsm.rs:33-42 | `name = value` succeeds exactly when the value does; the name then resolves to it, and every other name as before |
| ParseFsm.AssignmentNeedsEq | lang/src/parse_fsm.rs:36 | a missing `=` fails right after the token in its place, with nothing bound |
| ParseFsm.NameIsPreviousToken | lang/src/parse_fsm.rs:34-39 | the name bound is the text of the token before the `=` |
| ParseFsm.SeqAssignmentsEndAtBar | lang/src/parse_fsm.rs:95-109 | the local assignments stop with success only at a `[` |
| ParseFsm.SeqBarsLayer | lang/src/parse_fsm.rs:111-128 | the rows end at `}`; after a row the cursor is back at 0 and the recorded length never shrinks |
| ParseFsm.SeqBarsLength | lang/src/parse_fsm.rs:111-128 | the rows leave the cursor at 0 and the recorded length at the larger of what was recorded and the longest row |
| ParseFsm.SequenceLength | lang/src/parse_fsm.rs:82-93 | a sequence that parses is exactly as long as its longest row |
| ParseFsm.SeqBarsKeepInvariant | lang/src/parse_fsm.rs:111-128 | under well-formed scopes the rows of a sequence keep the builder's invariant |
| ParseFsm.ValueOk | lang/src/parse_fsm.rs:63-73 | under well-formed scopes every value parsed is well formed (a bar or sequence is a compiled one) and the scopes stay well formed |
| ParseFsm.SequenceOk | lang/src/parse_fsm.rs:82-93 | the same for a sequence |
| ParseFsm.SeqAssignmentsOk | lang/src/parse_fsm.rs:95-109 | the local assignments of a sequence keep the scopes well formed |
| ParseFsm.SeqAssignStepOk | lang/src/parse_fsm.rs:96-107 | the same for one round of that loop |
| ParseFsm.AssignmentOk | lang/src/parse_fsm.rs:33-42 | an assignment binds only well-formed values |
| ParseFsm.BindOk | lang/src/parse_fsm.rs:38-41 | the same for the value and binding after `=` |
| ParseFsm.BarKeepsMax | lang/src/bar.rs:4-29 | a bar never lowers the recorded length of the line |
| ParseFsm.SequenceLeavesScope | lang/src/parse_fsm.rs:82-93 | the scope a sequence pushes is never popped, and it holds its local assignments |
| ParseFsm.ValueKeepsScopes | lang/src/parse_fsm.rs:63-73 | only a sequence changes the scopes; triggers, bars and aliases do not |
| ParseFsm.SlotAssignmentAt | lang/src/parse_fsm.rs:44-61 | a slot assignment consumes at least its `<` |
| ParseFsm.SlotTargetAt | lang/src/parse_fsm.rs:50-60 | after the slot number the rest consumes at least one token and drops no scope |
| ParseFsm.SlotValueAt | lang/src/parse_fsm.rs:53-60 | the value of a slot assignment never moves backwards or drops a scope |
| ParseFsm.SlotAssignmentCalls | lang/src/parse_fsm.rs:44-61 | succeeds exactly on `<n> = bar`, assigning the bar to slot n; a trigger is refused |
| ParseFsm.SlotAssignmentCompiled | lang/src/parse_fsm.rs:44-61 | under well-formed scopes a slot assignment hands `assign_slot` a compiled bar: events before the length, notes at least one step long |
| ParseFsm.RootAt | lang/src/parse_fsm.rs:4-31 | `root` never drops a scope |
| ParseFsm.StatementAt | lang/src/parse_fsm.rs:6-29 | the loop goes on only after a statement that succeeded and consumed a token |
| ParseFsm.LocalStatementAt | lang/src/parse_fsm.rs:6-28 | a statement other than `do_file` fails only with a message of its own file |
| ParseFsm.PathEnd | lang/src/keywords.rs:118-126 | the first line end or end of input from a position on |
| ParseFsm.DoFileAt | lang/src/keywords.rs:107-132 | `do_file` consumes at least its keyword |
| ParseFsm.SubResult | lang/src/env.rs:56-60 | an included file's own error is tagged with its text and the span where it stopped; a nested one passes through |
| ParseFsm.IncludeFile | lang/src/env.rs:47-61 | an include never drops a scope |
| ParseFsm.RootSkipsEol | lang/src/parse_fsm.rs:7-9 | `root` skips line ends |
| ParseFsm.RootStopsAtEof | lang/src/parse_fsm.rs:27 | `root` stops with success at the end of input, consuming nothing |
| ParseFsm.LocalAtLineEnds | lang/src/parse_fsm.rs:7-27 | a line end is one round of the loop that does nothing; the end of input ends the loop |
| ParseFsm.RootRejects | lang/src/parse_fsm.rs:28 | a token no statement starts with fails as an unknown symbol, consuming nothing |
| ParseFsm.CommandAssignsNothing | lang/src/keywords.rs:4-105 | no command assigns a slot |
| ParseFsm.RootOk | lang/src/parse_fsm.rs:4-31 | from well-formed scopes `root` keeps them well formed, and every `assign_slot` it makes, included files too, hands over a compiled bar |
| ParseFsm.StatementOk | lang/src/parse_fsm.rs:6-29 | the same for one round of the loop |
| ParseFsm.LocalStatementOk | lang/src/parse_fsm.rs:6-26 | the same for a round that stays in the current file: an assignment, a slot assignment, a command, a line end or an error |
| ParseFsm.DoFileOk | lang/src/keywords.rs:107-132 | the same for `do_file` |
| ParseFsm.IncludeOk | lang/src/env.rs:47-61 | the same for one include |
| ParseFsm.RootEnds | lang/src/parse_fsm.rs:4-31 | `root` succeeds only at the end of input; an included file's error leaves the lexer just past a line end |
| ParseFsm.StatementEnds | lang/src/parse_fsm.rs:6-29 | a statement that ends the loop with success is the end of input; one with an included file's error is `do_file` |
| ParseFsm.DoFilePositions | lang/src/keywords.rs:107-130 | `do_file` before a line end needs a path; otherwise the lexer ends just past the first line end from two tokens after the path's first |
| ParseFsm.PathOverrun | lang/src/keywords.rs:110-130 | the path always covers the token after its first one, so a one-token path swallows its line end and the next line |
| ParseFsm.IncludeShares | lang/src/env.rs:47-61 | an included file runs against the same scopes and runtime; its errors are tagged with its text |
| ParseFsm.IncludeOpens | lang/src/env.rs:47-61 | a file on offer is parsed from its start |
| ParseFsm.IncludeMissing | lang/src/env.rs:48-50 | a file that cannot be opened is an error and nothing happens |
| ParseFsm.IncludeBeyondDepth | lang/src/env.rs:47-61 | with no inclusion depth left an include is an error and nothing happens |
| ParseFsm.SubErrorsLocated | lang/src/env.rs:56-60 | an included file's error carries a span inside that file's text |
| ParseFsm.DoFileSubLocated | lang/src/keywords.rs:130 | the same for the error of a `do_file` |
| ParseFsm.IncludeSubLocated | lang/src/env.rs:52-60 | the same for one include |
| ParseFsm.StatementDoFile | lang/src/parse_fsm.rs:25 | a statement starting with `do_file` is that command |
| ParseFsm.ReadSmallByte | lang/src/parse_fsm.rs:135-139 | the slice read as a byte below 128 |
| ParseFsm.ReadPitch | lang/src/parse_fsm.rs:133-143 | consumes one token and judges it as `PitchAt` |
| ParseFsm.ReadVelocity | lang/src/parse_fsm.rs:145-154 | consumes one token and judges it as `VelocityAt` |
| ParseFsm.ParseTrigger | lang/src/parse_fsm.rs:130-159 | outcome and position as `TriggerAt` |
| ParseFsm.TriggerArgs | lang/src/parse_fsm.rs:133-158 | outcome and position as `TriggerArgsAt` |
| ParseFsm.TriggerRest | lang/src/parse_fsm.rs:145-158 | outcome and position as `TriggerRestAt` |
| ParseFsm.ParseAlias | lang/src/parse_fsm.rs:161-167 | outcome as `AliasAt`, one token consumed |
| ParseFsm.ParseBar | lang/src/parse_fsm.rs:75-80 | outcome and position as `BarAt` |
| ParseFsm.Value | lang/src/parse_fsm.rs:63-73 | outcome, position and scopes as `ValueAt`; no runtime call |
| ParseFsm.Sequence | lang/src/parse_fsm.rs:82-93 | outcome, position and scopes as `SequenceAt`; no runtime call |
| ParseFsm.SeqAssignments | lang/src/parse_fsm.rs:95-109 | outcome, position and scopes as `SeqAssignmentsAt` |
| ParseFsm.SeqAssignOnce | lang/src/parse_fsm.rs:97-107 | one round as `SeqAssignStep` |
| ParseFsm.Assignment | lang/src/parse_fsm.rs:33-42 | outcome, position and scopes as `AssignmentAt` |
| ParseFsm.Bind | lang/src/parse_fsm.rs:38-41 | outcome, position and scopes as `BindAt` |
| ParseFsm.SeqBars | lang/src/parse_fsm.rs:111-128 | outcome, position and builder as `SeqBarsAt` |
| ParseFsm.SeqBarOnce | lang/src/parse_fsm.rs:116-126 | one round as `SeqBarStep` |
| ParseFsm.SlotAssignment | lang/src/parse_fsm.rs:44-61 | outcome, position, scopes and the `assign_slot` call as `SlotAssignmentAt` |
| ParseFsm.SlotTarget | lang/src/parse_fsm.rs:50-60 | the rest after the slot number, as `SlotTargetAt` |
| ParseFsm.SlotValue | lang/src/parse_fsm.rs:53-60 | the value and the call, as `SlotValueAt` |
| ParseFsm.Root | lang/src/parse_fsm.rs:4-31 | outcome, position, scopes and every runtime call in order, as `RootAt` |
| ParseFsm.Statement | lang/src/parse_fsm.rs:6-29 | one round of the loop as `StatementAt` |
| ParseFsm.KwDoFile | lang/src/keywords.rs:107-132 | outcome, position, scopes and calls as `DoFileAt` |
| ParseFsm.ScanToLineEnd | lang/src/keywords.rs:118-126 | stops at the first line end from one token on and returns the end of the token before it |
| ParseFsm.EnvDoFile | lang/src/env.rs:47-61 | outcome, scopes and calls as `IncludeFile` |
| ParseFsm.RunFile | lang/src/env.rs:52-60 | a file on offer, run from its start, as `IncludeFile` |
| Lib.Report | lang/src/lib.rs:32-45 | success exactly when `root` succeeds; a local error carries the whole source and the last span, an included one the path |
| Lib.Parse | lang/src/lib.rs:32-45 | `parse` reports `Report` of `root` from the start of a fresh lexer |
| Lib.ParseSucceedsAtEnd | lang/src/lib.rs:32-45 | `parse` succeeds only after consuming the whole input |
| Lib.ErrorsLocated | lang/src/lib.rs:36-43 | on well-formed input every reported error's span lies inside its text |
| Lib.SubPathIsLineEnd | lang/src/lib.rs:40-43 | the "path" of an included file's error is the text of the line end after the `do_file` line |
| Lib.ParseAssignsCompiled | lang/src/lib.rs:32-45 | every bar `parse` hands the runtime, from a fresh environment or one a previous `parse` left, has its events before its length and notes at least one step long |
| SequenceTypes.MapSeq.EventsAt | src/sequence_types/mod.rs:29-31 | the notes of a step exactly when the step has an entry |
| SequenceTypes.New | src/sequence_types/mod.rs:16-21 | the new sequence has the given length and the given notes at every step |
| SequenceTypes.FromPair | src/sequence_types/mod.rs:34-38 | the pair is taken length first |
| SequenceTypes.CompiledBarSteps | src/sequence_types/mod.rs:29-38 | a bar meeting `BarOk`, as every bar from `parse` does (`Lib.ParseAssignsCompiled`), has notes only at steps before its length once made a `MapSeq`, each at least one step long |
| Voicers.ChannelStatus | src/player/voicer.rs:18-60 | on channels 0 to 15 the or is an addition; on a larger channel it changes the message kind |
| Voicers.NoteOn | src/player/voicer.rs:56-60 | note-on carries the key and velocity, status 0x90 + channel |
| Voicers.NoteOff | src/player/voicer.rs:18-26 | note-off carries the key and release velocity, status 0x80 + channel |
| Voicers.Aged | src/player/voicer.rs:28-46 | `tick` never grows the buffer |
| Voicers.AllOffs | src/player/voicer.rs:48-54 | one note-off per note |
| Voicers.AllOffsAt | src/player/voicer.rs:48-54 | the note-off of each note, in buffer order |
| Voicers.AgedStep | src/player/voicer.rs:28-46 | one more `tick` ages the survivors one more step |
| Voicers.RoundOffs | src/player/voicer.rs:18-46 | in round k `pre_tick` ends the plain notes that had k steps, `tick` the legato ones |
| Voicers.NoteLifetimes | src/player/voicer.rs:18-46 | after k rounds of `pre_tick`/`tick`, the buffer and every note-off sent are told from the starting buffer |
| Voicers.OneNoteOff | src/player/voicer.rs:18-46 | a note with d steps is ended exactly once, in round d + 1 |
| Voicers.OneNoteRounds | src/player/voicer.rs:18-46 | its one note-off appears only once the note has run out |
| Voicers.UnendedNote | src/player/voicer.rs:28-46 | a run-out plain note that meets `tick` without `pre_tick` is dropped without a note-off |
| Voicers.Voicer.constructor | src/player/voicer.rs:10-16 | nothing sounding, nothing sent |
| Voicers.Voicer.PlayNote | src/player/voicer.rs:56-60 | sends the note-on then records the note; a failed send records nothing |
| Voicers.Voicer.PreTick | src/player/voicer.rs:18-26 | sends `PreTickOffs` and keeps the buffer |
| Voicers.Voicer.Tick | src/player/voicer.rs:28-46 | the buffer becomes `Aged`, sending `TickOffs` |
| Voicers.Voicer.KillAll | src/player/voicer.rs:48-54 | a note-off for every note, in order, and an empty buffer |
| Slots.AfterPlay | src/player/slot.rs:82-84 | `play` changes only the transport |
| Slots.AfterStop | src/player/slot.rs:86-90 | `stop` changes only the transport and rewinds the cursor |
| Slots.AfterToggle | src/player/slot.rs:92-101 | `toggle` without a sync period starts or stops at once, with one asks to switch at the next boundary, and cancels a pending switch; it never yields `StopSync` |
| Slots.AfterSync | src/player/slot.rs:62-74 | at a boundary a pending start plays and a pending stop stops; nothing else changes |
| Slots.AfterAssign | src/player/slot.rs:76-80 | `assign` sets the sequence and rewinds; transport, output, division and sync are kept |
| Slots.AfterSetSync | src/player/slot.rs:120-129 | `set_sync(0)` settles a pending switch at once; another period changes only the period |
| Slots.StateOf | src/player/slot.rs:103-114 | `Empty` exactly when no sequence is assigned, otherwise the transport |
| Slots.AfterTick | src/player/slot.rs:39-60 | a slot not playing is untouched; a playing one moves one tick, and on to the next step modulo the length every `tps` ticks |
| Slots.HeldOf | src/player/slot.rs:27-36 | one held note per step note, its duration in steps times `tps` |
| Slots.OnsOf | src/player/slot.rs:27-36 | one note-on per step note, with its key and velocity |
| Slots.Slot.constructor | src/player/slot.rs:132-144 | `Slot::default` |
| Slots.Slot.Tick | src/player/slot.rs:39-60 | the cursor as `AfterTick`; the voicer gets the step's notes at tick 0 of a playing slot |
| Slots.Slot.Sync | src/player/slot.rs:62-74 | the slot as `AfterSync` |
| Slots.Slot.Assign | src/player/slot.rs:76-80 | the slot as `AfterAssign` |
| Slots.Slot.Play | src/player/slot.rs:82-84 | the slot as `AfterPlay` |
| Slots.Slot.Stop | src/player/slot.rs:86-90 | the slot as `AfterStop` |
| Slots.Slot.Toggle | src/player/slot.rs:92-101 | the slot as `AfterToggle` |
| Slots.Slot.State | src/player/slot.rs:103-114 | the state as `StateOf` |
| Slots.Slot.SetDiv | src/player/slot.rs:116-118 | only the division changes |
| Slots.Slot.SetSync | src/player/slot.rs:120-129 | the slot as `AfterSetSync` |
| Slots.PlayStep | src/player/slot.rs:27-36 | each note of the step goes to the voicer in order, stopping at the first failed send |
| Slots.StoppedSyncedSlotStaysStopped | src/player/slot.rs:92-101 | toggling a stopped slot under a sync period leads back to stopped at the next boundary |
| Slots.ToggleTwice | src/player/slot.rs:92-101 | without a sync period, toggling twice restores the transport with the cursor rewound |
| Slots.ApplyAvoidsStopSync | src/player/slot.rs:62-129 | no operation enters `StopSync` |
| Slots.NeverStopSync | src/player/slot.rs:62-129 | no sequence of operations enters `StopSync` |
| Slots.DefaultNeverStopSync | src/player/slot.rs:132-144 | a slot that starts as the default never reports `StopSync` |
| Slots.TicksWithinStep | src/player/slot.rs:39-60 | a playing slot stays on a step for `tps` ticks, sounding only at the first, then moves to the next step |
| Slots.StepNotesLast | src/player/slot.rs:27-36 | every note a bar meeting `BarOk` (every bar from `parse`, `Lib.ParseAssignsCompiled`) gives a slot is held for at least one step of ticks |
| Sequencers.PreTickOne | src/player/sequencer.rs:45-47 | phase 1 keeps each voicer's buffer |
| Sequencers.TickOne | src/player/sequencer.rs:55-57 | phase 3 keeps each voicer's channel and connection |
| Sequencers.KillOne | src/player/sequencer.rs:69 | `kill_all` empties each voicer |
| Sequencers.PreTicked | src/player/sequencer.rs:45-47 | phase 1 is `pre_tick` on every voicer |
| Sequencers.Fed | src/player/sequencer.rs:49-53 | feeding keeps a voicer's channel and connection |
| Sequencers.Feed | src/player/sequencer.rs:49-53 | phase 2 keeps the number of outputs |
| Sequencers.FeedOne | src/player/sequencer.rs:51-52 | one slot feeds at most the output it names |
| Sequencers.FeedStep | src/player/sequencer.rs:49-53 | phase 2 goes through the slots in order, each synced before it ticks |
| Sequencers.SlotsTicked | src/player/sequencer.rs:49-53 | every slot is synced to the counter, then ticked |
| Sequencers.Ticked | src/player/sequencer.rs:55-57 | phase 3 is `tick` on every voicer |
| Sequencers.NextSync | src/player/sequencer.rs:59-62 | the counter moves on and wraps at 384 |
| Sequencers.TickOf | src/player/sequencer.rs:43-65 | a tick keeps the outputs, slots, tempo and Launchpad, and moves the counter on |
| Sequencers.FeedReaches | src/player/sequencer.rs:49-53 | output k ends phase 2 fed by every slot that names it, in slot order |
| Sequencers.FedByParts | src/player/sequencer.rs:49-53 | that is its own notes and messages followed by those of the slots |
| Sequencers.TickForVoicer | src/player/sequencer.rs:43-65 | a whole tick as output k sees it: phase-1 note-offs, then the slots' note-ons, then the phase-3 ageing |
| Sequencers.SyncTicksBounded | src/player/sequencer.rs:59-62 | the counter stays below 384 and returns to 0 exactly after 383 |
| Sequencers.UnroutedSlotSilent | src/player/sequencer.rs:51 | an output no slot names gets nothing in phase 2 |
| Sequencers.KillAllOf | src/player/sequencer.rs:67-70 | every slot stopped and rewound, every voicer silenced; nothing else changes |
| Sequencers.StopAll | src/player/sequencer.rs:68 | every slot stopped |
| Sequencers.KillAllOuts | src/player/sequencer.rs:69 | every voicer silenced |
| Sequencers.KillAllSilences | src/player/sequencer.rs:67-70 | after `kill_all` no slot plays and no note sounds |
| Sequencers.StateColor | src/player/sequencer.rs:143-149 | only an empty slot is dark |
| Sequencers.StateColorsDistinct | src/player/sequencer.rs:143-149 | different slot states light different colours |
| Sequencers.LpFrame | src/player/sequencer.rs:139-150 | one grid message per slot |
| Sequencers.LpFrameAt | src/player/sequencer.rs:139-149 | slot i goes to cell (i / 8, i % 8) in its state's colour |
| Sequencers.SyncLpOf | src/player/sequencer.rs:136-151 | nothing without a Launchpad, otherwise every slot's cell written |
| Sequencers.PadTogglesItsSlot | src/player/sequencer.rs:139-149 | pressing the pad lit for slot i < 64 decodes to slot i |
| Sequencers.SlotCmdOf | src/player/sequencer.rs:76-125 | a command to a slot past the end does nothing; otherwise only that slot changes, then the Launchpad is refreshed |
| Sequencers.InitOf | src/player/sequencer.rs:24-37 | `slot_count` default slots, no outputs, counter at 0 |
| Sequencers.Defaults | src/player/sequencer.rs:25-28 | n default slots |
| Sequencers.SaneReady | src/player/sequencer.rs:49-53 | sane slots can always tick, whatever the counter |
| Sequencers.InitSane | src/player/sequencer.rs:24-37 | a fresh sequencer's slots are sane |
| Sequencers.TickKeepsSane | src/player/sequencer.rs:43-65 | ticking keeps the slots sane |
| Sequencers.KillAllKeepsSane | src/player/sequencer.rs:67-70 | `kill_all` keeps the slots sane |
| Sequencers.CommandKeepsSane | src/player/sequencer.rs:76-125 | a slot command with a positive division and a non-empty sequence keeps the slots sane |
| Sequencers.Sequencer.Init | src/player/sequencer.rs:24-37 | the state is `InitOf` |
| Sequencers.Sequencer.SetBpm | src/player/sequencer.rs:39-41 | only the tempo changes |
| Sequencers.Sequencer.Tick | src/player/sequencer.rs:43-65 | the state is `TickOf` of the old one, and the result success |
| Sequencers.Sequencer.PreTickAll | src/player/sequencer.rs:45-47 | phase 1 on the outputs |
| Sequencers.Sequencer.SlotsPhase | src/player/sequencer.rs:49-53 | phase 2 on the slots and the outputs |
| Sequencers.Sequencer.TickAll | src/player/sequencer.rs:55-57 | phase 3 on the outputs |
| Sequencers.Sequencer.KillAll | src/player/sequencer.rs:67-70 | the state is `KillAllOf` of the old one |
| Sequencers.Sequencer.PushOutput | src/player/sequencer.rs:88-91 | appends the voicer and returns the new count |
| Sequencers.Sequencer.SyncLp | src/player/sequencer.rs:136-151 | the state is `SyncLpOf` of the old one |
| Sequencers.Sequencer.AddLp | src/player/sequencer.rs:127-130 | attaches a Launchpad, then shows every slot on it |
| Sequencers.Sequencer.DropLp | src/player/sequencer.rs:132-134 | detaches the Launchpad |
| Sequencers.Sequencer.Command | src/player/sequencer.rs:76-125 | the state is `SlotCmdOf` of the old one |
| Controllers.GridKey | src/player/controllers/mod.rs:19-22 | the key is 16 * row + column, each clamped to 7 |
| Controllers.NibbleJoin | src/player/controllers/mod.rs:22 | the shift-and-or of two values below 8 is 16 * row + column |
| Controllers.GridMessage | src/player/controllers/mod.rs:19-25 | `set_grid` sends note-on 0x90, the cell's key and the colour |
| Controllers.ColorCode | src/player/controllers/mod.rs:128-143 | green brightness in the high nibble, red in the low one |
| Controllers.ColorCodesDistinct | src/player/controllers/mod.rs:128-143 | different colours have different codes |
| Controllers.MaskedNibbles | src/player/controllers/mod.rs:59-60 | masking and shifting a key give its quotient and remainder by 16 |
| Controllers.Decode | src/player/controllers/mod.rs:49-79 | a message that is not three bytes or not a note-on is an error; a release or a side button toggles nothing; a press toggles row * 8 + column |
| Controllers.GridRoundTrip | src/player/controllers/mod.rs:19-25 | pressing the pad written for cell (row, col) decodes to slot row * 8 + col |
| Controllers.SlotPadRoundTrip | src/player/controllers/mod.rs:19-67 | pressing the pad lit for slot i < 64 decodes to i |
| Controllers.DecodeBounds | src/player/controllers/mod.rs:61-71 | a release toggles nothing, and the slot number never exceeds 135, so it cannot wrap |
| Controllers.WideColumnAliases | src/player/controllers/mod.rs:63-67 | a key with column 9 to 15 reads as a slot of the next row |

## Left out

- The tokenizer itself. The `logos` lexer is a generated regular-expression
  matcher. Its output, a list of tokens with their spans, is an input here.
  `WellFormed` states what the parsers need from it. `ClassifyWord` covers
  only the keyword, `Digits` and `Sym` rules of whole words.
- Reading files. `Env::do_file` reads a file from disk. Here the files are a
  map from path to tokenized text. A path missing from the map is the
  "couldn't open file" error.
- Include depth. Nothing in the source bounds the recursion of `do_file`,
  and a file that includes itself recurses until the stack overflows. The
  model bounds inclusion by a depth argument. Running out of depth is the
  extra error `IncludeTooDeep`, which the source does not have.
- Environment.Env.StepOut: requires more than one scope. Popping the last
  scope would make the next `set` panic, and the parser never pops (see
  below).
- The `Runtime` trait. Its calls are recorded as a sequence of values in
  `Env.calls` and not carried out. `NullRt` and the REPL's runtime are not
  part of this model.
- Integer widths. `usize` counters are unbounded naturals. Sequence lengths,
  durations and the slot cursor are never wrapped; a 64-bit overflow cannot
  be reached in practice. Numbers parsed as `usize` are bounded by 2^64, and
  numbers parsed as `u8` by 256.
- Strings. They are sequences of characters, one per byte. Panics on slices
  that cut a multi-byte character are not modelled.
- The MIDI connection. A voicer's messages go to a log, `sent`. A failed
  note-on is modelled by a voicer whose `online` flag is false. Every other
  send is treated as succeeding: the source panics on a failed note-off.
  Creating connections, `Voicer::new` failing, and `VoiceError` display are
  left out.
- Voicers.Voicer: `Drop` is not modelled separately. It is `kill_all`.
- The timer. `TimeBuddy` and `wait` belong to `src/player/time.rs`, which is
  not part of this model. The sequencer records only the tempo its timer was
  made for.
- Threads. The player thread, the command channel (`SeqCmd` dispatch in
  `src/player/mod.rs`), the REPL and `main` are not part of this model.
- Sequencers.Sequencer: its outputs and slots are held as values (`SeqView`)
  rather than as objects the sequencer owns. Aliasing between them cannot
  arise in the source, which moves them in.
- Sequencers.Sequencer.Tick: requires `SlotsReady`. A playing slot with a
  zero division or an empty sequence makes the source divide by zero and
  panic. `SaneReady` and the `KeepsSane` lemmas show this cannot happen from
  `init` with positive divisions and non-empty sequences.
- Sequencers.Sequencer.SyncLp: the Launchpad's messages are logged whether
  or not the send succeeds. The source ignores the result.
- Sequencers.Sequencer.AddLp: the Launchpad's log starts empty.
- `lpad_in`, `lpad_out` and `find_lpad`. They open MIDI ports by name. Only
  the decoding in `lpad_cb` is modelled, as `Decode`. A callback that panics
  (`todo!`) is an error value here, and sending the toggle command is the
  decoded slot number.
- `lang/src/trigger.rs` and `lang/src/assignment.rs`. They are older parsers
  that `lib.rs` does not use.
- SeqTypes.Display: the `fmt::Error` a `write!` may return is not modelled;
  the text is built whole. Its `requires PositiveDurations` stands for the
  `n.duration - 1` at seq_types.rs:114, which would underflow on a note of
  duration 0. The builder never stores one (`SeqTypes.TrigKeepsInvariant`,
  `Lib.ParseAssignsCompiled`).
- SeqTypes.DisplayBar: the same two points as `SeqTypes.Display`.
- Text display of `SeqNote` through `Debug` and `VoiceError`/`LpadError`
  `Display` are left out. They are messages for people, not behaviour.

Behaviour that follows the code as written, where a reader might expect
otherwise:

- In a bar a dash is one step of rest, and a note is held only by ties
  (`=`) written after it. `[X - - -]` is one one-step note and three steps
  of silence (`BarParser.RestsBarScenario`).
- The pitch class of B is 1 (parse_fsm.rs:177), so `B_4` is `C#4`
  (`ParseFsm.NoteNumbers`).
- A sequence's scope is pushed and never popped (parse_fsm.rs:85), so its
  local names stay visible afterwards (`ParseFsm.SequenceLeavesScope`).
- The path of `do_file` is cut from the token after the keyword to the end
  of the token before the first line end found from two tokens later. A
  one-token path therefore takes its line end and the next line in
  (`ParseFsm.PathOverrun`).
- `lpad_cb` checks only for column 8, so keys with columns 9 to 15 alias
  slots of the next row (`Controllers.WideColumnAliases`).
- Toggling a stopped slot under a sync period asks it to switch at the next
  boundary, where it stops again (`Slots.StoppedSyncedSlotStaysStopped`).
  `StopSync` is never entered (`Slots.NeverStopSync`).
- A run-out legato note is ended by `tick`, and a run-out plain note by
  `pre_tick` of the next round (`Voicers.RoundOffs`).
