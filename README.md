# lunataiko: the TJA chart grammar and the game's application shell

lunataiko is a taiko drumming game. This project models two parts of it.

- **The TJA chart grammar.** Chart text has its `//` comments removed first
  (`preprocess_tja_file`). It is then read by a set of nom combinators into a
  list of items (`tja_file`). Each item is a `KEY:value` metadata line or a
  note track running from `#START` to `#END`. `parse_tja_file` also requires the
  metadata `TITLE`, `BPM` and `WAVE` and reports the first one missing.
- **The application shell (`App`).** It holds a stack of game states in which
  the top state runs. It also holds the keyboard state, a cache of textures by
  file name, and an FPS overlay switch that F1 toggles.

The grammar's implementation file is not part of this model. The combinators are
written so that every assertion of the parser's test suite
(`src/parser/test.rs`) holds. Where the tests are silent they follow nom's
conventions:

- blank space and line breaks before a command, an entry or an item are skipped;
- a metadata value runs to the end of its line, without the blanks after the
  colon;
- a command must be alone on its line, ending in `\n`, `\r\n` or the end of
  the input;
- `many0` stops at the first thing it cannot read;
- `tja_file` fails when anything but blank space is left over.

The digit 1 is Don, 2 is Kat and 0 is a rest. The digits 3 to 9 are kept as
the digit they were written with. `#MEASURE a/b` needs positive numbers.

Each assertion of the test suite is a lemma in `TjaExamples` or
`TjaSamples`. The lemma fixes the test's input text in its precondition and
states the combinator's result. These lemmas are proved from general laws:

- every printable item reads back as itself (`TjaLaws`);
- any note-track body laid out one entry per line reads as its entries
  (`TjaLines`);
- any chart laid out row by row reads as its rows' items (`TjaRows`);
- preprocessing leaves no comment, changes nothing in comment-free text, is
  idempotent and keeps every line break (`TjaPreprocess`).

Test inputs are written in the lemmas as concatenations of their lines.

The shell is modelled imperatively. `KeyboardState`, `TextureCache` and `App`
are classes whose methods update their fields. Game states are values of a
type parameter `S`. Their `update` and `handle_event` are passed in as
functions. The texture loader is a function from a path to a texture or an
error.

## Model

| member | source | states |
|---|---|---|
| TjaParser.MetadataTagname | src/parser/test.rs:7-16 | the tag is non-empty and made of upper-case letters and digits; the input is the tag followed by the rest, which starts with the colon |
| TjaParser.MetadataPair | src/parser/test.rs:19-36 | on success the tag is valid, the value is one line without leading blanks, and the rest is a strict suffix of the input |
| TjaParser.StartCommand | src/parser/test.rs:45-78 | on success the command is a `Start` and input was consumed |
| TjaParser.EndCommand | src/parser/test.rs:39-42 | on success the command is `End` and input was consumed |
| TjaParser.MeasureCommand | src/parser/test.rs:250-266 | on success the command is a measure with positive terms and input was consumed |
| TjaParser.InnerTrackCommand | src/parser/test.rs:81-87 | on success the command is one allowed inside a track (gogo start or end, a measure), and the input started with `#` |
| TjaParser.NoteOfDigit | src/parser/test.rs:90-109 | a digit gives a rest exactly when it is `0`, and a valid note otherwise |
| TjaParser.NoteGroup | src/parser/test.rs:90-109 | succeeds exactly when the input starts with a digit; one slot per digit in written order; the comma and what follows stay unconsumed |
| TjaParser.TrackEntry | src/parser/test.rs:111-137 | on success the entry is valid inside a track and input was consumed |
| TjaParser.TrackEntries | src/parser/test.rs:111-137 | every entry read is valid, and no entry can be read where it stopped |
| TjaParser.NoteTrackBlock | src/parser/test.rs:111-137 | on success the track starts with the `Start` command and holds only valid entries after it |
| TjaParser.TjaItem | src/parser/test.rs:139-184 | on success the item is valid and input was consumed |
| TjaParser.TjaItems | src/parser/test.rs:139-184 | every item read is valid, and no item can be read where it stopped |
| TjaParser.TjaFile | src/parser/test.rs:139-204 | on success nothing is left and every item is valid |
| TjaLexer.NumberOfNatText | src/parser/test.rs:250-266 | a number written in decimal reads back as itself and leaves the tail |
| TjaLaws.MetadataTagnameOf | src/parser/test.rs:7-16 | any valid tag before a colon is read back, leaving the colon |
| TjaLaws.MetadataPairOf | src/parser/test.rs:19-36 | any valid tag, blanks, value and line end read back as the pair, leaving what follows the line |
| TjaLaws.MetadataLineOf | src/parser/test.rs:19-36 | the same without blanks, for a line ending in `\n`, `\r\n` or the end of input |
| TjaLaws.StartCommandOf | src/parser/test.rs:45-69 | blank lines, `#START`, an optional player and a line end read as `Start(player)`, leaving the next line |
| TjaLaws.StartCommandRejectsTrailing | src/parser/test.rs:71-78 | `#START` followed by anything but a player and a line end fails |
| TjaLaws.StartCommandNeedsKeyword | src/parser/test.rs:71-78 | text not starting with `#START` after blank space fails |
| TjaLaws.EndCommandOf | src/parser/test.rs:39-40 | blank lines, `#END` and a line end read as `End` |
| TjaLaws.EndCommandRejectsTrailing | src/parser/test.rs:41 | `#END` followed by anything but a line end fails |
| TjaLaws.EndCommandNeedsKeyword | src/parser/test.rs:39-42 | text not starting with `#END` after blank space fails |
| TjaLaws.MeasureArgumentsOf | src/parser/test.rs:250-266 | `a/b` written in decimal with positive terms reads as `Measure(a, b)` |
| TjaLaws.InnerTrackCommandOf | src/parser/test.rs:82-85 | every inner command written alone on its line reads back as itself |
| TjaLaws.InnerTrackCommandRejectsArgument | src/parser/test.rs:86 | `#GOGOSTART` or `#GOGOEND` followed on its line by anything but a line end fails; so does `#MEASURE a/b` when what follows is no digit (a digit only lengthens `b`: `#MEASURE 5/4` then `2` reads as `Measure(5, 42)`) |
| TjaLaws.InnerTrackCommandRejectsEnd | src/parser/test.rs:111-137 | `#END` is not an inner command, so a track body stops there |
| TjaLaws.NoteOfDigitOfNote | src/parser/test.rs:90-109 | writing a valid slot as a digit and reading it back gives the slot |
| TjaLaws.NoteGroupOf | src/parser/test.rs:90-109 | any non-empty run of valid slots reads back as itself when no digit follows |
| TjaLaws.CommaEndsMeasure | src/parser/test.rs:111-137 | a comma after blank space is a measure end |
| TjaLaws.TrackEntryOf | src/parser/test.rs:111-137 | every valid entry, as printed, reads back as itself |
| TjaLaws.TrackEntriesOf | src/parser/test.rs:111-137 | any sequence of valid entries, as printed, reads back in order, stopping at `#END` |
| TjaLaws.NoteTrackRoundTrip | src/parser/test.rs:111-137 | every valid track, as printed, reads back as itself |
| TjaLaws.TjaItemOf | src/parser/test.rs:139-184 | every valid item, as printed, reads back as itself |
| TjaLaws.TjaItemsOf | src/parser/test.rs:139-184 | any list of valid items, as printed and followed by blank space, reads back in order |
| TjaLaws.TjaFileRoundTrip | src/parser/test.rs:139-184 | `tja_file` reads any printed list of valid items back as that list, with nothing left |
| TjaLayout.TrackEntrySkipsBlank | src/parser/test.rs:151-160 | blank space before an entry does not change what is read |
| TjaLayout.TjaItemSkipsBlank | src/parser/test.rs:145-151 | blank space before an item does not change what is read |
| TjaLayout.NoteTrackOf | src/parser/test.rs:111-137 | a track reads as the start command followed by whatever its body reads as, when the body stops at `#END` |
| TjaLayout.FileOf | src/parser/test.rs:139-184 | items followed only by blank space make the whole file |
| TjaLines.LinesEntriesOf | src/parser/test.rs:151-160 | well-formed lines in front of text whose reading stops before some point read as their lines' entries, then that text's, and still stop before that point |
| TjaLines.BodyEntriesOf | src/parser/test.rs:151-160 | a body laid out one entry per line, blank lines anywhere, reads as its lines' entries and stops before `#END` |
| TjaLines.TrackOfLines | src/parser/test.rs:111-137 | a track laid out that way reads as `Start` followed by its lines' entries |
| TjaLines.TrackRejectsArgument | src/parser/test.rs:186-203 | after any well-formed body lines and blank space, an inner command with something else on its line makes the whole track fail |
| TjaLines.TrackRejectsTrailingEnd | src/parser/test.rs:39-42 | a track whose `#END` has something else on its line fails, whatever well-formed lines come before |
| TjaRows.RowsItemsOf | src/parser/test.rs:139-184 | a chart laid out row by row reads as its rows' items, in order, with only blank space left |
| TjaRows.FileOfRows | src/parser/test.rs:139-184 | `tja_file` accepts such a chart and returns its rows' items |
| TjaRows.RowsPrefix | src/parser/test.rs:186-203 | valid rows in front of any text contribute their items and leave the outcome to that text |
| TjaRows.FileStuckAfterRows | src/parser/test.rs:186-203 | valid rows followed by text that is neither an item nor blank make `tja_file` fail |
| TjaRows.FileRejectsTrack | src/parser/test.rs:186-203 | valid rows followed by `#` text that is no note track make `tja_file` fail, whatever comes after |
| TjaRows.FileRejectsStartArgument | src/parser/test.rs:71-78 | after valid rows, a `#START` with anything but ` P1` or ` P2` and a line end on its line makes `tja_file` fail |
| TjaRows.FileRejectsCommandArgument | src/parser/test.rs:186-203 | after valid rows, a track with an inner command that has something else on its line, after any well-formed body lines, makes `tja_file` fail |
| TjaRows.FileRejectsEndArgument | src/parser/test.rs:39-42 | after valid rows, a track whose `#END` has something else on its line makes `tja_file` fail |
| TjaPreprocess.PreprocessTjaFile | src/parser/test.rs:231-235 | comment removal never lengthens the text, and keeps a leading `/` only when the input had one |
| TjaPreprocess.PreprocessLeavesNoComment | src/parser/test.rs:231-235 | no `//` remains after preprocessing |
| TjaPreprocess.PreprocessCommentFree | src/parser/test.rs:229 | text without `//` is left unchanged |
| TjaPreprocess.PreprocessIdempotent | src/parser/test.rs:229-235 | preprocessing twice is preprocessing once |
| TjaPreprocess.PreprocessKeepsLineBreaks | src/parser/test.rs:231-235 | preprocessing keeps every `\r` and every `\n` |
| TjaPreprocess.CommentRemoved | src/parser/test.rs:231 | a `//` comment is dropped up to its line ending, which stays |
| TjaChart.Header | src/parser/test.rs:229-235 | the header's keys are exactly the keys of the metadata items |
| TjaChart.HeaderLastWriterWins | src/parser/test.rs:229-235 | a key maps to the value of its last metadata item |
| TjaChart.Tracks | src/parser/test.rs:229 | the entries of every note-track item are listed, everything listed is a note-track item, and there are no more tracks than items |
| TjaChart.TracksAppend | src/parser/test.rs:229 | the tracks of two item lists one after the other are the first list's tracks, then the second's |
| TjaChart.TracksSnoc | src/parser/test.rs:229 | one more item adds exactly its entries as the last track when it is a note track, and nothing when it is metadata |
| TjaChart.SongOf | src/parser/test.rs:229-235 | success exactly when TITLE, BPM and WAVE are all in the header, and then the song carries their values, the header and the tracks; otherwise `MetadataNeeded` names the first missing key in the order TITLE, BPM, WAVE |
| TjaChart.ParseTjaFile | src/parser/test.rs:229-235 | a syntax error exactly when the grammar rejects the preprocessed text; otherwise the song of its items |
| TjaExamples.TagnameOfTitle | src/parser/test.rs:8-11 | the tag `TITLE` is read from `TITLE:さいたま2000`, leaving `:さいたま2000` |
| TjaExamples.TagnameWithDigit | src/parser/test.rs:12-15 | a tag may contain digits: `EXAM1` |
| TjaExamples.PairEndingInNewline | src/parser/test.rs:21-24 | a pair ending in `\n` consumes the line ending |
| TjaExamples.PairEndingInCrLf | src/parser/test.rs:25-28 | a pair ending in `\r\n` consumes it, and the value keeps its inner spaces |
| TjaExamples.PairEndingInEof | src/parser/test.rs:30-33 | a pair may end at the end of the input |
| TjaExamples.PairWithEmptyValue | src/parser/test.rs:35 | `EMPTY:` gives the empty value |
| TjaExamples.EndOnItsLine | src/parser/test.rs:40 | `\n#END\n` is an end command |
| TjaExamples.EndWithPlayer | src/parser/test.rs:41 | `#END P1` is rejected |
| TjaExamples.StartForPlayer2 | src/parser/test.rs:46-54 | `#START P2` gives player 2 and leaves the next line |
| TjaExamples.StartForPlayer1 | src/parser/test.rs:56-64 | `#START P1` gives player 1 and leaves the next line |
| TjaExamples.StartAtEof | src/parser/test.rs:66-69 | `#START` at the end of input gives no player |
| TjaExamples.StartWithTrailingBlank | src/parser/test.rs:72 | `#START ` is rejected |
| TjaExamples.StartRejectsEnd | src/parser/test.rs:73 | `#END` is not a start command |
| TjaExamples.StartForPlayer3 | src/parser/test.rs:74 | `#START P3` is rejected |
| TjaExamples.GogoStartAlone | src/parser/test.rs:83-84 | `#GOGOSTART` reads as the gogo start command |
| TjaExamples.GogoStartWithArgument | src/parser/test.rs:86 | `#GOGOSTART testvalue` is rejected |
| TjaExamples.NotesOfMeasure | src/parser/test.rs:93-108 | `10201120,\n` gives the eight slots in order and leaves `,\n` |
| TjaSamples.NoteTrackExample | src/parser/test.rs:111-137 | the four-measure track reads as its start command, notes and measure ends |
| TjaSamples.ItemListExample | src/parser/test.rs:139-184 | the chart with blank lines reads as three metadata items and the track with its gogo start |
| TjaSamples.ItemListErrorExample | src/parser/test.rs:186-203 | the same chart with an argument after `#GOGOSTART` is rejected |
| TjaSamples.FullExample | src/parser/test.rs:206-229 | the full chart parses to a song with title `POP TEAM EPIC`, BPM `142` and wave `POP TEAM EPIC.ogg` |
| TjaSamples.SongOfRequiredFirst | src/parser/test.rs:208-210 | items that start with TITLE, BPM and WAVE, and do not repeat them, give a song with those three values |
| TjaSamples.TitleCommentedOut | src/parser/test.rs:231 | `//` in front of the chart removes its TITLE line and keeps the line break |
| TjaSamples.TitleMissing | src/parser/test.rs:232-235 | items without a TITLE fail with `MetadataNeeded("TITLE")` |
| TjaSamples.NoTitleExample | src/parser/test.rs:231-235 | the full chart with `//` in front fails with `MetadataNeeded("TITLE")` |
| TjaSamples.MeasureCommandExample | src/parser/test.rs:249-266 | a track holding `#MEASURE 5/4` reads as its start command and `Measure(5, 4)` |
| Keyboard.AfterInput | src/app/mod.rs:56-62 | input without a key code changes nothing; otherwise only that key's entry changes: its this-frame half records whether it went down, and its last-frame half stays (false for a new key) |
| Keyboard.InputKeepsNoneHeldOver | src/app/mod.rs:56-62 | input never marks a key as down last frame |
| Keyboard.KeyboardState.constructor | src/app/mod.rs:157 | no key seen |
| Keyboard.KeyboardState.HandleInput | src/app/mod.rs:56-62 | the key map becomes `AfterInput` of the old one; the key reads as pressed exactly when it went down; every other key answers all three queries as before |
| Keyboard.KeyboardState.IsPressed | src/app/mod.rs:64-70 | true exactly when the key is recorded as down this frame; false for a key never seen |
| Keyboard.KeyboardState.IsJustPressed | src/app/mod.rs:72-79 | true exactly when the key is down this frame and was up last frame; implies pressed |
| Keyboard.KeyboardState.IsJustReleased | src/app/mod.rs:81-88 | true exactly when the key is up this frame and was down last frame; excludes pressed and just pressed |
| Keyboard.EdgesWithoutFrameAdvance | src/app/mod.rs:53-88 | while no key is marked down last frame, "just pressed" is "pressed" and nothing is "just released" |
| Textures.SpritePath | src/app/mod.rs:107 | a sprite is loaded from `assets/images/` followed by its file name |
| Textures.TextureCache.constructor | src/app/mod.rs:91-94 | the cache starts empty |
| Textures.TextureCache.Get | src/app/mod.rs:97-115 | a cached name returns its texture without loading; otherwise the sprite path is loaded once and the result returned, and the texture is cached only on success; entries already cached are kept |
| Application.Transition | src/app/mod.rs:189-199 | push adds the new state on top of the old stack; pop returns to the states underneath; swap replaces the top state only; continue and exit keep the stack |
| Application.PopUndoesPush | src/app/mod.rs:190-195 | popping right after a push gives back the stack as it was |
| Application.PopAfterSwap | src/app/mod.rs:191-196 | popping after a swap goes to the same stack as popping at once |
| Application.PopLast | src/app/mod.rs:191-195 | popping the only state leaves no state |
| Application.SpritePaths | src/app/mod.rs:135-146 | the load paths of the preloaded names, one per name, in order |
| Application.Preloads | src/app/mod.rs:135-146 | the preloaded cache maps exactly the preloaded names, each to the texture loaded from its sprite path |
| Application.LoadAll | src/app/mod.rs:133-146 | a new cache in which every name was loaded once, in order, and is cached |
| Application.App.constructor | src/app/mod.rs:131-164 | the six textures are loaded in order and cached; the first state is the only state; no key seen; the FPS overlay is off |
| Application.App.Update | src/app/mod.rs:189-199 | the top state is replaced by its updated value, then the stack follows the transition it asked for; the result says whether it asked to exit |
| Application.App.HandleEvent | src/app/mod.rs:225-248 | the top state handles the event and sees the keyboard as it was before; real keyboard input is recorded; the overlay flips exactly when F1 is then just pressed, which, while no key is marked down last frame, is when F1 went down |

## Left out

- The parser's implementation file is not part of this model. The grammar is
  reconstructed from the test suite and nom's conventions. The error for
  missing metadata is `MetadataNeeded`, as the tests name it.
- The test that reads the bundled chart file `Ready to.tja`
  (`src/parser/test.rs:239-247`) is left out: that file is not part of this
  model.
- Inside a track only `#GOGOSTART`, `#GOGOEND` and `#MEASURE a/b` are
  commands, as in the test suite. Tempo, scroll-speed, barline and delay
  commands are not recognised, so a track holding one is rejected.
- `BPM` is kept as the text of its metadata value. Nothing checks that it is
  a number.
- Preprocessing does not normalise line endings. The grammar accepts `\n` and
  `\r\n` wherever a line ends.
- Turning parsed tracks into timed notes (the timing pass) is left out. Its
  source is not part of this model and it computes in floating point.
- `App::update`: the FPS timer and counter (`src/app/mod.rs:172-179`) are left
  out because they are floating-point timing. The `Context` handed to a state
  (`src/app/mod.rs:29-35`: delta time, audio, renderer, the keyboard state
  and the texture cache) is not modelled. A state's update is a function of
  the state alone, so the model's update cannot see the keyboard and cannot
  load textures through the cache.
- `App::new`: creating the audio manager and building the song-select state
  (`src/app/mod.rs:132`, `148-152`) are not modelled, so their failures are not
  either. The first state is a parameter. A preload failure is a panic in the
  source; the constructor requires every preload to succeed.
- Application.App.Update: a `Pop` on a one-state stack leaves the stack empty,
  as in the source. The next update would then panic on the empty stack; the
  model requires a non-empty stack instead.
- Application.App.HandleEvent: it also requires a non-empty stack. On an
  empty stack the source panics when it takes the top state
  (`src/app/mod.rs:229-231`).
- Textures that game states load through the cache are not modelled, because
  their code is not part of this model. `Texture::from_file` is a parameter
  `load` that depends only on the path; the device and queue are dropped.
  Sharing by reference counting is not modelled.
- `App::debug_ui`, `App::render` and the game states' own code are rendering
  and UI, and are left out.
- `VirtualKeyCode` is reduced to F1 and numbered other keys, since F1 is the
  only key the shell singles out.
- Nothing in the code modelled here ever marks a key as down last frame. So
  `is_just_pressed` agrees with `is_pressed` and `is_just_released` is always
  false (Keyboard.EdgesWithoutFrameAdvance). The frame advance that would set
  it is not in this code; the model adds none.
