# A verified model of the `edit` terminal text editor

`edit` is a small full-screen text editor for the terminal, written in Python.
The repository holds three generations of the same editor:

- `test_file.py`: the earliest single-file version.
- `edit.py`: a trimmed copy of it.
- `edit/`: a package split into `buffer.py` (the `Buffer` class and its
  `editor` key dispatch) and `terminal.py` (`isascii` and the key decoder
  `read`).

Each version keeps a buffer of lines, a cursor (`cx`, `cy`) and a scroll
offset. It reads one key from the terminal at a time and applies it to the
buffer: cursor and word motion, scrolling, insertion, backspace and line
breaks. Saving joins the lines with newlines.

This Dafny project models the key decoders and the `Buffer` classes of all
three versions and proves what they promise.

| file | module | models |
|---|---|---|
| `wrappers.dfy` | `Wrappers` | `Option` |
| `text.dfy` | `Text` | `str.split("\n")` / `"\n".join`, used by load and save; ASCII `isalpha`/`isalnum` |
| `input.dfy` | `Input` | the terminal input as a `Stream` class (`sys.stdin.read`) and the `Decoded` result of a decoder |
| `line_buffer.dfy` | `LineBuffer` | the editing state as a value, every movement and edit as a function, and the lemmas relating them |
| `key_reader.dfy` | `KeyReader` | `readkey` of `test_file.py` and `edit.py` (the two copies are identical) |
| `test_file.dfy` | `TestFile` | `Buffer` and `keyhandle` of `test_file.py` |
| `edit.dfy` | `Edit` | `Buffer` and `keyhandle` of `edit.py` |
| `edit_terminal.dfy` | `EditTerminal` | `isascii` and `read` of `edit/terminal.py` |
| `edit_buffer.dfy` | `EditBuffer` | `isid`, `Buffer` and `editor` of `edit/buffer.py` |

Each `Buffer` is a Dafny class with the Python fields `buf`, `cx`, `cy`,
`scroll` and the selection anchors. Its methods change them in place. Each
method is proved to leave the state that a `LineBuffer` function computes
from the old state, and each `modifies` clause names only the fields the
Python method assigns. The lemmas in `LineBuffer` then state what the
operations promise:

- the buffer stays non-empty and the cursor stays on a line;
- backspace undoes typing any character but a space (in `edit/buffer.py`:
  any character) and undoes Tab; a typed space can complete four spaces
  before the cursor, which the de-indent of `test_file.py` and `edit.py` then
  removes whole; after a line break backspace restores the lines
  and the cursor, and in `test_file.py` and `edit.py` it keeps any scroll the
  line break added;
- word motion stops at the first class change;
- moving down keeps the cursor five rows above the bottom of the viewport;
- no edit puts a newline into a line, so saving and reloading gives back the
  same lines.

Both decoders are modelled twice:

- a function `Decode` from the bytes available to the key name and the
  number of bytes consumed;
- a method that reads the `Stream` one `read` call at a time, as the source
  does, proved to return what `Decode` says and to advance the stream by
  exactly that count.

Lemmas show that the decoders consume exactly the bytes of one key: the
result depends on no later byte, and without the last byte the decoder would
still be waiting. Further lemmas give the names of the usual terminal
sequences and connect them to what each dispatcher does with them.

Some details of what the code does, which the model follows:

- Word motion in `test_file.py` and `edit/buffer.py` uses `isalnum`, so the
  underscore ends a word; `edit.py` uses `isalpha`. `isid` is defined in
  `edit/buffer.py` but not used.
- Key dispatch can raise. In `edit/buffer.py`, every key name of more than one
  character that is missing from the `editor` table reaches `isascii`, whose
  `ord()` raises `TypeError`. That covers Tab, the Ctrl letters, Alt keys,
  Shift-Tab and most modified arrows. In `test_file.py`, Shift-Right calls
  `select_right`, which the class does not define (`AttributeError`). In
  `edit.py`, it raises `TypeError`.
- `read` returns the last byte it read for an escape sequence it does not
  recognise, and `editor` inserts that byte when it is printable.
- The control-key table covers `0x01`-`0x19` except `0x03`, `0x09`, `0x0A` and
  `0x0D`. `0x1A` (Ctrl-Z) is returned raw.
- On strings, `Join(Split(s)) == s` for every text `s`, and splitting the
  joined lines gives them back whenever no line holds a newline, which the
  editor never puts into one. The files themselves are opened in text mode,
  which this does not cover (see "Left out").
- The three modifier tests in `read` ("2", "3", "5" after `ESC [ 1 ;`) are
  separate `if`s, not an `elif` chain. A sequence such as `ESC [ 1 ; 2 3 5 A`
  therefore runs through all three and consumes eight bytes.

## Model

| member | source | states |
|---|---|---|
| `Text.Split` | test_file.py:159-161 | loading gives one line per newline plus one, and no line holds a newline |
| `Text.JoinSplit` | test_file.py:163-165 | saving what was loaded reproduces the file contents exactly |
| `Text.Join` | test_file.py:163-165 | the saved text holds one newline fewer than there are lines, when no line holds one (the partner of Split's count) |
| `Text.IsAlpha` | edit.py:225-233 | isalpha accepts letters only: never a digit, the underscore or white space |
| `Text.IsAlnum` | test_file.py:266-283 | isalnum accepts letters and digits, never the underscore or white space |
| `Text.SplitJoin` | edit.py:141-147 | reloading what was saved gives back the lines whenever none holds a newline |
| `LineBuffer.RightBound` | test_file.py:257-258 | move_rightbound pulls the column back onto the current line (unchanged, or the line's length when it was beyond it), nothing else changes |
| `LineBuffer.MoveRight` | test_file.py:260-261 | one column right unless at the end of the line, where nothing changes; only the column changes and the state stays valid |
| `LineBuffer.MoveLeft` | test_file.py:263-264 | one column left unless at column 0, where nothing changes; only the column changes; validity is kept |
| `LineBuffer.Home` | test_file.py:335-336 | only the column changes and the state stays valid (its extremal column: HomeEndExtremes) |
| `LineBuffer.End` | test_file.py:332-333 | only the column changes and the state stays valid (its extremal column: HomeEndExtremes) |
| `LineBuffer.ScrollUp` | test_file.py:338-339 | scroll goes down by one but never below 0; nothing else changes |
| `LineBuffer.ScrollDown` | test_file.py:341-342 | scroll goes up by exactly one, without bound; nothing else changes |
| `LineBuffer.MoveDown` | test_file.py:285-289 | next row clamped to the last line, column clamped to that row, and the view scrolls one row exactly when the cursor comes within 5 rows of the bottom |
| `LineBuffer.MoveUp` | test_file.py:291-295 | previous row clamped to 0, column clamped, and the view scrolls back one row exactly when the cursor comes within 5 rows of the top |
| `LineBuffer.RunEnd` | test_file.py:272-275 | the first column at or after i whose isalnum class differs from flag (or the line end), all columns before it being of class flag |
| `LineBuffer.RunStart` | test_file.py:282-283 | the leftmost column reached going left from i while the class equals flag, stopping on a column of the other class or at 0 |
| `LineBuffer.AlnumRight` | test_file.py:266-275 | word-right moves at least one column unless at the line end, across exactly one run of the class of the character first stepped onto |
| `LineBuffer.AlnumLeft` | test_file.py:277-283 | word-left moves at least one column unless at 0, and stops on the first character of the other class or at column 0 |
| `LineBuffer.AlphaRight` | edit.py:225-228 | edit.py's word-right moves at least one column unless at the end, over letters only, stopping on a non-letter or the line end |
| `LineBuffer.AlphaLeft` | edit.py:230-233 | edit.py's word-left moves at least one column unless at 0, over letters only, stopping on a non-letter or column 0 |
| `LineBuffer.InsertChar` | test_file.py:299-302 | the character is spliced in at the cursor, the cursor moves past it, and no other line changes |
| `LineBuffer.Tab` | test_file.py:253-255 | four spaces are spliced in at the cursor, the cursor moves past them, and no other line changes |
| `LineBuffer.DeleteBefore` | test_file.py:319-322 | the character before the cursor is removed, the cursor moves back one, and no other line changes |
| `LineBuffer.DeIndent` | test_file.py:313-315 | the four spaces before the cursor are removed at once and the cursor moves back four |
| `LineBuffer.MergeUp` | test_file.py:306-310 | at column 0 below the first line, the line is appended to the previous one and removed; the cursor lands at the join; the other lines keep their order |
| `LineBuffer.Backspace` | test_file.py:304-317 | backspace with de-indent keeps the state valid and never scrolls (its cases: BackspaceCases) |
| `LineBuffer.BackspacePlain` | edit/buffer.py:183-193 | edit/buffer.py's delete does nothing at the very start, merges the line into the previous one at column 0, otherwise deletes the character before the cursor; it keeps the state valid and never scrolls |
| `LineBuffer.SplitLine` | edit/buffer.py:172-179 | the line is split at the cursor into two consecutive lines whose concatenation is the old line; the cursor goes to the start of the second; scroll is unchanged |
| `LineBuffer.Linebreak` | test_file.py:324-330 | insert_linebreak is the same split, with the scroll of move_cursor_down (one row more exactly when the new row is within 5 rows of the bottom) |
| `LineBuffer.LeftUndoesRight` | test_file.py:260-264 | moving left after moving right gives back the state unless the cursor was at the end of the line |
| `LineBuffer.HomeEndExtremes` | test_file.py:332-336 | home goes to column 0 and end to the line's length, the smallest and largest columns; moving beyond them does nothing |
| `LineBuffer.BackspaceCases` | test_file.py:305-317 | backspace does nothing at the very start, merges at column 0, de-indents after four spaces, otherwise deletes one character |
| `LineBuffer.DeleteUndoesInsert` | test_file.py:297-322 | deleting after typing a character gives back the state; so does backspace, with or without de-indent, unless the typed character is a space |
| `LineBuffer.BackspaceUndoesTab` | test_file.py:312-315 | backspace right after Tab removes the four spaces and gives back the state |
| `LineBuffer.BackspaceUndoesSplit` | edit/buffer.py:172-193 | backspace (either version) after edit/buffer.py's scroll-free split joins the two lines again and gives back the state exactly |
| `LineBuffer.BackspaceUndoesLinebreak` | test_file.py:304-330 | backspace after insert_linebreak gives back the lines and the cursor, but keeps the scroll the line break may have added; the state comes back exactly when the line break did not scroll |
| `LineBuffer.ScrollMargin` | test_file.py:285-289 | moving down k rows from a state that keeps the margin reaches row cy + k with scroll exactly max(0, cy + k - height + 5) |
| `LineBuffer.ScrollMarginExample` | edit.py:235-239 | 20 moves down over 30 lines in a 10-row view end on row 20 with scroll 15 |
| `LineBuffer.WordMotionExample` | test_file.py:266-275 | on "foo  bar", three word-right moves from column 0 stop at 3, 5 and 8 |
| `LineBuffer.EditsKeepNoNewlines` | test_file.py:297-330 | no edit puts a newline into a line, except inserting a newline character as text |
| `Input.Stream.ReadChar` | test_file.py:133 | read(1) returns the next byte and advances by one, or waits when none is there |
| `Input.Stream.ReadString` | test_file.py:135-137 | read(n) returns the next n bytes and advances by n, or waits when fewer are there |
| `KeyReader.Decode` | test_file.py:131-140 | readkey consumes 1, 3, 4 or 6 bytes: exactly 1 for a byte other than ESC; 6 after "ESC [1", the key being the last three; 4 after "ESC [5" or "ESC [6", the key being those two; 3 otherwise, the key being the two after ESC |
| `KeyReader.DecodeAgree` | test_file.py:131-140 | the key depends only on the bytes consumed; whatever follows is left for the next call |
| `KeyReader.DecodeNeedsAll` | edit.py:118-127 | readkey waits for every byte it consumes, the discarded fourth byte of Page Up/Down included |
| `KeyReader.KeyStrings` | edit.py:118-127 | a non-ESC byte is itself; ESC [ X gives "[X"; ESC [ 1 ; m X gives ";mX"; ESC [ 5 ~ and ESC [ 6 ~ give "[5" and "[6" |
| `KeyReader.ReadKey` | test_file.py:131-140 | the read calls return Decode's key and advance the stream by exactly the bytes consumed, or wait at the end of input |
| `TestFile.Handle` | test_file.py:221-255 | keyhandle keeps the state valid; it raises AttributeError exactly for ";2C" (the missing select_right) and TypeError exactly for other strings longer than one character that no branch names, leaving the state untouched; it saves exactly on Ctrl-S, the joined lines and nothing else; only single-character keys change the lines |
| `TestFile.HandleKeepsNoNewlines` | test_file.py:221-255 | no key puts a newline into a line, so a Ctrl-S save reloads as the same lines |
| `TestFile.TypedKeys` | test_file.py:245-252 | a printable byte read from the terminal is typed into the line; Ctrl-S saves the joined lines |
| `TestFile.EscapeKeys` | test_file.py:221-242 | Page Up scrolls up, Ctrl-Right moves by word, and Shift-Right raises AttributeError with the state untouched |
| `TestFile.Buffer.constructor` | test_file.py:144-161 | the buffer holds the file's lines, with cursor and scroll at 0 and no newline inside a line |
| `TestFile.Buffer.Save` | test_file.py:163-165 | the text written is the lines joined by newlines, and reloading it gives back the lines |
| `TestFile.Buffer.MoveRightbound` | test_file.py:257-258 | the new state is RightBound of the old |
| `TestFile.Buffer.MoveCursorRight` | test_file.py:260-261 | the new state is MoveRight of the old |
| `TestFile.Buffer.MoveCursorLeft` | test_file.py:263-264 | the new state is MoveLeft of the old |
| `TestFile.Buffer.MoveCursorRightWord` | test_file.py:266-275 | the loop leaves the cursor at AlnumRight of the old line and column; nothing else changes |
| `TestFile.Buffer.MoveCursorLeftWord` | test_file.py:277-283 | the loop leaves the cursor at AlnumLeft of the old line and column; nothing else changes |
| `TestFile.Buffer.ScrollUp` | test_file.py:338-339 | the new state is ScrollUp of the old |
| `TestFile.Buffer.ScrollDown` | test_file.py:341-342 | the new state is ScrollDown of the old |
| `TestFile.Buffer.MoveCursorDown` | test_file.py:285-289 | the new state is MoveDown of the old for the terminal's height |
| `TestFile.Buffer.MoveCursorUp` | test_file.py:291-295 | the new state is MoveUp of the old |
| `TestFile.Buffer.InsertChar` | test_file.py:297-302 | a newline becomes a Linebreak, any other character an InsertChar |
| `TestFile.Buffer.Delete` | test_file.py:304-317 | the new state is Backspace of the old; the de-indent loop deletes the four spaces one by one |
| `TestFile.Buffer.DeleteChar` | test_file.py:319-322 | the new state is DeleteBefore of the old |
| `TestFile.Buffer.InsertLinebreak` | test_file.py:324-330 | the new state is Linebreak of the old |
| `TestFile.Buffer.MoveEnd` | test_file.py:332-333 | the new state is End of the old |
| `TestFile.Buffer.MoveHome` | test_file.py:335-336 | the new state is Home of the old |
| `TestFile.Buffer.KeyHandle` | test_file.py:218-220 | one readkey followed by the branches: the state and outcome are Handle of the decoded key; the stream advances by the bytes decoded; nothing changes while input is incomplete |
| `TestFile.Buffer.HandleKey` | test_file.py:221-255 | the new state and outcome are Handle of the old state and the key; the Tab loop inserts the four spaces one by one |
| `Edit.Handle` | edit.py:184-214 | keyhandle keeps the state valid; it raises TypeError exactly for strings longer than one character that no branch names, leaving the state untouched; it saves exactly on Ctrl-S, the joined lines and nothing else; only single-character keys change the lines |
| `Edit.HandleKeepsNoNewlines` | edit.py:184-214 | no key puts a newline into a line, so a Ctrl-S save reloads as the same lines |
| `Edit.TypedKeys` | edit.py:204-211 | a printable byte read from the terminal is typed into the line; Ctrl-S saves the joined lines |
| `Edit.EscapeKeys` | edit.py:184-203 | Page Up scrolls up, Ctrl-Right moves over letters, and Shift-Right raises TypeError with the state untouched |
| `Edit.Buffer.constructor` | edit.py:131-143 | the buffer holds the file's lines, with cursor and scroll at 0 and no newline inside a line |
| `Edit.Buffer.Save` | edit.py:145-147 | the text written is the lines joined by newlines, and reloading it gives back the lines |
| `Edit.Buffer.MoveRightbound` | edit.py:216-217 | the new state is RightBound of the old |
| `Edit.Buffer.MoveCursorRight` | edit.py:219-220 | the new state is MoveRight of the old |
| `Edit.Buffer.MoveCursorLeft` | edit.py:222-223 | the new state is MoveLeft of the old |
| `Edit.Buffer.MoveCursorRightWord` | edit.py:225-228 | the recursion leaves the cursor at AlphaRight of the old line and column |
| `Edit.Buffer.MoveCursorLeftWord` | edit.py:230-233 | the recursion leaves the cursor at AlphaLeft of the old line and column |
| `Edit.Buffer.MoveCursorDown` | edit.py:235-239 | the new state is MoveDown of the old for the terminal's height |
| `Edit.Buffer.MoveCursorUp` | edit.py:241-245 | the new state is MoveUp of the old |
| `Edit.Buffer.InsertChar` | edit.py:247-250 | the new state is InsertChar of the old, for every character, newline included |
| `Edit.Buffer.Delete` | edit.py:252-265 | the new state is Backspace of the old |
| `Edit.Buffer.DeleteChar` | edit.py:267-270 | the new state is DeleteBefore of the old |
| `Edit.Buffer.InsertLinebreak` | edit.py:272-278 | the new state is Linebreak of the old |
| `Edit.Buffer.MoveEnd` | edit.py:280-281 | the new state is End of the old |
| `Edit.Buffer.MoveHome` | edit.py:283-284 | the new state is Home of the old |
| `Edit.Buffer.ScrollUp` | edit.py:286-287 | the new state is ScrollUp of the old |
| `Edit.Buffer.ScrollDown` | edit.py:289-290 | the new state is ScrollDown of the old |
| `Edit.Buffer.KeyHandle` | edit.py:181-183 | one readkey followed by the branches: the state and outcome are Handle of the decoded key; nothing changes while input is incomplete |
| `Edit.Buffer.HandleKey` | edit.py:184-214 | the new state and outcome are Handle of the old state and the key |
| `EditTerminal.IsAscii` | edit/terminal.py:6-7 | isascii excludes DEL, ESC and every byte of the control-key table, so read's first test shadows none of the later ones |
| `EditTerminal.CtrlName` | edit/terminal.py:117-158 | exactly the bytes 0x01-0x19 other than 0x03, Tab, newline and carriage return have a name, and it is "CTRL_" followed by the byte's caret letter |
| `EditTerminal.ArrowName` | edit/terminal.py:207-214 | exactly the final bytes A-D name an arrow: A up, B down, C right, D left |
| `EditTerminal.DecodeModifier` | edit/terminal.py:168-198 | the three modifier tests consume at most one byte each; a one-character result is the byte read last |
| `EditTerminal.DecodeCsi` | edit/terminal.py:163-220 | after ESC [ at most 8 bytes are consumed; a one-character result is the byte read last |
| `EditTerminal.DecodeEscape` | edit/terminal.py:159-222 | after ESC at least 2 and at most 8 bytes are consumed; a one-character result is the byte read last |
| `EditTerminal.Decode` | edit/terminal.py:109-223 | read consumes between 1 and 8 bytes; every one-character name is the byte read last; with 8 bytes available it never waits |
| `EditTerminal.ModifierAgree` | edit/terminal.py:168-198 | the modifier tests' result depends only on the bytes they consume |
| `EditTerminal.DecodeAgree` | edit/terminal.py:109-223 | read's key depends only on the bytes consumed; whatever follows is left for the next call |
| `EditTerminal.ModifierNeedsAll` | edit/terminal.py:168-198 | without the last byte the modifier tests consume, they would still be waiting |
| `EditTerminal.DecodeNeedsAll` | edit/terminal.py:109-223 | without the last byte read consumes, it would still be waiting: it never consumes more than one key |
| `EditTerminal.CtrlTable` | edit/terminal.py:117-158 | exactly 0x01-0x19 other than 0x03, 0x09, 0x0A, 0x0D have a Ctrl name, and each is "CTRL_" and the byte's caret letter |
| `EditTerminal.SingleByteKeys` | edit/terminal.py:110-158 | one byte other than ESC is one key: printable or newline as itself, TAB, BACKSPACE, CTRL_<letter>, or else the raw byte |
| `EditTerminal.CsiKeys` | edit/terminal.py:207-220 | ESC [ A/B/C/D/H/F/Z give the arrows, HOME, END and SHIFT_TAB, three bytes each |
| `EditTerminal.ModifiedArrowKeys` | edit/terminal.py:165-198 | ESC [ 1 ; m X with m of 2, 3, 5 and X of A-D gives the SHIFT_, ALT_ or CTRL_ arrow in six bytes |
| `EditTerminal.CtrlRightArrow` | edit/terminal.py:189-196 | ESC [ 1 ; 5 C gives CTRL_RIGHT_ARROW in six bytes |
| `EditTerminal.PageKeys` | edit/terminal.py:199-206 | ESC [ 5 ~ and ESC [ 6 ~ give PG_UP and PG_DOWN in four bytes |
| `EditTerminal.AltKeys` | edit/terminal.py:159-222 | ESC Tab gives ALT_TAB; ESC and an isascii byte other than [ gives ALT_ and that byte, in two bytes |
| `EditTerminal.FallbackKeys` | edit/terminal.py:159-222 | outside the modifier tests, every unrecognised sequence gives the byte read last: ESC [ with an unexpected final byte (3 bytes), ESC [ 1/5/6 without ';' or '~' (4), ESC [ 1 ; with a modifier other than 2, 3, 5 (5), the ctrl modifier without an arrow letter (6), ESC with a byte isascii rejects (2) |
| `EditTerminal.ModifierFallbackKeys` | edit/terminal.py:169-198 | within the modifier tests, a byte that is neither an arrow letter nor a later modifier digit gives itself: after the shift or alt digit (6 bytes), after two digits 2 3, 2 5 or 3 5 (7), after all three (8) |
| `EditTerminal.ModifierFallThrough` | edit/terminal.py:169-198 | ESC [ 1 ; 2 3 5 A passes all three modifier tests and gives CTRL_UP_ARROW in eight bytes; ESC [ 1 ; 2 3 x gives "x" in seven |
| `EditTerminal.Read` | edit/terminal.py:109-223 | the read calls return Decode's key and advance the stream by exactly the bytes consumed, or wait at the end of input |
| `EditTerminal.ReadModifier` | edit/terminal.py:168-198 | the three modifier tests, run as reads, agree with Decode on key and bytes consumed |
| `EditBuffer.IsId` | edit/buffer.py:5-6 | every ASCII identifier character is one editor inserts, and isid widens isalnum by the underscore only |
| `EditBuffer.InsertKey` | edit/buffer.py:170-181 | insert splits the line at a newline (without scrolling) and splices any other character in |
| `EditBuffer.Dispatch` | edit/buffer.py:94-116 | editor raises TypeError exactly for names outside its table longer than one character, and then changes nothing; only Backspace and typed characters change the lines |
| `EditBuffer.DispatchKeepsNoNewlines` | edit/buffer.py:92-116 | no key puts a newline inside a line, so what write saves reloads as the same lines |
| `EditBuffer.BackspaceUndoesTyping` | edit/buffer.py:170-193 | typing any isascii character, newline included, then Backspace gives back the state |
| `EditBuffer.TypedKeys` | edit/buffer.py:113-116 | a printable byte read from the terminal is inserted at the cursor |
| `EditBuffer.CtrlRightMovesByWord` | edit/buffer.py:100 | Ctrl-Right as the terminal sends it moves to AlnumRight of the cursor |
| `EditBuffer.UnboundKeysRaise` | edit/buffer.py:113-116 | Tab and every Ctrl-letter key make editor raise TypeError and leave the state untouched |
| `EditBuffer.Buffer.constructor` | edit/buffer.py:65-81 | one empty line, or the file's lines, with cursor, scroll and selection anchors at 0 |
| `EditBuffer.Buffer.Write` | edit/buffer.py:83-85 | the text written is the lines joined by newlines, and reloading it gives back the lines |
| `EditBuffer.Buffer.CursorRightbound` | edit/buffer.py:118-119 | the new state is RightBound of the old |
| `EditBuffer.Buffer.MoveCursorHome` | edit/buffer.py:121-122 | the new state is Home of the old |
| `EditBuffer.Buffer.MoveCursorEnd` | edit/buffer.py:124-125 | the new state is End of the old |
| `EditBuffer.Buffer.MoveCursorRight` | edit/buffer.py:127-128 | the new state is MoveRight of the old |
| `EditBuffer.Buffer.MoveCursorLeft` | edit/buffer.py:130-131 | the new state is MoveLeft of the old |
| `EditBuffer.Buffer.MoveCursorLeftWb` | edit/buffer.py:133-139 | the loop leaves the cursor at AlnumLeft of the old line and column |
| `EditBuffer.Buffer.MoveCursorRightWb` | edit/buffer.py:141-150 | the loop leaves the cursor at AlnumRight of the old line and column |
| `EditBuffer.Buffer.MoveCursorDown` | edit/buffer.py:152-156 | the new state is MoveDown of the old for the terminal's height |
| `EditBuffer.Buffer.MoveCursorUp` | edit/buffer.py:158-162 | the new state is MoveUp of the old |
| `EditBuffer.Buffer.ScrollUp` | edit/buffer.py:164-165 | the new state is ScrollUp of the old |
| `EditBuffer.Buffer.ScrollDown` | edit/buffer.py:167-168 | the new state is ScrollDown of the old |
| `EditBuffer.Buffer.Insert` | edit/buffer.py:170-181 | the new state is InsertKey of the old |
| `EditBuffer.Buffer.Delete` | edit/buffer.py:183-193 | the new state is BackspacePlain of the old |
| `EditBuffer.Buffer.SelectRight` | edit/buffer.py:195-196 | select_right changes nothing |
| `EditBuffer.Buffer.SelectLeft` | edit/buffer.py:198-199 | select_left changes nothing |
| `EditBuffer.Buffer.HandleKey` | edit/buffer.py:94-116 | the new state and outcome are Dispatch of the old state and the key name; the selection anchors never change |
| `EditBuffer.Buffer.Editor` | edit/buffer.py:92-116 | one read followed by the table lookup: the state and outcome are Dispatch of the decoded name; the stream advances by the bytes decoded; nothing changes while input is incomplete |

## Left out

- Terminal mode setting (`setmode`, termios), screen rendering, the colour tables and `TerminalInterface` are output and device control, not editing logic.
- The `run` loops and `edit/__main__.py` are not modelled. A `KeyboardInterrupt` ends them, and any other exception ends the program. `Outcome.Raised` records which exception a key causes.
- File access is outside the model. The constructors take the file's contents, and `Save`/`Write` return the text written.
- Newline translation is not modelled. The files are opened in text mode, so Python reads "\r\n" and "\r" as "\n". A file with such line ends comes back with "\n" after a save; the round trips above hold on the strings only.
- The linter (`linter`, `relint`) and the `errs` and `msg` fields are diagnostics for display only.
- Reads are modelled on a finite `Stream`. A read past its end is a read that would block until more input arrives (`Blocked`/`None`). At true end of file Python's `read` returns `""`, so `keyhandle` and `isascii` would raise from `ord("")`; that end-of-file behaviour is not modelled.
- The terminal's height is a constructor parameter. In `test_file.py` and `edit.py` each buffer takes it from `shutil.get_terminal_size()` when it is made. `edit/buffer.py` instead reads the module global `height` of `edit/terminal.py`, set once when that module is imported (edit/terminal.py:53), so every buffer there shares one height.
- `Edit.Buffer.MoveCursorRightWord`, `Edit.Buffer.MoveCursorLeftWord`: edit.py recurses once per letter crossed, so a run of about a thousand letters exceeds Python's default recursion limit and raises `RecursionError`, which ends the program. The model has no depth bound and always reaches `AlphaRight`/`AlphaLeft`.
- `EditBuffer.IsId`, `Text.IsAlpha`, `Text.IsAlnum`, `LineBuffer.RunEnd`, `LineBuffer.RunStart`, `LineBuffer.AlnumRight`, `LineBuffer.AlnumLeft`, `LineBuffer.AlphaRight` and `LineBuffer.AlphaLeft` use ASCII `isalnum`/`isalpha`. Python's versions also accept non-ASCII letters and digits. In particular `isid('é')` is true in Python while `isascii('é')` is false, so `EditBuffer.IsId`'s promise that editor inserts every identifier character holds for ASCII characters only.
- `TestFile.Buffer.DeleteChar`, `Edit.Buffer.DeleteChar`: require `cx > 0`, which every caller ensures. The source's behaviour at column 0 (a `-1` slice) is never reached.
- `TestFile.Handle`, `Edit.Handle`, `EditBuffer.Dispatch` and the `LineBuffer` operations require a valid state. That is a non-empty buffer with the cursor on a line, which every constructor establishes and every operation is proved to keep.
