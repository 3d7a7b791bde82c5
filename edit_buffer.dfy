/**
 * The Buffer of edit/buffer.py: the packaged editor's cursor, word and scroll
 * motion, insertion and deletion, and `editor`, which reads one key name from
 * the decoder of edit/terminal.py (module EditTerminal) and looks it up in its
 * table of commands.
 */
module EditBuffer {
  import opened Wrappers
  import opened Text
  import opened Input
  import EditTerminal
  import LineBuffer

  /** isid: a letter, a digit or the underscore, with ASCII letters and digits
      (see Text.IsAlnum). Every such ASCII character is one editor inserts
      when it is typed, and isid widens isalnum by the underscore only. */
  predicate IsId(c: char)
    ensures IsId(c) ==> EditTerminal.IsAscii(c) && c != '\n'
    ensures IsId(c) && !IsAlnum(c) ==> c == '_'
    ensures IsAlnum(c) ==> IsId(c)
  {
    IsAlnum(c) || c == '_'
  }

  /** insert: a newline splits the line at the cursor, without scrolling;
      any other character is spliced in before the cursor. Both cases are
      edits whose own contracts say what they do, and BackspaceUndoesTyping
      shows that delete takes either back out. */
  function InsertKey(s: LineBuffer.State, c: char): (r: LineBuffer.State)
    requires LineBuffer.Valid(s)
    ensures LineBuffer.Valid(r) && r.scroll == s.scroll
    ensures c == '\n' ==> r == LineBuffer.SplitLine(s)
    ensures c != '\n' ==> r == LineBuffer.InsertChar(s, c)
  {
    if c == '\n' then LineBuffer.SplitLine(s) else LineBuffer.InsertChar(s, c)
  }

  /** The key names editor's table binds to a command. */
  const Commands: set<string> := {
    "RIGHT_ARROW", "LEFT_ARROW", "CTRL_RIGHT_ARROW", "CTRL_LEFT_ARROW",
    "UP_ARROW", "DOWN_ARROW", "PG_UP", "PG_DOWN", "HOME", "END",
    "BACKSPACE", "SHIFT_RIGHT_ARROW", "SHIFT_LEFT_ARROW"
  }

  /** editor, given the key name read: a command from the table, otherwise
      insertion of a single isascii character. Any other name of more than one
      character reaches isascii, whose ord() raises TypeError. */
  function Dispatch(s: LineBuffer.State, height: int, key: string): (r: (LineBuffer.State, LineBuffer.Outcome))
    requires LineBuffer.Valid(s)
    ensures LineBuffer.Valid(r.0)
    ensures r.1 == LineBuffer.Done || r.1 == LineBuffer.Raised(LineBuffer.TypeError)
    ensures r.1.Raised? <==> key !in Commands && |key| != 1
    ensures r.1.Raised? ==> r.0 == s
    ensures r.0.buf != s.buf ==> key == "BACKSPACE" || (|key| == 1 && EditTerminal.IsAscii(key[0]))
  {
    if key == "RIGHT_ARROW" then (LineBuffer.MoveRight(s), LineBuffer.Done)
    else if key == "LEFT_ARROW" then (LineBuffer.MoveLeft(s), LineBuffer.Done)
    else if key == "CTRL_RIGHT_ARROW" then (s.(cx := LineBuffer.AlnumRight(s.buf[s.cy], s.cx)), LineBuffer.Done)
    else if key == "CTRL_LEFT_ARROW" then (s.(cx := LineBuffer.AlnumLeft(s.buf[s.cy], s.cx)), LineBuffer.Done)
    else if key == "UP_ARROW" then (LineBuffer.MoveUp(s), LineBuffer.Done)
    else if key == "DOWN_ARROW" then (LineBuffer.MoveDown(s, height), LineBuffer.Done)
    else if key == "PG_UP" then (LineBuffer.ScrollUp(s), LineBuffer.Done)
    else if key == "PG_DOWN" then (LineBuffer.ScrollDown(s), LineBuffer.Done)
    else if key == "HOME" then (LineBuffer.Home(s), LineBuffer.Done)
    else if key == "END" then (LineBuffer.End(s), LineBuffer.Done)
    else if key == "BACKSPACE" then (LineBuffer.BackspacePlain(s), LineBuffer.Done)
    else if key == "SHIFT_RIGHT_ARROW" || key == "SHIFT_LEFT_ARROW" then (s, LineBuffer.Done)
    else if |key| != 1 then (s, LineBuffer.Raised(LineBuffer.TypeError))
    else if EditTerminal.IsAscii(key[0]) then (InsertKey(s, key[0]), LineBuffer.Done)
    else (s, LineBuffer.Done)
  }

  /** Handling keys never puts a newline inside a line, so what write saves
      reloads as the same lines. */
  lemma DispatchKeepsNoNewlines(s: LineBuffer.State, height: int, key: string)
    requires LineBuffer.Valid(s) && LineBuffer.NoNewlines(s.buf)
    ensures LineBuffer.NoNewlines(Dispatch(s, height, key).0.buf)
  {
    LineBuffer.EditsKeepNoNewlines(s, if |key| == 1 then key[0] else ' ', height);
  }

  /** Typing any character editor inserts, newline included, and then
      Backspace gives back the state before. */
  lemma {:induction false} BackspaceUndoesTyping(s: LineBuffer.State, height: int, c: char)
    requires LineBuffer.Valid(s) && EditTerminal.IsAscii(c)
    ensures Dispatch(Dispatch(s, height, [c]).0, height, "BACKSPACE").0 == s
  {
    assert [c] !in Commands;
    if c == '\n' {
      LineBuffer.BackspaceUndoesSplit(s);
    } else {
      LineBuffer.DeleteUndoesInsert(s, c);
    }
  }

  /** A printable byte from the terminal is typed into the line. */
  lemma TypedKeys(s: LineBuffer.State, height: int, c: char, rest: string)
    requires LineBuffer.Valid(s) && 32 <= c as int <= 126
    ensures Dispatch(s, height, EditTerminal.Decode([c] + rest).name) == (LineBuffer.InsertChar(s, c), LineBuffer.Done)
  {
    assert ([c] + rest)[0] == c;
    assert EditTerminal.Decode([c] + rest).name == [c];
  }

  /** Ctrl-Right as the terminal sends it moves the cursor to the end of the word. */
  lemma CtrlRightMovesByWord(s: LineBuffer.State, height: int, rest: string)
    requires LineBuffer.Valid(s)
    ensures Dispatch(s, height, EditTerminal.Decode("\U{1B}[1;5C" + rest).name) ==
              (s.(cx := LineBuffer.AlnumRight(s.buf[s.cy], s.cx)), LineBuffer.Done)
  {
    EditTerminal.CtrlRightArrow(rest);
  }

  /** Keys the decoder names but the table leaves out, Tab and the Ctrl-letters
      among them, make editor raise TypeError and change nothing. */
  lemma UnboundKeysRaise(s: LineBuffer.State, height: int, c: char, rest: string)
    requires LineBuffer.Valid(s)
    ensures Dispatch(s, height, EditTerminal.Decode("\t" + rest).name) == (s, LineBuffer.Raised(LineBuffer.TypeError))
    ensures EditTerminal.CtrlName(c).Some? ==>
              Dispatch(s, height, EditTerminal.Decode([c] + rest).name) == (s, LineBuffer.Raised(LineBuffer.TypeError))
  {
    assert ("\t" + rest)[0] == '\t';
    assert EditTerminal.Decode("\t" + rest).name == "TAB";
    if EditTerminal.CtrlName(c).Some? {
      assert ([c] + rest)[0] == c;
      EditTerminal.CtrlTable(c);
      assert EditTerminal.Decode([c] + rest).name == EditTerminal.CtrlName(c).value;
    }
  }

  class Buffer {
    var buf: seq<string>
    var cx: int
    var cy: int
    var scroll: int
    /** Selection anchors: set to 0 here and never changed by any method. */
    var sx1: int
    var sy1: int
    var sx2: int
    var sy2: int
    /** Rows of the terminal (term.height), fixed when the buffer is made. */
    const height: int

    function State(): LineBuffer.State
      reads this
    {
      LineBuffer.State(buf, cx, cy, scroll)
    }

    predicate Valid()
      reads this
    {
      LineBuffer.Valid(State())
    }

    /** __init__: one empty line, or the lines of the file (reload) when a
        file name is given; its contents are passed in. */
    constructor (file: Option<string>, height: int)
      ensures Valid() && this.height == height
      ensures file.None? ==> State() == LineBuffer.State([""], 0, 0, 0)
      ensures file.Some? ==> State() == LineBuffer.State(Split(file.value), 0, 0, 0)
      ensures sx1 == sy1 == sx2 == sy2 == 0
      ensures LineBuffer.NoNewlines(buf)
    {
      this.height := height;
      buf := [""];
      if file.Some? {
        buf := Split(file.value);
      }
      cx, cy, scroll := 0, 0, 0;
      sx1, sy1, sx2, sy2 := 0, 0, 0, 0;
    }

    /** write: the text written to the file. */
    method Write() returns (text: string)
      requires Valid()
      ensures text == Join(buf)
      ensures LineBuffer.NoNewlines(buf) ==> Split(text) == buf
    {
      text := Join(buf);
      if LineBuffer.NoNewlines(buf) {
        SplitJoin(buf);
      }
    }

    method CursorRightbound()
      requires |buf| > 0 && 0 <= cy < |buf| && 0 <= cx && scroll >= 0
      modifies this`cx
      ensures State() == LineBuffer.RightBound(old(State()))
    {
      cx := LineBuffer.Min(|buf[cy]|, cx);
    }

    method MoveCursorHome()
      requires Valid()
      modifies this`cx
      ensures Valid() && State() == LineBuffer.Home(old(State()))
    {
      cx := 0;
    }

    method MoveCursorEnd()
      requires Valid()
      modifies this`cx
      ensures Valid() && State() == LineBuffer.End(old(State()))
    {
      cx := |buf[cy]|;
    }

    method MoveCursorRight()
      requires Valid()
      modifies this`cx
      ensures Valid() && State() == LineBuffer.MoveRight(old(State()))
    {
      cx := LineBuffer.Min(|buf[cy]|, cx + 1);
    }

    method MoveCursorLeft()
      requires cx >= 0
      modifies this`cx
      ensures State() == LineBuffer.MoveLeft(old(State()))
    {
      cx := LineBuffer.Max(0, cx - 1);
    }

    method MoveCursorLeftWb()
      requires Valid()
      modifies this`cx
      ensures Valid()
      ensures State() == old(State()).(cx := LineBuffer.AlnumLeft(old(buf[cy]), old(cx)))
    {
      MoveCursorLeft();
      if cx == |buf[cy]| {
        return;
      }
      var flag := IsAlnum(buf[cy][cx]);
      while 0 < cx && IsAlnum(buf[cy][cx]) == flag
        invariant Valid() && buf == old(buf) && cy == old(cy) && scroll == old(scroll)
        invariant cx < |buf[cy]| && LineBuffer.Max(0, old(cx) - 1) < |buf[cy]|
        invariant flag == IsAlnum(buf[cy][LineBuffer.Max(0, old(cx) - 1)])
        invariant LineBuffer.RunStart(buf[cy], cx, flag) == LineBuffer.RunStart(buf[cy], LineBuffer.Max(0, old(cx) - 1), flag)
        decreases cx
      {
        MoveCursorLeft();
      }
    }

    method MoveCursorRightWb()
      requires Valid()
      modifies this`cx
      ensures Valid()
      ensures State() == old(State()).(cx := LineBuffer.AlnumRight(old(buf[cy]), old(cx)))
    {
      MoveCursorRight();
      if cx == |buf[cy]| {
        return;
      }
      var flag := IsAlnum(buf[cy][cx]);
      while cx < |buf[cy]| && IsAlnum(buf[cy][cx]) == flag
        invariant Valid() && buf == old(buf) && cy == old(cy) && scroll == old(scroll)
        invariant old(cx) + 1 <= cx
        invariant flag == IsAlnum(buf[cy][old(cx) + 1])
        invariant LineBuffer.RunEnd(buf[cy], cx, flag) == LineBuffer.RunEnd(buf[cy], old(cx) + 1, flag)
        decreases |buf[cy]| - cx
      {
        MoveCursorRight();
      }
    }

    method MoveCursorDown()
      requires Valid()
      modifies this`cx, this`cy, this`scroll
      ensures Valid() && State() == LineBuffer.MoveDown(old(State()), height)
    {
      cy := LineBuffer.Min(|buf| - 1, cy + 1);
      CursorRightbound();
      if cy - height + 5 > scroll {
        ScrollDown();
      }
    }

    method MoveCursorUp()
      requires Valid()
      modifies this`cx, this`cy, this`scroll
      ensures Valid() && State() == LineBuffer.MoveUp(old(State()))
    {
      cy := LineBuffer.Max(0, cy - 1);
      CursorRightbound();
      if cy - 5 < scroll {
        ScrollUp();
      }
    }

    method ScrollUp()
      requires Valid()
      modifies this`scroll
      ensures Valid() && State() == LineBuffer.ScrollUp(old(State()))
    {
      scroll := LineBuffer.Max(0, scroll - 1);
    }

    method ScrollDown()
      requires Valid()
      modifies this`scroll
      ensures Valid() && State() == LineBuffer.ScrollDown(old(State()))
    {
      scroll := scroll + 1;
    }

    method Insert(c: char)
      requires Valid()
      modifies this`buf, this`cx, this`cy
      ensures Valid() && State() == InsertKey(old(State()), c)
    {
      var ln := buf[cy];
      if c == '\n' {
        var right := ln[cx..];
        var left := ln[..cx];
        buf := buf[cy := right];
        buf := buf[..cy] + [left] + buf[cy..];
        cy := cy + 1;
        cx := 0;
        return;
      }
      buf := buf[cy := ln[..cx] + [c] + ln[cx..]];
      MoveCursorRight();
    }

    method Delete()
      requires Valid()
      modifies this`buf, this`cx, this`cy
      ensures Valid() && State() == LineBuffer.BackspacePlain(old(State()))
    {
      if cx == 0 {
        if cy == 0 {
          return;
        }
        cx := |buf[cy - 1]|;
        var line := buf[cy];
        buf := buf[..cy] + buf[cy + 1..];
        buf := buf[cy - 1 := buf[cy - 1] + line];
        cy := cy - 1;
        return;
      }
      var ln := buf[cy];
      buf := buf[cy := ln[..cx - 1] + ln[cx..]];
      MoveCursorLeft();
    }

    /** select_right and select_left have empty bodies: they change nothing. */
    method SelectRight()
      ensures unchanged(this)
    {
    }

    method SelectLeft()
      ensures unchanged(this)
    {
    }

    /** editor's table lookup, given the key name read. */
    method HandleKey(key: string) returns (outcome: LineBuffer.Outcome)
      requires Valid()
      modifies this`buf, this`cx, this`cy, this`scroll
      ensures Valid()
      ensures (State(), outcome) == Dispatch(old(State()), height, key)
    {
      outcome := LineBuffer.Done;
      if key == "RIGHT_ARROW" {
        MoveCursorRight();
      } else if key == "LEFT_ARROW" {
        MoveCursorLeft();
      } else if key == "CTRL_RIGHT_ARROW" {
        MoveCursorRightWb();
      } else if key == "CTRL_LEFT_ARROW" {
        MoveCursorLeftWb();
      } else if key == "UP_ARROW" {
        MoveCursorUp();
      } else if key == "DOWN_ARROW" {
        MoveCursorDown();
      } else if key == "PG_UP" {
        ScrollUp();
      } else if key == "PG_DOWN" {
        ScrollDown();
      } else if key == "HOME" {
        MoveCursorHome();
      } else if key == "END" {
        MoveCursorEnd();
      } else if key == "BACKSPACE" {
        Delete();
      } else if key == "SHIFT_RIGHT_ARROW" {
        SelectRight();
      } else if key == "SHIFT_LEFT_ARROW" {
        SelectLeft();
      } else if |key| != 1 {
        outcome := LineBuffer.Raised(LineBuffer.TypeError);
      } else if EditTerminal.IsAscii(key[0]) {
        Insert(key[0]);
      }
    }

    /** editor: read one key from the terminal, then handle it. None: the
        input ran dry before a whole key arrived, and the buffer is as it was. */
    method Editor(stdin: Stream) returns (outcome: Option<LineBuffer.Outcome>)
      requires Valid() && stdin.Valid()
      modifies this`buf, this`cx, this`cy, this`scroll, stdin`pos
      ensures Valid() && stdin.Valid()
      ensures EditTerminal.Decode(old(stdin.Rest())).Blocked? ==>
                outcome == None && State() == old(State()) && stdin.pos == |stdin.data|
      ensures EditTerminal.Decode(old(stdin.Rest())).Key? ==>
                var d := EditTerminal.Decode(old(stdin.Rest()));
                outcome == Some(Dispatch(old(State()), height, d.name).1) &&
                State() == Dispatch(old(State()), height, d.name).0 &&
                stdin.pos == old(stdin.pos) + d.consumed
    {
      var key := EditTerminal.Read(stdin);
      if key.None? {
        return None;
      }
      var o := HandleKey(key.value);
      return Some(o);
    }
  }
}
