/**
 * The editor of edit.py: the same Buffer as test_file.py except that word
 * motion is a recursive walk over letters (isalpha), insert_char does not
 * turn a newline into a line break, and keyhandle has no selection keys.
 */
module Edit {
  import opened Wrappers
  import opened Text
  import opened Input
  import LineBuffer
  import KeyReader

  /** The key strings keyhandle tests before it falls back to ord(). */
  const Bound: set<string> := {"[C", "[D", ";5C", ";5D", "[A", "[B", "[F", "[H", "[6", "[5"}

  /** keyhandle: what one key string does to the editing state. A string of
      more than one character that no branch recognises makes ord() raise
      TypeError. */
  function Handle(s: LineBuffer.State, height: int, key: string): (r: (LineBuffer.State, LineBuffer.Outcome))
    requires LineBuffer.Valid(s)
    ensures LineBuffer.Valid(r.0)
    ensures r.1.Raised? <==> key !in Bound && |key| != 1
    ensures r.1.Raised? ==> r.1.error == LineBuffer.TypeError
    ensures r.1.Raised? ==> r.0 == s
    ensures r.1.Saved? <==> key == "\U{13}"
    ensures r.1.Saved? ==> r.0 == s && r.1.text == Join(s.buf)
    ensures r.0.buf != s.buf ==> |key| == 1
  {
    if key == "[C" then (LineBuffer.MoveRight(s), LineBuffer.Done)
    else if key == "[D" then (LineBuffer.MoveLeft(s), LineBuffer.Done)
    else if key == ";5C" then (s.(cx := LineBuffer.AlphaRight(s.buf[s.cy], s.cx)), LineBuffer.Done)
    else if key == ";5D" then (s.(cx := LineBuffer.AlphaLeft(s.buf[s.cy], s.cx)), LineBuffer.Done)
    else if key == "[A" then (LineBuffer.MoveUp(s), LineBuffer.Done)
    else if key == "[B" then (LineBuffer.MoveDown(s, height), LineBuffer.Done)
    else if key == "[F" then (LineBuffer.End(s), LineBuffer.Done)
    else if key == "[H" then (LineBuffer.Home(s), LineBuffer.Done)
    else if key == "[6" then (LineBuffer.ScrollDown(s), LineBuffer.Done)
    else if key == "[5" then (LineBuffer.ScrollUp(s), LineBuffer.Done)
    else if |key| != 1 then (s, LineBuffer.Raised(LineBuffer.TypeError))
    else if ' ' <= key[0] <= '~' then (LineBuffer.InsertChar(s, key[0]), LineBuffer.Done)
    else if key == "\U{7F}" then (LineBuffer.Backspace(s), LineBuffer.Done)
    else if key == "\n" then (LineBuffer.Linebreak(s, height), LineBuffer.Done)
    else if key == "\U{13}" then (s, LineBuffer.Saved(Join(s.buf)))
    else if key == "\t" then (LineBuffer.Tab(s), LineBuffer.Done)
    else (s, LineBuffer.Done)
  }

  /** Handling keys never puts a newline inside a line, so what Ctrl-S saves
      reloads as the same lines. */
  lemma HandleKeepsNoNewlines(s: LineBuffer.State, height: int, key: string)
    requires LineBuffer.Valid(s) && LineBuffer.NoNewlines(s.buf)
    ensures LineBuffer.NoNewlines(Handle(s, height, key).0.buf)
  {
    LineBuffer.EditsKeepNoNewlines(s, if |key| == 1 then key[0] else ' ', height);
  }

  /** A printable byte from the terminal is typed into the line; Ctrl-S saves. */
  lemma TypedKeys(s: LineBuffer.State, height: int, c: char, rest: string)
    requires LineBuffer.Valid(s)
    ensures 32 <= c as int <= 126 ==>
              Handle(s, height, KeyReader.Decode([c] + rest).name) == (LineBuffer.InsertChar(s, c), LineBuffer.Done)
    ensures Handle(s, height, KeyReader.Decode("\U{13}" + rest).name) == (s, LineBuffer.Saved(Join(s.buf)))
  {
    var typed, save := [c] + rest, "\U{13}" + rest;
    if 32 <= c as int <= 126 {
      assert typed[0] == c && typed[..1] == [c];
      assert KeyReader.Decode(typed).name == [c];
    }
    assert save[0] == '\U{13}' && save[..1] == "\U{13}";
    assert KeyReader.Decode(save).name == "\U{13}";
  }

  /** What keyhandle makes of the escape sequences readkey decodes: Page Up
      scrolls, Ctrl-Right moves by word, and Shift-Right, which this keyhandle does not bind, reaches ord() and raises TypeError. */
  lemma EscapeKeys(s: LineBuffer.State, height: int, rest: string)
    requires LineBuffer.Valid(s)
    ensures KeyReader.Decode("\U{1B}[5~" + rest).Key? &&
              Handle(s, height, KeyReader.Decode("\U{1B}[5~" + rest).name) == (LineBuffer.ScrollUp(s), LineBuffer.Done)
    ensures Handle(s, height, KeyReader.Decode("\U{1B}[1;5C" + rest).name) ==
              (s.(cx := LineBuffer.AlphaRight(s.buf[s.cy], s.cx)), LineBuffer.Done)
    ensures Handle(s, height, KeyReader.Decode("\U{1B}[1;2C" + rest).name) == (s, LineBuffer.Raised(LineBuffer.TypeError))
  {
    var pg, cr, sr := "\U{1B}[5~" + rest, "\U{1B}[1;5C" + rest, "\U{1B}[1;2C" + rest;
    assert pg[0] == '\U{1B}' && pg[1..3] == "[5";
    assert cr[0] == '\U{1B}' && cr[1..3] == "[1" && cr[3..6] == ";5C";
    assert sr[0] == '\U{1B}' && sr[1..3] == "[1" && sr[3..6] == ";2C";
    assert KeyReader.Decode(pg) == Key("[5", 4);
    assert KeyReader.Decode(cr) == Key(";5C", 6);
    assert KeyReader.Decode(sr) == Key(";2C", 6);
  }

  class Buffer {
    var buf: seq<string>
    var cx: int
    var cy: int
    var scroll: int
    /** Rows of the terminal (self.ter.height), fixed when the buffer is made. */
    const height: int

    function State(): LineBuffer.State
      reads this
    {
      LineBuffer.State(buf, cx, cy, scroll)
    }

    predicate Valid()
      reads this
    {
      LineBuffer.Valid(State())
    }

    /** __init__ followed by reload, given the file's contents. */
    constructor (contents: string, height: int)
      ensures Valid() && this.height == height
      ensures State() == LineBuffer.State(Split(contents), 0, 0, 0)
      ensures LineBuffer.NoNewlines(buf)
    {
      this.height := height;
      cx, cy, scroll := 0, 0, 0;
      buf := Split(contents);
    }

    /** save: the text written to the file. */
    method Save() returns (text: string)
      requires Valid()
      ensures text == Join(buf)
      ensures LineBuffer.NoNewlines(buf) ==> Split(text) == buf
    {
      text := Join(buf);
      if LineBuffer.NoNewlines(buf) {
        SplitJoin(buf);
      }
    }

    method MoveRightbound()
      requires |buf| > 0 && 0 <= cy < |buf| && 0 <= cx && scroll >= 0
      modifies this`cx
      ensures State() == LineBuffer.RightBound(old(State()))
    {
      cx := LineBuffer.Min(|buf[cy]|, cx);
    }

    method MoveCursorRight()
      requires Valid()
      modifies this`cx
      ensures Valid() && State() == LineBuffer.MoveRight(old(State()))
    {
      cx := LineBuffer.Min(|buf[cy]|, cx + 1);
    }

    method MoveCursorLeft()
      requires cx >= 0
      modifies this`cx
      ensures State() == LineBuffer.MoveLeft(old(State()))
    {
      cx := LineBuffer.Max(0, cx - 1);
    }

    /** Written as tail recursion in the source; each call moves one column. */
    method MoveCursorRightWord()
      requires Valid()
      modifies this`cx
      ensures Valid()
      ensures State() == old(State()).(cx := LineBuffer.AlphaRight(old(buf[cy]), old(cx)))
      decreases |buf[cy]| - cx
    {
      MoveCursorRight();
      if cx < |buf[cy]| && IsAlpha(buf[cy][cx]) {
        MoveCursorRightWord();
      }
    }

    method MoveCursorLeftWord()
      requires Valid()
      modifies this`cx
      ensures Valid()
      ensures State() == old(State()).(cx := LineBuffer.AlphaLeft(old(buf[cy]), old(cx)))
      decreases cx
    {
      MoveCursorLeft();
      if 0 < cx && IsAlpha(buf[cy][cx]) {
        MoveCursorLeftWord();
      }
    }

    method ScrollUp()
      requires Valid()
      modifies this`scroll
      ensures Valid() && State() == LineBuffer.ScrollUp(old(State()))
    {
      scroll := LineBuffer.Max(0, scroll - 1);
    }

    method ScrollDown()
      requires Valid()
      modifies this`scroll
      ensures Valid() && State() == LineBuffer.ScrollDown(old(State()))
    {
      scroll := scroll + 1;
    }

    method MoveCursorDown()
      requires Valid()
      modifies this`cx, this`cy, this`scroll
      ensures Valid() && State() == LineBuffer.MoveDown(old(State()), height)
    {
      cy := LineBuffer.Min(|buf| - 1, cy + 1);
      MoveRightbound();
      if cy - height + 5 > scroll {
        ScrollDown();
      }
    }

    method MoveCursorUp()
      requires Valid()
      modifies this`cx, this`cy, this`scroll
      ensures Valid() && State() == LineBuffer.MoveUp(old(State()))
    {
      cy := LineBuffer.Max(0, cy - 1);
      MoveRightbound();
      if cy - 5 < scroll {
        ScrollUp();
      }
    }

    method InsertChar(c: char)
      requires Valid()
      modifies this`buf, this`cx
      ensures Valid() && State() == LineBuffer.InsertChar(old(State()), c)
    {
      var line := buf[cy];
      buf := buf[cy := line[..cx] + [c] + line[cx..]];
      MoveCursorRight();
    }

    method Delete()
      requires Valid()
      modifies this`buf, this`cx, this`cy
      ensures Valid() && State() == LineBuffer.Backspace(old(State()))
    {
      if cx == 0 {
        if cy != 0 {
          var line := buf[cy];
          buf := buf[..cy] + buf[cy + 1..];
          cy := cy - 1;
          cx := |buf[cy]|;
          buf := buf[cy := buf[cy] + line];
        }
      } else if 4 <= cx && buf[cy][cx - 4..cx] == "    " {
        ghost var line0, cx0 := buf[cy], cx;
        assert line0[..cx0] + line0[cx0..] == line0;
        for i := 0 to 4
          invariant cy == old(cy) && scroll == old(scroll) && cx == cx0 - i
          invariant buf == old(buf)[cy := line0[..cx0 - i] + line0[cx0..]]
        {
          DeleteChar();
          assert buf[cy] == line0[..cx0 - (i + 1)] + line0[cx0..];
        }
      } else {
        DeleteChar();
      }
    }

    method DeleteChar()
      requires Valid() && cx > 0
      modifies this`buf, this`cx
      ensures Valid() && State() == LineBuffer.DeleteBefore(old(State()))
    {
      var line := buf[cy];
      buf := buf[cy := line[..cx - 1] + line[cx..]];
      MoveCursorLeft();
    }

    method InsertLinebreak()
      requires Valid()
      modifies this`buf, this`cx, this`cy, this`scroll
      ensures Valid() && State() == LineBuffer.Linebreak(old(State()), height)
    {
      var left := buf[cy][..cx];
      var right := buf[cy][cx..];
      buf := buf[cy := right];
      buf := buf[..cy] + [left] + buf[cy..];
      assert buf == old(LineBuffer.SplitLine(State()).buf);
      MoveCursorDown();
      cx := 0;
    }

    method MoveEnd()
      requires Valid()
      modifies this`cx
      ensures Valid() && State() == LineBuffer.End(old(State()))
    {
      cx := |buf[cy]|;
    }

    method MoveHome()
      requires Valid()
      modifies this`cx
      ensures Valid() && State() == LineBuffer.Home(old(State()))
    {
      cx := 0;
    }

    /** keyhandle: read one key with readkey, then handle it. None: the input
        ran dry before readkey returned, and the buffer is as it was. */
    method KeyHandle(stdin: Stream) returns (outcome: Option<LineBuffer.Outcome>)
      requires Valid() && stdin.Valid()
      modifies this`buf, this`cx, this`cy, this`scroll, stdin`pos
      ensures Valid() && stdin.Valid()
      ensures KeyReader.Decode(old(stdin.Rest())).Blocked? ==>
                outcome == None && State() == old(State()) && stdin.pos == |stdin.data|
      ensures KeyReader.Decode(old(stdin.Rest())).Key? ==>
                var d := KeyReader.Decode(old(stdin.Rest()));
                outcome == Some(Handle(old(State()), height, d.name).1) &&
                State() == Handle(old(State()), height, d.name).0 &&
                stdin.pos == old(stdin.pos) + d.consumed
    {
      var key := KeyReader.ReadKey(stdin);
      if key.None? {
        return None;
      }
      var o := HandleKey(key.value);
      return Some(o);
    }

    /** The branches of keyhandle, given the string readkey returned. */
    method HandleKey(key: string) returns (outcome: LineBuffer.Outcome)
      requires Valid()
      modifies this`buf, this`cx, this`cy, this`scroll
      ensures Valid()
      ensures (State(), outcome) == Handle(old(State()), height, key)
    {
      outcome := LineBuffer.Done;
      if key == "[C" {
        MoveCursorRight();
      } else if key == "[D" {
        MoveCursorLeft();
      } else if key == ";5C" {
        MoveCursorRightWord();
      } else if key == ";5D" {
        MoveCursorLeftWord();
      } else if key == "[A" {
        MoveCursorUp();
      } else if key == "[B" {
        MoveCursorDown();
      } else if key == "[F" {
        MoveEnd();
      } else if key == "[H" {
        MoveHome();
      } else if key == "[6" {
        ScrollDown();
      } else if key == "[5" {
        ScrollUp();
      } else if |key| != 1 {
        outcome := LineBuffer.Raised(LineBuffer.TypeError);
      } else if ' ' <= key[0] <= '~' {
        InsertChar(key[0]);
      } else if key == "\U{7F}" {
        Delete();
      } else if key == "\n" {
        InsertLinebreak();
      } else if key == "\U{13}" {
        var text := Save();
        outcome := LineBuffer.Saved(text);
      } else if key == "\t" {
        ghost var line0, cx0 := buf[cy], cx;
        assert line0[..cx0] + "    "[..0] + line0[cx0..] == line0;
        for i := 0 to 4
          invariant Valid() && cy == old(cy) && scroll == old(scroll) && cx == cx0 + i
          invariant buf == old(buf)[cy := line0[..cx0] + "    "[..i] + line0[cx0..]]
        {
          InsertChar(' ');
          assert buf[cy] == line0[..cx0] + "    "[..i + 1] + line0[cx0..];
        }
        assert "    "[..4] == "    ";
      }
    }
  }
}
