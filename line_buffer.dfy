/**
 * The editing state of the Buffer classes (test_file.py, edit.py,
 * edit/buffer.py) as a value, and each editing and movement operation as a
 * function on it. Where the three copies behave alike the operation is
 * defined here once; each copy's class proves its methods against these
 * functions, and the lemmas below state what the operations promise.
 */
module LineBuffer {
  import opened Text

  /** The lines of the buffer, the cursor column cx and row cy, and the first visible row. */
  datatype State = State(buf: seq<string>, cx: int, cy: int, scroll: int)

  /** Python exceptions the key dispatchers can raise. */
  datatype PyError = TypeError | AttributeError

  /** What handling one key did beyond changing the state: nothing, a save of
      the given file text, or an exception that leaves the state untouched. */
  datatype Outcome = Done | Saved(text: string) | Raised(error: PyError)

  /** The buffer is never empty and the cursor is always on a line, at most one past its end. */
  predicate Valid(s: State)
  {
    |s.buf| > 0 && 0 <= s.cy < |s.buf| && 0 <= s.cx <= |s.buf[s.cy]| && s.scroll >= 0
  }

  function Line(s: State): string
    requires Valid(s)
  {
    s.buf[s.cy]
  }

  function Min(a: int, b: int): int { if a <= b then a else b }
  function Max(a: int, b: int): int { if a >= b then a else b }

  /** Lines other than row are the same in both buffers. */
  ghost predicate OthersUnchanged(b: seq<string>, b': seq<string>, row: int)
  {
    |b'| == |b| && forall i :: 0 <= i < |b| && i != row ==> b'[i] == b[i]
  }

  /** No line holds a newline: what loading a file produces, and what lets
      saving and reloading give the same lines back. */
  ghost predicate NoNewlines(buf: seq<string>)
  {
    forall i :: 0 <= i < |buf| ==> '\n' !in buf[i]
  }

  // ---------------------------------------------------------------- movement

  /** move_rightbound / cursor_rightbound: pull the column back onto the current line. */
  function RightBound(s: State): (r: State)
    requires 0 <= s.cy < |s.buf| && 0 <= s.cx && s.scroll >= 0
    ensures Valid(r) && r.buf == s.buf && r.cy == s.cy && r.scroll == s.scroll
    ensures r.cx == s.cx || r.cx == |s.buf[s.cy]| < s.cx
  {
    s.(cx := Min(|s.buf[s.cy]|, s.cx))
  }

  /** move_cursor_right: one column right, stopping at the end of the line. */
  function MoveRight(s: State): (r: State)
    requires Valid(s)
    ensures Valid(r) && r == s.(cx := r.cx)
    ensures s.cx < |Line(s)| ==> r.cx == s.cx + 1
    ensures s.cx == |Line(s)| ==> r == s
  {
    s.(cx := Min(|s.buf[s.cy]|, s.cx + 1))
  }

  /** move_cursor_left: one column left, stopping at column 0. It is also
      called by delete_char on a line already one shorter, so it asks only for
      a column that is not negative. */
  function MoveLeft(s: State): (r: State)
    requires s.cx >= 0
    ensures Valid(s) ==> Valid(r)
    ensures r == s.(cx := r.cx)
    ensures s.cx > 0 ==> r.cx == s.cx - 1
    ensures s.cx == 0 ==> r == s
  {
    s.(cx := Max(0, s.cx - 1))
  }

  /** move_home / move_cursor_home */
  function Home(s: State): (r: State)
    requires Valid(s)
    ensures Valid(r) && r == s.(cx := r.cx)
  {
    s.(cx := 0)
  }

  /** move_end / move_cursor_end */
  function End(s: State): (r: State)
    requires Valid(s)
    ensures Valid(r) && r == s.(cx := r.cx)
  {
    s.(cx := |s.buf[s.cy]|)
  }

  /** scroll_up: one row up, never below 0. */
  function ScrollUp(s: State): (r: State)
    requires Valid(s)
    ensures Valid(r) && r == s.(scroll := r.scroll)
    ensures r.scroll <= s.scroll <= r.scroll + 1
    ensures r.scroll == 0 || r.scroll == s.scroll - 1
  {
    s.(scroll := Max(0, s.scroll - 1))
  }

  /** scroll_down: one row down, with no upper bound. */
  function ScrollDown(s: State): (r: State)
    requires Valid(s)
    ensures Valid(r) && r == s.(scroll := r.scroll)
    ensures r.scroll == s.scroll + 1
  {
    s.(scroll := s.scroll + 1)
  }

  /** move_cursor_down: next row (clamped to the last), column clamped to that
      row, and one row of scrolling when the cursor comes within 5 rows of the
      bottom of a viewport of the given height. */
  function MoveDown(s: State, height: int): (r: State)
    requires Valid(s)
    ensures Valid(r) && r.buf == s.buf
    ensures r.cy == Min(|s.buf| - 1, s.cy + 1)
    ensures r.cx == s.cx || r.cx == |r.buf[r.cy]| < s.cx
    ensures r.scroll == s.scroll || r.scroll == s.scroll + 1
    ensures r.scroll == s.scroll + 1 <==> r.cy - height + 5 > s.scroll
  {
    var t := RightBound(s.(cy := Min(|s.buf| - 1, s.cy + 1)));
    if t.cy - height + 5 > t.scroll then ScrollDown(t) else t
  }

  /** move_cursor_up: previous row (clamped to 0), column clamped to that row,
      and one row of scrolling back when the cursor comes within 5 rows of the top. */
  function MoveUp(s: State): (r: State)
    requires Valid(s)
    ensures Valid(r) && r.buf == s.buf
    ensures r.cy == Max(0, s.cy - 1)
    ensures r.cx == s.cx || r.cx == |r.buf[r.cy]| < s.cx
    ensures r.cy - 5 < s.scroll ==> r.scroll == Max(0, s.scroll - 1)
    ensures r.cy - 5 >= s.scroll ==> r.scroll == s.scroll
  {
    var t := RightBound(s.(cy := Max(0, s.cy - 1)));
    if t.cy - 5 < t.scroll then ScrollUp(t) else t
  }

  // ------------------------------------------------------------- word motion

  /** End of the run of characters of class flag (isalnum) starting at i. */
  function RunEnd(line: string, i: int, flag: bool): (r: int)
    requires 0 <= i <= |line|
    ensures i <= r <= |line|
    ensures r == |line| || IsAlnum(line[r]) != flag
    ensures forall k :: i <= k < r ==> IsAlnum(line[k]) == flag
    decreases |line| - i
  {
    if i < |line| && IsAlnum(line[i]) == flag then RunEnd(line, i + 1, flag) else i
  }

  /** Start of the run of characters of class flag (isalnum) ending at i, stopping at column 0. */
  function RunStart(line: string, i: int, flag: bool): (r: int)
    requires 0 <= i < |line|
    ensures 0 <= r <= i
    ensures r == 0 || IsAlnum(line[r]) != flag
    ensures forall k :: r < k <= i ==> IsAlnum(line[k]) == flag
    decreases i
  {
    if 0 < i && IsAlnum(line[i]) == flag then RunStart(line, i - 1, flag) else i
  }

  /** Column reached by move_cursor_right_word (test_file.py) / move_cursor_right_wb
      (edit/buffer.py): one step right, then across the run of characters that
      share the isalnum class of the character stepped onto. */
  function AlnumRight(line: string, cx: int): (r: int)
    requires 0 <= cx <= |line|
    ensures cx <= r <= |line|
    ensures cx < |line| ==> cx < r
    ensures r == |line| || (cx + 1 < r && IsAlnum(line[r]) != IsAlnum(line[cx + 1]))
    ensures forall k :: cx + 1 <= k < r ==> IsAlnum(line[k]) == IsAlnum(line[cx + 1])
  {
    var c := Min(|line|, cx + 1);
    if c == |line| then c else RunEnd(line, c, IsAlnum(line[c]))
  }

  /** Column reached by move_cursor_left_word / move_cursor_left_wb: one step
      left, then left while the character under the cursor keeps the isalnum
      class of the one stepped onto; it stops ON the first character of the
      other class, or at column 0. */
  function AlnumLeft(line: string, cx: int): (r: int)
    requires 0 <= cx <= |line|
    ensures 0 <= r <= cx && (cx > 0 ==> r < cx)
    ensures r == 0 || IsAlnum(line[r]) != IsAlnum(line[cx - 1])
    ensures forall k :: r < k < cx ==> IsAlnum(line[k]) == IsAlnum(line[cx - 1])
  {
    var c := Max(0, cx - 1);
    if c == |line| then c else RunStart(line, c, IsAlnum(line[c]))
  }

  /** Column reached by edit.py's recursive move_cursor_right_word: step right
      at least once, and go on while the character under the cursor is a letter. */
  function AlphaRight(line: string, cx: int): (r: int)
    requires 0 <= cx <= |line|
    ensures cx <= r <= |line|
    ensures cx < |line| ==> cx < r
    ensures r == |line| || !IsAlpha(line[r])
    ensures forall k :: cx < k < r ==> IsAlpha(line[k])
    decreases |line| - cx
  {
    var n := Min(|line|, cx + 1);
    if n < |line| && IsAlpha(line[n]) then AlphaRight(line, n) else n
  }

  /** Column reached by edit.py's recursive move_cursor_left_word: step left,
      and go on while the cursor is past column 0 on a letter. */
  function AlphaLeft(line: string, cx: int): (r: int)
    requires 0 <= cx <= |line|
    ensures 0 <= r <= cx && (cx > 0 ==> r < cx)
    ensures r == 0 || !IsAlpha(line[r])
    ensures forall k :: r < k < cx ==> IsAlpha(line[k])
    decreases cx
  {
    var n := Max(0, cx - 1);
    if 0 < n && IsAlpha(line[n]) then AlphaLeft(line, n) else n
  }

  // ----------------------------------------------------------------- editing

  /** insert_char / insert for a character other than newline: splice it in at
      the cursor, then move right past it. */
  function InsertChar(s: State, c: char): (r: State)
    requires Valid(s)
    ensures Valid(r) && r.cy == s.cy && r.scroll == s.scroll && r.cx == s.cx + 1
    ensures OthersUnchanged(s.buf, r.buf, s.cy)
    ensures r.buf[s.cy] == Line(s)[..s.cx] + [c] + Line(s)[s.cx..]
  {
    var line := s.buf[s.cy];
    MoveRight(s.(buf := s.buf[s.cy := line[..s.cx] + [c] + line[s.cx..]]))
  }

  /** The Tab key of test_file.py and edit.py: four spaces inserted one after another. */
  function Tab(s: State): (r: State)
    requires Valid(s)
    ensures Valid(r) && r.cy == s.cy && r.scroll == s.scroll && r.cx == s.cx + 4
    ensures OthersUnchanged(s.buf, r.buf, s.cy)
    ensures r.buf[s.cy] == Line(s)[..s.cx] + "    " + Line(s)[s.cx..]
  {
    var line := s.buf[s.cy];
    s.(buf := s.buf[s.cy := line[..s.cx] + "    " + line[s.cx..]], cx := s.cx + 4)
  }

  /** delete_char (and the last branch of edit/buffer.py's delete): remove the
      character before the cursor. */
  function DeleteBefore(s: State): (r: State)
    requires Valid(s) && s.cx > 0
    ensures Valid(r) && r.cy == s.cy && r.scroll == s.scroll && r.cx == s.cx - 1
    ensures OthersUnchanged(s.buf, r.buf, s.cy)
    ensures r.buf[s.cy] == Line(s)[..s.cx - 1] + Line(s)[s.cx..]
  {
    var line := s.buf[s.cy];
    MoveLeft(s.(buf := s.buf[s.cy := line[..s.cx - 1] + line[s.cx..]]))
  }

  /** The de-indent branch of delete: the four spaces before the cursor go at once. */
  function DeIndent(s: State): (r: State)
    requires Valid(s) && s.cx >= 4 && Line(s)[s.cx - 4..s.cx] == "    "
    ensures Valid(r) && r.cy == s.cy && r.scroll == s.scroll && r.cx == s.cx - 4
    ensures OthersUnchanged(s.buf, r.buf, s.cy)
    ensures r.buf[s.cy] == Line(s)[..s.cx - 4] + Line(s)[s.cx..]
  {
    var line := s.buf[s.cy];
    s.(buf := s.buf[s.cy := line[..s.cx - 4] + line[s.cx..]], cx := s.cx - 4)
  }

  /** Backspace at column 0 of a line below the first: the line is appended to
      the previous one and removed; the cursor lands at the join. */
  function MergeUp(s: State): (r: State)
    requires Valid(s) && s.cx == 0 && s.cy > 0
    ensures Valid(r) && r.scroll == s.scroll
    ensures |r.buf| == |s.buf| - 1 && r.cy == s.cy - 1 && r.cx == |s.buf[s.cy - 1]|
    ensures r.buf[r.cy] == s.buf[s.cy - 1] + s.buf[s.cy]
    ensures forall i :: 0 <= i < s.cy - 1 ==> r.buf[i] == s.buf[i]
    ensures forall i :: s.cy <= i < |r.buf| ==> r.buf[i] == s.buf[i + 1]
  {
    s.(buf := s.buf[..s.cy - 1] + [s.buf[s.cy - 1] + s.buf[s.cy]] + s.buf[s.cy + 1..],
       cy := s.cy - 1, cx := |s.buf[s.cy - 1]|)
  }

  /** delete of test_file.py and edit.py: nothing at the very start, a merge at
      column 0, a de-indent after four spaces, otherwise one character. */
  function Backspace(s: State): (r: State)
    requires Valid(s)
    ensures Valid(r) && r.scroll == s.scroll
  {
    if s.cx == 0 then (if s.cy != 0 then MergeUp(s) else s)
    else if 4 <= s.cx && s.buf[s.cy][s.cx - 4..s.cx] == "    " then DeIndent(s)
    else DeleteBefore(s)
  }

  /** delete of edit/buffer.py: the same without the de-indent branch. */
  function BackspacePlain(s: State): (r: State)
    requires Valid(s)
    ensures Valid(r) && r.scroll == s.scroll
    ensures s.cx == 0 && s.cy == 0 ==> r == s
    ensures s.cx == 0 && s.cy > 0 ==> r == MergeUp(s)
    ensures s.cx > 0 ==> r == DeleteBefore(s)
  {
    if s.cx == 0 then (if s.cy == 0 then s else MergeUp(s))
    else DeleteBefore(s)
  }

  /** Splitting the current line at the cursor: the left part stays, the right
      part becomes the next line, and the cursor goes to its start. This is
      edit/buffer.py's insert("\n"), which leaves scroll alone. */
  function SplitLine(s: State): (r: State)
    requires Valid(s)
    ensures Valid(r) && r.scroll == s.scroll
    ensures |r.buf| == |s.buf| + 1 && r.cy == s.cy + 1 && r.cx == 0
    ensures r.buf[s.cy] + r.buf[s.cy + 1] == Line(s) && |r.buf[s.cy]| == s.cx
    ensures forall i :: 0 <= i < s.cy ==> r.buf[i] == s.buf[i]
    ensures forall i :: s.cy + 1 < i < |r.buf| ==> r.buf[i] == s.buf[i - 1]
  {
    var line := s.buf[s.cy];
    s.(buf := s.buf[..s.cy] + [line[..s.cx], line[s.cx..]] + s.buf[s.cy + 1..],
       cy := s.cy + 1, cx := 0)
  }

  /** insert_linebreak of test_file.py and edit.py: the same split, but the
      cursor gets there through move_cursor_down, which may scroll. */
  function Linebreak(s: State, height: int): (r: State)
    requires Valid(s)
    ensures Valid(r)
    ensures r == SplitLine(s).(scroll := r.scroll)
    ensures r.scroll == if s.cy + 1 - height + 5 > s.scroll then s.scroll + 1 else s.scroll
  {
    MoveDown(s.(buf := SplitLine(s).buf), height).(cx := 0)
  }

  // ------------------------------------------------------------------ lemmas

  /** Right then left gives back the cursor unless it was already at the end of the line. */
  lemma LeftUndoesRight(s: State)
    requires Valid(s) && s.cx < |Line(s)|
    ensures MoveLeft(MoveRight(s)) == s
  {
  }

  /** Home and End are the two extreme columns; moving beyond them does nothing. */
  lemma HomeEndExtremes(s: State)
    requires Valid(s)
    ensures Home(s).cx == 0 <= s.cx <= End(s).cx == |Line(s)|
    ensures MoveLeft(Home(s)) == Home(s) && MoveRight(End(s)) == End(s)
  {
  }

  /** The cases of backspace with de-indent (test_file.py, edit.py): the
      function is total over valid states, and every case is one of the
      specified edits above, so what backspace does is read off them. */
  lemma BackspaceCases(s: State)
    requires Valid(s)
    ensures s.cx == 0 && s.cy == 0 ==> Backspace(s) == s
    ensures s.cx == 0 && s.cy > 0 ==> Backspace(s) == MergeUp(s)
    ensures s.cx >= 4 && Line(s)[s.cx - 4..s.cx] == "    " ==> Backspace(s) == DeIndent(s)
    ensures s.cx > 0 && !(s.cx >= 4 && Line(s)[s.cx - 4..s.cx] == "    ") ==> Backspace(s) == DeleteBefore(s)
  {
  }

  /** Backspace removes one typed character again. */
  lemma {:induction false} DeleteUndoesInsert(s: State, c: char)
    requires Valid(s)
    ensures DeleteBefore(InsertChar(s, c)) == s
    ensures BackspacePlain(InsertChar(s, c)) == s
    ensures c != ' ' ==> Backspace(InsertChar(s, c)) == s
  {
    var line := Line(s);
    var t := InsertChar(s, c);
    var l := t.buf[s.cy];
    assert l[..s.cx] + l[s.cx + 1..] == line by {
      assert l[..s.cx] == line[..s.cx];
      assert l[s.cx + 1..] == line[s.cx..];
    }
    assert DeleteBefore(t).buf == s.buf;
    if c != ' ' && t.cx >= 4 {
      assert l[t.cx - 4..t.cx][3] == c;
    }
  }

  /** Backspace right after Tab takes the four spaces out again. */
  lemma {:induction false} BackspaceUndoesTab(s: State)
    requires Valid(s)
    ensures Backspace(Tab(s)) == s
  {
    var line := Line(s);
    var t := Tab(s);
    var l := t.buf[s.cy];
    assert l[t.cx - 4..t.cx] == "    ";
    assert l[..t.cx - 4] + l[t.cx..] == line by {
      assert l[..t.cx - 4] == line[..s.cx];
      assert l[t.cx..] == line[s.cx..];
    }
    assert DeIndent(t).buf == s.buf;
  }

  /** Backspace at the start of a line joins again what a newline split. */
  lemma {:induction false} BackspaceUndoesSplit(s: State)
    requires Valid(s)
    ensures BackspacePlain(SplitLine(s)) == s
    ensures Backspace(SplitLine(s)) == s
  {
    var t := SplitLine(s);
    var m := MergeUp(t);
    assert m.buf == s.buf by {
      assert m.buf[s.cy] == s.buf[s.cy];
    }
  }

  /** Backspace after test_file.py's and edit.py's own insert_linebreak joins
      the line again and puts the cursor back, but not the view: the scroll
      that move_cursor_down may have added stays. */
  lemma {:induction false} BackspaceUndoesLinebreak(s: State, height: int)
    requires Valid(s)
    ensures Backspace(Linebreak(s, height)) == s.(scroll := Linebreak(s, height).scroll)
    ensures Linebreak(s, height).scroll == s.scroll ==> Backspace(Linebreak(s, height)) == s
  {
    var t := Linebreak(s, height);
    BackspaceUndoesSplit(s.(scroll := t.scroll));
    assert SplitLine(s.(scroll := t.scroll)) == t;
  }

  /** k moves down in a row: k calls of move_cursor_down, a helper for
      ScrollMargin rather than a function of the source. */
  function DownTimes(s: State, height: int, k: nat): (r: State)
    requires Valid(s)
    ensures Valid(r)
    decreases k
  {
    if k == 0 then s else DownTimes(MoveDown(s, height), height, k - 1)
  }

  /** The 5-row margin: moving down one row at a time from a state whose scroll
      already keeps that margin, the scroll stays exactly at cy - height + 5
      (or 0), rising by one row per move once the margin is reached. */
  lemma {:induction false} ScrollMargin(s: State, height: int, k: nat)
    requires Valid(s) && s.scroll == Max(0, s.cy - height + 5) && s.cy + k < |s.buf|
    ensures DownTimes(s, height, k).cy == s.cy + k
    ensures DownTimes(s, height, k).scroll == Max(0, s.cy + k - height + 5)
    decreases k
  {
    if k > 0 {
      ScrollMargin(MoveDown(s, height), height, k - 1);
    }
  }

  /** A viewport of 10 rows over 30 lines: after 20 moves down from the top the
      view has scrolled by exactly 20 - 10 + 5 = 15 rows. */
  lemma ScrollMarginExample(buf: seq<string>)
    requires |buf| == 30
    ensures DownTimes(State(buf, 0, 0, 0), 10, 20).cy == 20
    ensures DownTimes(State(buf, 0, 0, 0), 10, 20).scroll == 15
  {
    ScrollMargin(State(buf, 0, 0, 0), 10, 20);
  }

  /** Word motion on "foo  bar" from column 0: the end of "foo", the end of the
      blanks, the end of "bar". */
  lemma WordMotionExample()
    ensures AlnumRight("foo  bar", 0) == 3
    ensures AlnumRight("foo  bar", 3) == 5
    ensures AlnumRight("foo  bar", 5) == 8
  {
  }

  /** The editing operations never put a newline into a line, as long as the
      character inserted is not one. */
  lemma EditsKeepNoNewlines(s: State, c: char, height: int)
    requires Valid(s) && NoNewlines(s.buf)
    ensures c != '\n' ==> NoNewlines(InsertChar(s, c).buf)
    ensures NoNewlines(Tab(s).buf)
    ensures NoNewlines(Backspace(s).buf) && NoNewlines(BackspacePlain(s).buf)
    ensures NoNewlines(SplitLine(s).buf) && NoNewlines(Linebreak(s, height).buf)
  {
  }
}
