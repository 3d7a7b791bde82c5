/**
 * Text helpers shared by the three editor copies: the load/save conversion
 * between file contents and the list of lines (str.split / str.join on
 * newline), and the ASCII reading of Python's character classes.
 */
module Text {

  /** str.isalpha restricted to ASCII: a letter, so never a digit, the
      underscore or white space. */
  predicate IsAlpha(c: char)
    ensures IsAlpha(c) ==> !IsDigit(c) && c != '_' && c != ' ' && c != '\t' && c != '\n'
  {
    'a' <= c <= 'z' || 'A' <= c <= 'Z'
  }

  predicate IsDigit(c: char) { '0' <= c <= '9' }

  /** str.isalnum restricted to ASCII: punctuation, the underscore and white
      space are the other class word motion stops on. */
  predicate IsAlnum(c: char)
    ensures IsAlnum(c) ==> c != '_' && c != ' ' && c != '\t' && c != '\n' && c as int < 128
  {
    IsAlpha(c) || IsDigit(c)
  }

  /** Number of occurrences of c in s. */
  function Count(s: string, c: char): nat
  {
    if |s| == 0 then 0 else (if s[0] == c then 1 else 0) + Count(s[1..], c)
  }

  /** contents.split("\n"): one line per newline-separated field, the last one possibly empty. */
  function Split(s: string): (lines: seq<string>)
    ensures |lines| == Count(s, '\n') + 1
    ensures forall i :: 0 <= i < |lines| ==> '\n' !in lines[i]
    decreases |s|
  {
    if |s| == 0 then [""]
    else
      var rest := Split(s[1..]);
      if s[0] == '\n' then [""] + rest
      else [[s[0]] + rest[0]] + rest[1..]
  }

  /** Counting distributes over concatenation. */
  lemma {:induction false} CountAppend(a: string, b: string, c: char)
    ensures Count(a + b, c) == Count(a, c) + Count(b, c)
    decreases |a|
  {
    if |a| > 0 {
      assert (a + b)[0] == a[0] && (a + b)[1..] == a[1..] + b;
      CountAppend(a[1..], b, c);
    } else {
      assert a + b == b;
    }
  }

  /** "\n".join(lines): one newline between each two lines, so the text holds
      one newline fewer than there are lines when no line holds one. */
  function Join(lines: seq<string>): (r: string)
    ensures |lines| >= 1 && (forall i :: 0 <= i < |lines| ==> '\n' !in lines[i]) ==>
              Count(r, '\n') == |lines| - 1
  {
    if |lines| == 0 then ""
    else if |lines| == 1 then CountNone(lines[0], '\n'); lines[0]
    else
      var rest := Join(lines[1..]);
      CountAppend(lines[0] + "\n", rest, '\n');
      CountAppend(lines[0], "\n", '\n');
      CountNone(lines[0], '\n');
      lines[0] + "\n" + rest
  }

  /** A string without c counts no c. */
  lemma {:induction false} CountNone(s: string, c: char)
    ensures c !in s ==> Count(s, c) == 0
    decreases |s|
  {
    if |s| > 0 {
      CountNone(s[1..], c);
      assert c !in s ==> c !in s[1..];
    }
  }

  lemma JoinConsFirst(c: char, lines: seq<string>)
    requires |lines| >= 1
    ensures Join([[c] + lines[0]] + lines[1..]) == [c] + Join(lines)
  {
    var l := [[c] + lines[0]] + lines[1..];
    if |lines| > 1 {
      assert l[1..] == lines[1..];
    }
  }

  /** Saving what was loaded gives back the file contents exactly. */
  lemma {:induction false} JoinSplit(s: string)
    ensures Join(Split(s)) == s
    decreases |s|
  {
    if |s| > 0 {
      var rest := Split(s[1..]);
      JoinSplit(s[1..]);
      if s[0] == '\n' {
        assert ([""] + rest)[1..] == rest;
        assert s == [s[0]] + s[1..];
      } else {
        JoinConsFirst(s[0], rest);
        assert s == [s[0]] + s[1..];
      }
    }
  }

  /** Splitting text whose first part a holds no newline extends the first line by a. */
  lemma {:induction false} SplitAppend(a: string, t: string)
    requires '\n' !in a
    ensures Split(a + t) == [a + Split(t)[0]] + Split(t)[1..]
    decreases |a|
  {
    if |a| == 0 {
      var st := Split(t);
      assert a + t == t && a + st[0] == st[0];
      assert st == [st[0]] + st[1..];
    } else {
      var st := Split(t);
      assert (a + t)[0] == a[0] && (a + t)[1..] == a[1..] + t;
      SplitAppend(a[1..], t);
      var r := Split(a[1..] + t);
      assert r == [a[1..] + st[0]] + st[1..];
      assert Split(a + t) == [[a[0]] + r[0]] + r[1..];
      assert [a[0]] + (a[1..] + st[0]) == a + st[0];
    }
  }

  /** Loading what was saved gives back the lines, when none of them holds a newline. */
  lemma {:induction false} SplitJoin(lines: seq<string>)
    requires |lines| >= 1
    requires forall i :: 0 <= i < |lines| ==> '\n' !in lines[i]
    ensures Split(Join(lines)) == lines
    decreases |lines|
  {
    if |lines| == 1 {
      SplitAppend(lines[0], "");
      assert lines[0] + "" == lines[0];
    } else {
      var rest := lines[1..];
      SplitJoin(rest);
      assert Join(lines) == lines[0] + ("\n" + Join(rest));
      var t := "\n" + Join(rest);
      SplitAppend(lines[0], t);
      assert t[0] == '\n' && t[1..] == Join(rest);
      assert Split(t) == [""] + rest;
      assert lines[0] + "" == lines[0];
      assert lines == [lines[0]] + rest;
    }
  }
}
