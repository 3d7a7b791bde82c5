/**
 * The key decoder of edit/terminal.py: `read` turns the bytes of one key
 * press into one key name, branching byte by byte on ESC, on the CSI
 * introducer ESC '[' (ECMA-48 section 5.4) and on xterm's "1;<modifier>"
 * parameters. Decode is the decoder as a function of the bytes available;
 * Read is the decoder as the source runs it, one read from the stream at a
 * time, and is proved to return what Decode says and to consume exactly the
 * bytes Decode counts.
 */
module EditTerminal {
  import opened Wrappers
  import opened Input

  /** isascii on a single character: printable ASCII, newline or tab. It
      excludes DEL, ESC and every byte of the control-key table, so read's
      first test never shadows a later one. */
  predicate IsAscii(c: char)
    ensures IsAscii(c) ==> c != '\U{7F}' && c != '\U{1B}' && CtrlName(c).None?
  {
    32 <= c as int <= 126 || c == '\n' || c == '\t'
  }

  /** The table of control bytes that read names "CTRL_<letter>". */
  function CtrlName(c: char): (r: Option<string>)
    ensures r.Some? <==> 0x01 <= c as int <= 0x19 && c !in {'\U{03}', '\t', '\n', '\r'}
    ensures r.Some? ==> r.value == "CTRL_" + [(c as int + 64) as char]
  {
    if c == '\U{01}' then Some("CTRL_A")
    else if c == '\U{02}' then Some("CTRL_B")
    else if c == '\U{04}' then Some("CTRL_D")
    else if c == '\U{05}' then Some("CTRL_E")
    else if c == '\U{06}' then Some("CTRL_F")
    else if c == '\U{07}' then Some("CTRL_G")
    else if c == '\U{08}' then Some("CTRL_H")
    else if c == '\U{0B}' then Some("CTRL_K")
    else if c == '\U{0C}' then Some("CTRL_L")
    else if c == '\U{0E}' then Some("CTRL_N")
    else if c == '\U{0F}' then Some("CTRL_O")
    else if c == '\U{10}' then Some("CTRL_P")
    else if c == '\U{11}' then Some("CTRL_Q")
    else if c == '\U{12}' then Some("CTRL_R")
    else if c == '\U{13}' then Some("CTRL_S")
    else if c == '\U{14}' then Some("CTRL_T")
    else if c == '\U{15}' then Some("CTRL_U")
    else if c == '\U{16}' then Some("CTRL_V")
    else if c == '\U{17}' then Some("CTRL_W")
    else if c == '\U{18}' then Some("CTRL_X")
    else if c == '\U{19}' then Some("CTRL_Y")
    else None
  }

  /** Final bytes A-D of a cursor key and the arrow they name. */
  function ArrowName(c: char): (r: Option<string>)
    ensures r.Some? <==> 'A' <= c <= 'D'
    ensures r.Some? ==> r.value == ["UP_ARROW", "DOWN_ARROW", "RIGHT_ARROW", "LEFT_ARROW"][c as int - 'A' as int]
  {
    if c == 'A' then Some("UP_ARROW")
    else if c == 'B' then Some("DOWN_ARROW")
    else if c == 'C' then Some("RIGHT_ARROW")
    else if c == 'D' then Some("LEFT_ARROW")
    else None
  }

  /** The three modifier tests on "ESC [ 1 ;", in source order: 2 is shift, 3 alt, 5 ctrl. */
  function ModDigit(stage: nat): char
    requires stage < 3
  {
    if stage == 0 then '2' else if stage == 1 then '3' else '5'
  }

  function ModPrefix(stage: nat): string
    requires stage < 3
  {
    if stage == 0 then "SHIFT_" else if stage == 1 then "ALT_" else "CTRL_"
  }

  /** The modifier part after "ESC [ 1 ;": s[n - 1] is the byte read last. The
      three tests are separate `if`s, not an `elif` chain, so a byte that
      fails one test's final-letter check goes on to the next test. */
  function DecodeModifier(s: string, n: nat, stage: nat): (r: Decoded)
    requires 1 <= n <= |s| && stage <= 3
    ensures r.Key? ==> n <= r.consumed <= |s| && r.consumed <= n + 3 - stage
    ensures r.Key? && |r.name| == 1 ==> r.name == [s[r.consumed - 1]]
    ensures r.Blocked? ==> |s| < n + 3 - stage
    decreases 3 - stage
  {
    if stage == 3 then Key([s[n - 1]], n)
    else if s[n - 1] != ModDigit(stage) then DecodeModifier(s, n, stage + 1)
    else if |s| == n then Blocked
    else match ArrowName(s[n])
      case Some(a) => Key(ModPrefix(stage) + a, n + 1)
      case None => DecodeModifier(s, n + 1, stage + 1)
  }

  /** After ESC '[' (s[0], s[1]). */
  function DecodeCsi(s: string): (r: Decoded)
    requires |s| >= 2
    ensures r.Key? ==> 3 <= r.consumed <= |s| && r.consumed <= 8
    ensures r.Key? && |r.name| == 1 ==> r.name == [s[r.consumed - 1]]
    ensures r.Blocked? ==> |s| < 8
  {
    if |s| < 3 then Blocked
    else if s[2] == '1' then
      if |s| < 4 then Blocked
      else if s[3] == ';' then (if |s| < 5 then Blocked else DecodeModifier(s, 5, 0))
      else Key([s[3]], 4)
    else if s[2] == '5' then
      if |s| < 4 then Blocked else if s[3] == '~' then Key("PG_UP", 4) else Key([s[3]], 4)
    else if s[2] == '6' then
      if |s| < 4 then Blocked else if s[3] == '~' then Key("PG_DOWN", 4) else Key([s[3]], 4)
    else if ArrowName(s[2]).Some? then Key(ArrowName(s[2]).value, 3)
    else if s[2] == 'H' then Key("HOME", 3)
    else if s[2] == 'F' then Key("END", 3)
    else if s[2] == 'Z' then Key("SHIFT_TAB", 3)
    else Key([s[2]], 3)
  }

  /** After ESC (s[0]). */
  function DecodeEscape(s: string): (r: Decoded)
    requires |s| >= 1
    ensures r.Key? ==> 2 <= r.consumed <= |s| && r.consumed <= 8
    ensures r.Key? && |r.name| == 1 ==> r.name == [s[r.consumed - 1]]
    ensures r.Blocked? ==> |s| < 8
  {
    if |s| < 2 then Blocked
    else if s[1] == '\t' then Key("ALT_TAB", 2)
    else if s[1] == '[' then DecodeCsi(s)
    else if IsAscii(s[1]) then Key("ALT_" + [s[1]], 2)
    else Key([s[1]], 2)
  }

  /** read: the key name for the bytes s, and how many of them it consumes.
      Every name of one character is the byte read last; FallbackKeys shows
      the other direction, that a byte or sequence the decoder does not
      recognise comes back as that byte and not as some other value. */
  function Decode(s: string): (r: Decoded)
    ensures r.Key? ==> 1 <= r.consumed <= |s| && r.consumed <= 8
    ensures r.Key? && |r.name| == 1 ==> r.name == [s[r.consumed - 1]]
    ensures r.Blocked? ==> |s| < 8
  {
    if |s| == 0 then Blocked
    else if IsAscii(s[0]) && s[0] != '\t' then Key([s[0]], 1)
    else if s[0] == '\t' then Key("TAB", 1)
    else if s[0] == '\U{7F}' then Key("BACKSPACE", 1)
    else if CtrlName(s[0]).Some? then Key(CtrlName(s[0]).value, 1)
    else if s[0] == '\U{1B}' then DecodeEscape(s)
    else Key([s[0]], 1)
  }

  // ------------------------------------------------- consuming exactly enough

  lemma {:induction false} ModifierAgree(s: string, u: string, n: nat, stage: nat)
    requires 1 <= n <= |s| && n <= |u| && stage <= 3
    requires DecodeModifier(s, n, stage).Key?
    requires DecodeModifier(s, n, stage).consumed <= |u|
    requires forall i :: 0 <= i < DecodeModifier(s, n, stage).consumed ==> s[i] == u[i]
    ensures DecodeModifier(u, n, stage) == DecodeModifier(s, n, stage)
    decreases 3 - stage
  {
    if stage < 3 {
      if s[n - 1] != ModDigit(stage) {
        ModifierAgree(s, u, n, stage + 1);
      } else if ArrowName(s[n]).None? {
        ModifierAgree(s, u, n + 1, stage + 1);
      }
    }
  }

  /** The decoder's answer depends only on the bytes it consumes: any input
      that starts with those bytes decodes the same. So read never looks past
      the end of a key, and whatever follows the key is left for the next call. */
  lemma DecodeAgree(s: string, u: string)
    requires Decode(s).Key? && Decode(s).consumed <= |u|
    requires s[..Decode(s).consumed] == u[..Decode(s).consumed]
    ensures Decode(u) == Decode(s)
  {
    var n := Decode(s).consumed;
    assert forall i :: 0 <= i < n ==> s[i] == u[i] by {
      forall i | 0 <= i < n ensures s[i] == u[i] {
        assert s[..n][i] == u[..n][i];
      }
    }
    if s[0] == '\U{1B}' && s[1] == '[' && s[2] == '1' && s[3] == ';' {
      ModifierAgree(s, u, 5, 0);
    }
  }

  lemma {:induction false} ModifierNeedsAll(s: string, n: nat, stage: nat)
    requires 1 <= n <= |s| && stage <= 3
    requires DecodeModifier(s, n, stage).Key? && DecodeModifier(s, n, stage).consumed > n
    ensures DecodeModifier(s[..DecodeModifier(s, n, stage).consumed - 1], n, stage).Blocked?
    decreases 3 - stage
  {
    var m := DecodeModifier(s, n, stage).consumed;
    var u := s[..m - 1];
    if stage < 3 {
      assert u[n - 1] == s[n - 1];
      if s[n - 1] != ModDigit(stage) {
        ModifierNeedsAll(s, n, stage + 1);
      } else if ArrowName(s[n]).None? && m > n + 1 {
        assert u[n] == s[n];
        ModifierNeedsAll(s, n + 1, stage + 1);
        assert s[..m - 1] == u;
      }
    }
  }

  /** The decoder reads every byte it counts: without the last one it would
      still be waiting. Together with DecodeAgree: it consumes exactly the
      bytes of one key, never fewer and never more. */
  lemma DecodeNeedsAll(s: string)
    requires Decode(s).Key?
    ensures Decode(s[..Decode(s).consumed - 1]).Blocked?
  {
    var n := Decode(s).consumed;
    var u := s[..n - 1];
    if s[0] == '\U{1B}' && n >= 2 && s[1] == '[' && n >= 3 && s[2] == '1' && n >= 4 && s[3] == ';' && n > 5 {
      ModifierNeedsAll(s, 5, 0);
      assert forall i :: 0 <= i < 4 ==> u[i] == s[i];
    }
  }

  // ---------------------------------------------------- the keys read decodes

  /** The control-byte table: exactly the bytes 0x01-0x19 other than 0x03,
      0x09 (tab), 0x0A (newline) and 0x0D have a name, and each name carries
      the byte's caret letter. */
  lemma CtrlTable(c: char)
    ensures CtrlName(c).Some? <==> 1 <= c as int <= 25 && c as int !in {3, 9, 10, 13}
    ensures CtrlName(c).Some? ==> CtrlName(c).value == "CTRL_" + [(c as int + 64) as char]
  {
  }

  /** One-byte keys: a printable byte or newline is returned as itself, tab and
      DEL by name, a tabled control byte as CTRL_<letter>, and any other byte
      except ESC (0x00, 0x03, 0x0D, 0x1A, 0x1C-0x1F, 0x80 and up) raw. */
  lemma SingleByteKeys(c: char, rest: string)
    requires c != '\U{1B}'
    ensures Decode([c] + rest).consumed == 1
    ensures (32 <= c as int <= 126 || c == '\n') ==> Decode([c] + rest).name == [c]
    ensures c == '\t' ==> Decode([c] + rest).name == "TAB"
    ensures c == '\U{7F}' ==> Decode([c] + rest).name == "BACKSPACE"
    ensures CtrlName(c).Some? ==> Decode([c] + rest).name == CtrlName(c).value
    ensures !IsAscii(c) && c != '\U{7F}' && CtrlName(c).None? ==> Decode([c] + rest).name == [c]
  {
  }

  /** ESC '[' and one final byte: the cursor keys, Home, End and Shift-Tab, three bytes each. */
  lemma CsiKeys(rest: string)
    ensures Decode("\U{1B}[A" + rest) == Key("UP_ARROW", 3)
    ensures Decode("\U{1B}[B" + rest) == Key("DOWN_ARROW", 3)
    ensures Decode("\U{1B}[C" + rest) == Key("RIGHT_ARROW", 3)
    ensures Decode("\U{1B}[D" + rest) == Key("LEFT_ARROW", 3)
    ensures Decode("\U{1B}[H" + rest) == Key("HOME", 3)
    ensures Decode("\U{1B}[F" + rest) == Key("END", 3)
    ensures Decode("\U{1B}[Z" + rest) == Key("SHIFT_TAB", 3)
  {
  }

  /** "ESC [ 1 ; m X" with modifier m of 2, 3 or 5 and final X of A-D: the
      shifted, alt or ctrl arrow, six bytes. */
  lemma ModifiedArrowKeys(stage: nat, x: char, rest: string)
    requires stage < 3 && ArrowName(x).Some?
    ensures Decode("\U{1B}[1;" + [ModDigit(stage), x] + rest) == Key(ModPrefix(stage) + ArrowName(x).value, 6)
  {
    var s := "\U{1B}[1;" + [ModDigit(stage), x] + rest;
    assert s[0] == '\U{1B}' && s[1] == '[' && s[2] == '1' && s[3] == ';';
    assert s[4] == ModDigit(stage) && s[5] == x;
  }

  /** Ctrl-Right as xterm sends it. */
  lemma CtrlRightArrow(rest: string)
    ensures Decode("\U{1B}[1;5C" + rest) == Key("CTRL_RIGHT_ARROW", 6)
  {
    ModifiedArrowKeys(2, 'C', rest);
    assert "\U{1B}[1;" + [ModDigit(2), 'C'] + rest == "\U{1B}[1;5C" + rest;
  }

  /** Page Up and Page Down: "ESC [ 5 ~" and "ESC [ 6 ~", four bytes. */
  lemma PageKeys(rest: string)
    ensures Decode("\U{1B}[5~" + rest) == Key("PG_UP", 4)
    ensures Decode("\U{1B}[6~" + rest) == Key("PG_DOWN", 4)
  {
  }

  /** ESC and one more byte: Alt-Tab, or Alt with a printable byte or newline. */
  lemma AltKeys(c: char, rest: string)
    ensures Decode("\U{1B}\t" + rest) == Key("ALT_TAB", 2)
    ensures IsAscii(c) && c != '\t' && c != '[' ==> Decode("\U{1B}" + [c] + rest) == Key("ALT_" + [c], 2)
  {
    var s := "\U{1B}" + [c] + rest;
    assert s[0] == '\U{1B}' && s[1] == c;
  }

  /** The fallbacks of read: every sequence it does not recognise comes back
      as the byte it read last, whatever that byte is. After ESC [ an
      unexpected final byte, after ESC [ 1 / 5 / 6 a byte other than ';' or
      '~', after ESC [ 1 ; a modifier other than 2, 3 or 5, after the ctrl
      modifier a byte that is no arrow, and after ESC a byte isascii rejects. */
  lemma FallbackKeys(x: char, rest: string)
    ensures x !in "156ABCDHFZ" ==> Decode("\U{1B}[" + [x] + rest) == Key([x], 3)
    ensures x != ';' ==> Decode("\U{1B}[1" + [x] + rest) == Key([x], 4)
    ensures x != '~' ==> Decode("\U{1B}[5" + [x] + rest) == Key([x], 4)
    ensures x != '~' ==> Decode("\U{1B}[6" + [x] + rest) == Key([x], 4)
    ensures x !in "235" ==> Decode("\U{1B}[1;" + [x] + rest) == Key([x], 5)
    ensures ArrowName(x).None? ==> Decode("\U{1B}[1;5" + [x] + rest) == Key([x], 6)
    ensures !IsAscii(x) && x != '[' ==> Decode("\U{1B}" + [x] + rest) == Key([x], 2)
  {
    var a := "\U{1B}[" + [x] + rest;
    assert a[0] == '\U{1B}' && a[1] == '[' && a[2] == x;
    var b := "\U{1B}[1" + [x] + rest;
    assert b[0] == '\U{1B}' && b[1] == '[' && b[2] == '1' && b[3] == x;
    var c := "\U{1B}[5" + [x] + rest;
    assert c[0] == '\U{1B}' && c[1] == '[' && c[2] == '5' && c[3] == x;
    var d := "\U{1B}[6" + [x] + rest;
    assert d[0] == '\U{1B}' && d[1] == '[' && d[2] == '6' && d[3] == x;
    var e := "\U{1B}[1;" + [x] + rest;
    assert e[0] == '\U{1B}' && e[1] == '[' && e[2] == '1' && e[3] == ';' && e[4] == x;
    var f := "\U{1B}[1;5" + [x] + rest;
    assert f[0] == '\U{1B}' && f[1] == '[' && f[2] == '1' && f[3] == ';' && f[4] == '5' && f[5] == x;
    var g := "\U{1B}" + [x] + rest;
    assert g[0] == '\U{1B}' && g[1] == x;
  }

  /** The fallbacks of the modifier tests after "ESC [ 1 ;": a byte after a
      modifier digit that is neither an arrow letter nor a later modifier
      digit comes back as itself, after one, two or all three tests ran. */
  lemma ModifierFallbackKeys(x: char, rest: string)
    ensures x !in "35ABCD" ==> Decode("\U{1B}[1;2" + [x] + rest) == Key([x], 6)
    ensures x !in "5ABCD" ==> Decode("\U{1B}[1;3" + [x] + rest) == Key([x], 6)
    ensures x !in "5ABCD" ==> Decode("\U{1B}[1;23" + [x] + rest) == Key([x], 7)
    ensures ArrowName(x).None? ==> Decode("\U{1B}[1;25" + [x] + rest) == Key([x], 7)
    ensures ArrowName(x).None? ==> Decode("\U{1B}[1;35" + [x] + rest) == Key([x], 7)
    ensures ArrowName(x).None? ==> Decode("\U{1B}[1;235" + [x] + rest) == Key([x], 8)
  {
    var a := "\U{1B}[1;2" + [x] + rest;
    assert a[..5] == "\U{1B}[1;2" && a[5] == x;
    var b := "\U{1B}[1;3" + [x] + rest;
    assert b[..5] == "\U{1B}[1;3" && b[5] == x;
    var c := "\U{1B}[1;23" + [x] + rest;
    assert c[..6] == "\U{1B}[1;23" && c[6] == x;
    var d := "\U{1B}[1;25" + [x] + rest;
    assert d[..6] == "\U{1B}[1;25" && d[6] == x;
    var e := "\U{1B}[1;35" + [x] + rest;
    assert e[..6] == "\U{1B}[1;35" && e[6] == x;
    var f := "\U{1B}[1;235" + [x] + rest;
    assert f[..7] == "\U{1B}[1;235" && f[7] == x;
  }

  /** Because the modifier tests are separate `if`s, "ESC [ 1 ; 2 3 5 A" runs
      through all three and takes eight bytes, and a final byte that is not a
      letter comes back raw after seven. */
  lemma ModifierFallThrough(rest: string)
    ensures Decode("\U{1B}[1;235A" + rest) == Key("CTRL_UP_ARROW", 8)
    ensures Decode("\U{1B}[1;23x" + rest) == Key("x", 7)
  {
    var s := "\U{1B}[1;235A" + rest;
    assert s[4] == '2' && s[5] == '3' && s[6] == '5' && s[7] == 'A';
    var u := "\U{1B}[1;23x" + rest;
    assert u[4] == '2' && u[5] == '3' && u[6] == 'x';
  }

  // ------------------------------------------------------ read, step by step

  /** read, one sys.stdin.read(1) at a time. None: the stream ran dry while the
      decoder was still waiting for a byte. */
  method Read(stdin: Stream) returns (key: Option<string>)
    requires stdin.Valid()
    modifies stdin`pos
    ensures stdin.Valid()
    ensures Decode(old(stdin.Rest())).Key? ==>
              key == Some(Decode(old(stdin.Rest())).name) &&
              stdin.pos == old(stdin.pos) + Decode(old(stdin.Rest())).consumed
    ensures Decode(old(stdin.Rest())).Blocked? ==> key == None && stdin.pos == |stdin.data|
  {
    ghost var s := stdin.Rest();
    ghost var p := stdin.pos;
    var c := stdin.ReadChar();
    if c.None? {
      return None;
    }
    var k := c.value;
    assert k == s[0];
    if IsAscii(k) && k != '\t' {
      return Some([k]);
    } else if k == '\t' {
      return Some("TAB");
    } else if k == '\U{7F}' {
      return Some("BACKSPACE");
    } else if CtrlName(k).Some? {
      return Some(CtrlName(k).value);
    } else if k == '\U{1B}' {
      c := stdin.ReadChar();
      if c.None? {
        return None;
      }
      k := c.value;
      assert k == s[1];
      if k == '\t' {
        return Some("ALT_TAB");
      } else if k == '[' {
        c := stdin.ReadChar();
        if c.None? {
          return None;
        }
        k := c.value;
        assert k == s[2];
        if k == '1' {
          c := stdin.ReadChar();
          if c.None? {
            return None;
          }
          k := c.value;
          assert k == s[3];
          if k == ';' {
            key := ReadModifier(stdin, s, p);
            return;
          }
        } else if k == '5' {
          c := stdin.ReadChar();
          if c.None? {
            return None;
          }
          k := c.value;
          if k == '~' {
            return Some("PG_UP");
          }
        } else if k == '6' {
          c := stdin.ReadChar();
          if c.None? {
            return None;
          }
          k := c.value;
          if k == '~' {
            return Some("PG_DOWN");
          }
        } else if ArrowName(k).Some? {
          return Some(ArrowName(k).value);
        } else if k == 'H' {
          return Some("HOME");
        } else if k == 'F' {
          return Some("END");
        } else if k == 'Z' {
          return Some("SHIFT_TAB");
        }
      } else if IsAscii(k) {
        return Some("ALT_" + [k]);
      }
    }
    return Some([k]);
  }

  /** Once "ESC [ 1 ;" is there, read is the modifier tests from the fifth byte on. */
  lemma DecodeIsModifier(s: string)
    requires |s| >= 4 && s[0] == '\U{1B}' && s[1] == '[' && s[2] == '1' && s[3] == ';'
    ensures |s| == 4 ==> Decode(s) == Blocked
    ensures |s| >= 5 ==> Decode(s) == DecodeModifier(s, 5, 0)
  {
  }

  /** The three modifier tests of read, after "ESC [ 1 ;" has been consumed.
      The source writes them as three `if`s one after another; the loop below
      runs them in that order, one stage per test (digit 2, 3, then 5). */
  method ReadModifier(stdin: Stream, ghost s: string, ghost p: nat) returns (key: Option<string>)
    requires stdin.Valid() && p + 4 == stdin.pos && s == stdin.data[p..] && |s| >= 4
    requires s[0] == '\U{1B}' && s[1] == '[' && s[2] == '1' && s[3] == ';'
    modifies stdin`pos
    ensures stdin.Valid()
    ensures Decode(s).Key? ==> key == Some(Decode(s).name) && stdin.pos == p + Decode(s).consumed
    ensures Decode(s).Blocked? ==> key == None && stdin.pos == |stdin.data|
  {
    DecodeIsModifier(s);
    var c := stdin.ReadChar();
    if c.None? {
      return None;
    }
    var k := c.value;
    var n: nat := 5;
    for stage := 0 to 3
      invariant stdin.Valid() && stdin.data[p..] == s
      invariant 5 <= n <= 5 + stage && stdin.pos == p + n && n <= |s| && k == s[n - 1]
      invariant DecodeModifier(s, n, stage) == Decode(s)
    {
      if k == ModDigit(stage) {
        c := stdin.ReadChar();
        if c.None? {
          assert |s| == n && Decode(s) == Blocked;
          return None;
        }
        k := c.value;
        n := n + 1;
        if ArrowName(k).Some? {
          assert Decode(s) == Key(ModPrefix(stage) + ArrowName(k).value, n);
          return Some(ModPrefix(stage) + ArrowName(k).value);
        }
      }
    }
    assert Decode(s) == Key([k], n);
    return Some([k]);
  }
}
