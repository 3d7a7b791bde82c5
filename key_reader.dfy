/**
 * readkey of test_file.py and edit.py (the two copies are the same): one
 * byte, or after ESC a fixed number of further bytes of which only some make
 * up the key string returned. "ESC [ X" gives "[X", "ESC [ 1 ; m X" gives
 * ";mX", and "ESC [ 5 ~" / "ESC [ 6 ~" give "[5" / "[6".
 */
module KeyReader {
  import opened Wrappers
  import opened Input

  /** readkey on the bytes available. */
  function Decode(s: string): (r: Decoded)
    ensures r.Key? ==> 1 <= r.consumed <= |s| && r.consumed <= 6 && 1 <= |r.name| <= 3 && |r.name| <= r.consumed
    ensures r.Key? && r.consumed != 4 ==> r.name == s[r.consumed - |r.name|..r.consumed]
    ensures r.Key? && r.consumed == 4 ==> r.name == s[1..3] && (r.name == "[5" || r.name == "[6")
    ensures r.Key? ==> r.consumed in {1, 3, 4, 6}
    ensures r.Key? ==> (s[0] != '\U{1B}' <==> r.consumed == 1)
    ensures r.Key? && r.consumed == 6 ==> r.name == s[3..6] && s[1..3] == "[1"
    ensures r.Key? && r.consumed == 3 ==> r.name == s[1..3] && s[1..3] !in {"[1", "[5", "[6"}
    ensures r.Blocked? ==> |s| < 6
  {
    if |s| == 0 then Blocked
    else if s[0] != '\U{1B}' then Key(s[..1], 1)
    else if |s| < 3 then Blocked
    else if s[1..3] == "[1" then (if |s| < 6 then Blocked else Key(s[3..6], 6))
    else if s[1..3] == "[5" || s[1..3] == "[6" then (if |s| < 4 then Blocked else Key(s[1..3], 4))
    else Key(s[1..3], 3)
  }

  /** readkey looks at nothing past the bytes it consumes: any input that
      starts with them gives the same key. */
  lemma DecodeAgree(s: string, u: string)
    requires Decode(s).Key? && Decode(s).consumed <= |u|
    requires s[..Decode(s).consumed] == u[..Decode(s).consumed]
    ensures Decode(u) == Decode(s)
  {
    var n := Decode(s).consumed;
    assert forall i :: 0 <= i < n ==> s[i] == u[i] by {
      forall i | 0 <= i < n ensures s[i] == u[i] {
        assert s[..n][i] == u[..n][i];
      }
    }
    if n >= 3 {
      assert s[1..3] == u[1..3];
    }
    if n == 6 {
      assert s[3..6] == u[3..6];
    }
  }

  /** readkey waits for every byte it consumes, the discarded fourth byte of
      Page Up and Page Down included. */
  lemma DecodeNeedsAll(s: string)
    requires Decode(s).Key?
    ensures Decode(s[..Decode(s).consumed - 1]).Blocked?
  {
    var n := Decode(s).consumed;
    var u := s[..n - 1];
    if n >= 3 {
      assert u[0] == s[0];
    }
    if n >= 4 {
      assert u[1..3] == s[1..3];
    }
  }

  /** The key strings a terminal's usual sequences turn into. */
  lemma KeyStrings(c: char, x: char, m: char, rest: string)
    ensures c != '\U{1B}' ==> Decode([c] + rest) == Key([c], 1)
    ensures x != '1' && x != '5' && x != '6' ==> Decode("\U{1B}[" + [x] + rest) == Key(['[', x], 3)
    ensures Decode("\U{1B}[1;" + [m, x] + rest) == Key([';', m, x], 6)
    ensures Decode("\U{1B}[5~" + rest) == Key("[5", 4)
    ensures Decode("\U{1B}[6~" + rest) == Key("[6", 4)
  {
    var a := [c] + rest;
    assert a[0] == c && a[..1] == [c];
    var b := "\U{1B}[" + [x] + rest;
    assert b[0] == '\U{1B}' && b[1..3] == ['[', x];
    var d := "\U{1B}[1;" + [m, x] + rest;
    assert d[0] == '\U{1B}' && d[1..3] == "[1" && d[3..6] == [';', m, x];
    var e := "\U{1B}[5~" + rest;
    assert e[0] == '\U{1B}' && e[1..3] == "[5";
    var f := "\U{1B}[6~" + rest;
    assert f[0] == '\U{1B}' && f[1..3] == "[6";
  }

  /** readkey as it runs: sys.stdin.read(1), then read(2) after ESC, then
      read(3) or read(1). None: the input ran dry during one of these reads. */
  method ReadKey(stdin: Stream) returns (key: Option<string>)
    requires stdin.Valid()
    modifies stdin`pos
    ensures stdin.Valid()
    ensures Decode(old(stdin.Rest())).Key? ==>
              key == Some(Decode(old(stdin.Rest())).name) &&
              stdin.pos == old(stdin.pos) + Decode(old(stdin.Rest())).consumed
    ensures Decode(old(stdin.Rest())).Blocked? ==> key == None && stdin.pos == |stdin.data|
  {
    ghost var s := stdin.Rest();
    ghost var p := stdin.pos;
    var a := stdin.ReadChar();
    if a.None? {
      assert s == [];
      return None;
    }
    assert a.value == s[0];
    if a.value != '\U{1B}' {
      assert s[..1] == [a.value];
      assert Decode(s) == Key([a.value], 1);
      return Some([a.value]);
    }
    var b := stdin.ReadString(2);
    if b.None? {
      assert |s| < 3 && Decode(s) == Blocked;
      return None;
    }
    assert b.value == s[1..3] && stdin.pos == p + 3;
    if b.value == "[1" {
      var c := stdin.ReadString(3);
      if c.None? {
        assert |s| < 6 && Decode(s) == Blocked;
        return None;
      }
      assert c.value == s[3..6];
      assert Decode(s) == Key(c.value, 6);
      return Some(c.value);
    } else if b.value == "[5" || b.value == "[6" {
      var d := stdin.ReadChar();
      if d.None? {
        assert |s| < 4 && Decode(s) == Blocked;
        return None;
      }
      assert Decode(s) == Key(b.value, 4);
    } else {
      assert Decode(s) == Key(b.value, 3);
    }
    return Some(b.value);
  }
}
