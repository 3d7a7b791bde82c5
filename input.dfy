/**
 * The terminal's input stream as the key decoders see it: the bytes typed so
 * far and a read position. A read that finds no byte left is a read that
 * would block until more input arrives.
 */
module Input {
  import opened Wrappers

  /** What one decoder call produces from the bytes available: the key name it
      returns and how many bytes it consumed, or Blocked when one of its reads
      would wait for a byte that has not arrived yet. */
  datatype Decoded = Key(name: string, consumed: nat) | Blocked

  class Stream {
    const data: string
    var pos: nat

    predicate Valid()
      reads this
    {
      pos <= |data|
    }

    /** The bytes not read yet. */
    function Rest(): string
      reads this
      requires Valid()
    {
      data[pos..]
    }

    constructor (input: string)
      ensures Valid() && data == input && pos == 0
    {
      data := input;
      pos := 0;
    }

    /** sys.stdin.read(1) */
    method ReadChar() returns (c: Option<char>)
      requires Valid()
      modifies this`pos
      ensures Valid()
      ensures old(pos) < |data| ==> c == Some(data[old(pos)]) && pos == old(pos) + 1
      ensures old(pos) == |data| ==> c == None && pos == old(pos)
    {
      if pos < |data| {
        c := Some(data[pos]);
        pos := pos + 1;
      } else {
        c := None;
      }
    }

    /** sys.stdin.read(n): waits until n characters are there; when they never
        come it has taken everything that did. */
    method ReadString(n: nat) returns (s: Option<string>)
      requires Valid()
      modifies this`pos
      ensures Valid()
      ensures old(pos) + n <= |data| ==> s == Some(data[old(pos)..old(pos) + n]) && pos == old(pos) + n
      ensures old(pos) + n > |data| ==> s == None && pos == |data|
    {
      if pos + n <= |data| {
        s := Some(data[pos..pos + n]);
        pos := pos + n;
      } else {
        s := None;
        pos := |data|;
      }
    }
  }
}
