// check_serial_input: the serial console's line editor.  Characters arrive
// one per loop pass; printable ones are appended to a 256-byte command
// buffer while room for the terminating NUL is left, backspace removes the
// last one, and a line end hands a non-empty line to the command
// interpreter and empties the buffer.

module SerialLine {
  import opened RpnTypes

  const CMD_BUFFER_SIZE: nat := 256

  datatype Option<T> = None | Some(value: T)

  /** The text the command interpreter sees: the line up to its first NUL, as strlen would. */
  function UpToNul(line: seq<char>): (s: seq<char>)
    ensures |s| <= |line| && s == line[..|s|]
    ensures NoNul(s) && (|s| < |line| ==> line[|s|] == NUL)
  {
    if |line| == 0 || line[0] == NUL then [] else [line[0]] + UpToNul(line[1..])
  }

  /** A string ends at index n when n is its length or the index of its first NUL. */
  lemma {:induction false} UpToFirstNul(line: seq<char>, n: nat)
    requires n <= |line| && NoNul(line[..n]) && (n < |line| ==> line[n] == NUL)
    ensures UpToNul(line) == line[..n]
    decreases n
  {
    if n > 0 {
      assert line[..n][0] == line[0];
      assert line[1..][..n - 1] == line[..n][1..];
      UpToFirstNul(line[1..], n - 1);
      assert line[..n] == [line[0]] + line[1..][..n - 1];
    }
  }

  predicate IsLineEnd(c: int) { c == '\n' as int || c == '\r' as int }

  predicate IsBackspace(c: int) { c == 8 || c == 127 }

  /**
   * One call of check_serial_input on the line typed so far: c is what the
   * non-blocking read returned (negative when nothing arrived).  The result
   * is the new line and the command handed to the interpreter, if any.
   */
  function Feed(line: seq<char>, connected: bool, c: int): (r: (seq<char>, Option<seq<char>>))
    requires c < 256
    ensures !connected || c < 0 ==> r == (line, None)
    ensures r.1.Some? <==> connected && IsLineEnd(c) && |line| > 0
    ensures r.1.Some? ==> r.0 == [] && r.1.value == UpToNul(line)
    ensures |line| < CMD_BUFFER_SIZE ==> |r.0| < CMD_BUFFER_SIZE
    ensures r.1.None? ==> r.0 == line || (|line| > 0 && r.0 == line[..|line| - 1]) || (0 <= c && r.0 == line + [c as char])
    ensures r.1.None? && |r.0| < |line| ==> connected && IsBackspace(c)
    ensures |r.0| > |line| <==> connected && 0 <= c && !IsLineEnd(c) && !IsBackspace(c) && |line| < CMD_BUFFER_SIZE - 1
  {
    if !connected || c < 0 then (line, None)
    else if IsLineEnd(c) then
      if |line| > 0 then ([], Some(UpToNul(line))) else (line, None)
    else if IsBackspace(c) then
      if |line| > 0 then (line[..|line| - 1], None) else (line, None)
    else if |line| < CMD_BUFFER_SIZE - 1 then (line + [c as char], None)
    else (line, None)
  }

  /** An ordinary character followed by a backspace leaves the line as it was, if there was room. */
  lemma TypeThenErase(line: seq<char>, c: int, b: int)
    requires 0 <= c < 256 && !IsLineEnd(c) && !IsBackspace(c) && IsBackspace(b)
    requires |line| < CMD_BUFFER_SIZE - 1
    ensures Feed(Feed(line, true, c).0, true, b).0 == line
  {
    assert (line + [c as char])[..|line|] == line;
  }

  /** A full buffer ignores ordinary characters. */
  lemma FullIgnoresTyping(line: seq<char>, c: int)
    requires 0 <= c < 256 && !IsLineEnd(c) && !IsBackspace(c)
    requires |line| == CMD_BUFFER_SIZE - 1
    ensures Feed(line, true, c) == (line, None)
  {
  }

  /** The line after feeding every character of cs in turn, with the console connected. */
  function FeedAll(line: seq<char>, cs: seq<int>): seq<char>
    requires forall i :: 0 <= i < |cs| ==> cs[i] < 256
    decreases |cs|
  {
    if |cs| == 0 then line else FeedAll(Feed(line, true, cs[0]).0, cs[1..])
  }

  /** Characters that are neither line ends nor backspaces. */
  predicate Ordinary(cs: seq<int>) {
    forall i :: 0 <= i < |cs| ==> 0 <= cs[i] < 256 && !IsLineEnd(cs[i]) && !IsBackspace(cs[i])
  }

  function Chars(cs: seq<int>): (s: seq<char>)
    requires forall i :: 0 <= i < |cs| ==> 0 <= cs[i] < 256
    ensures |s| == |cs| && forall i :: 0 <= i < |cs| ==> s[i] as int == cs[i]
  {
    seq(|cs|, i requires 0 <= i < |cs| => cs[i] as char)
  }

  /** Typing ordinary characters that fit appends them to the line. */
  lemma {:induction false} TypingAppends(line: seq<char>, cs: seq<int>)
    requires Ordinary(cs) && |line| + |cs| < CMD_BUFFER_SIZE
    ensures FeedAll(line, cs) == line + Chars(cs)
    decreases |cs|
  {
    if |cs| > 0 {
      var line' := line + [cs[0] as char];
      TypingAppends(line', cs[1..]);
      assert line' + Chars(cs[1..]) == line + Chars(cs);
    }
  }

  /**
   * Typing a line of at most 255 ordinary characters on an empty buffer and
   * then a line end dispatches that line (up to a NUL typed into it) and
   * leaves the buffer empty.
   */
  lemma TypedLineDispatched(cs: seq<int>, eol: int)
    requires Ordinary(cs) && 0 < |cs| < CMD_BUFFER_SIZE && IsLineEnd(eol)
    ensures Feed(FeedAll([], cs), true, eol) == ([], Some(UpToNul(Chars(cs))))
  {
    TypingAppends([], cs);
    assert [] + Chars(cs) == Chars(cs);
  }

  /** cmd_buffer and cmd_pos. */
  class Console {
    const cmdBuffer: array<char>
    var cmdPos: nat

    ghost predicate Valid()
      reads this
    {
      cmdBuffer.Length == CMD_BUFFER_SIZE && cmdPos < CMD_BUFFER_SIZE
    }

    /** The line typed so far. */
    ghost function Line(): seq<char>
      reads this, cmdBuffer
      requires Valid()
    {
      cmdBuffer[..cmdPos]
    }

    constructor()
      ensures Valid() && Line() == [] && fresh(cmdBuffer)
    {
      cmdBuffer := new char[CMD_BUFFER_SIZE](_ => NUL);
      cmdPos := 0;
    }

    /** check_serial_input; the command handed to process_command is returned. */
    method Poll(connected: bool, c: int) returns (cmd: Option<seq<char>>)
      requires Valid() && c < 256
      modifies this, cmdBuffer
      ensures Valid()
      ensures (Line(), cmd) == Feed(old(Line()), connected, c)
    {
      ghost var line0 := Line();
      cmd := None;
      if connected {
        if c >= 0 {
          if c == '\n' as int || c == '\r' as int {
            if cmdPos > 0 {
              cmdBuffer[cmdPos] := NUL;
              assert cmdBuffer[..cmdPos] == line0;
              var line := StrLen();
              cmd := Some(line);
              cmdPos := 0;
            }
          } else if c == 8 || c == 127 {
            if cmdPos > 0 {
              cmdPos := cmdPos - 1;
              assert Line() == line0[..cmdPos];
            }
          } else if cmdPos < CMD_BUFFER_SIZE - 1 {
            cmdBuffer[cmdPos] := c as char;
            cmdPos := cmdPos + 1;
            assert Line() == line0 + [c as char];
          }
        }
      }
    }

    /** The NUL-terminated string at the start of the buffer, as process_command reads it. */
    method StrLen() returns (s: seq<char>)
      requires Valid() && cmdBuffer[cmdPos] == NUL
      ensures s == UpToNul(cmdBuffer[..cmdPos])
    {
      var n := 0;
      while cmdBuffer[n] != NUL
        invariant n <= cmdPos && forall k :: 0 <= k < n ==> cmdBuffer[k] != NUL
        decreases cmdPos - n
      {
        n := n + 1;
      }
      s := cmdBuffer[..n];
      UpToFirstNul(cmdBuffer[..cmdPos], n);
    }
  }
}
