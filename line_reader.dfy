/** Reading one line from standard input with `getchar`, as `readline()`
    and the interactive loop without GNU readline both do. */
module LineReader {
  import opened CStrings

  /** `getchar`'s end-of-file result. */
  const EOF: int := -1

  /** Standard input: the bytes not read yet. */
  class Stdin {
    var pending: Text

    constructor (input: Text)
      ensures pending == input
    {
      pending := input;
    }

    /** `getchar()`: the next byte as an `unsigned char` value, or `EOF`. */
    method GetChar() returns (c: int)
      modifies this
      ensures old(pending) == [] ==> c == EOF && pending == []
      ensures old(pending) != [] ==> c == old(pending)[0] as int && pending == old(pending)[1..]
    {
      if pending == [] {
        return EOF;
      }
      c := pending[0] as int;
      pending := pending[1..];
    }
  }

  /** The line at the head of `s`: the bytes before the first newline. */
  function LineOf(s: Text): (line: Text)
    ensures line <= s && NEWLINE !in line
    ensures |line| < |s| ==> s[|line|] == NEWLINE
  {
    Before(s, NEWLINE)
  }

  /** What is left of `s` once its line and that line's newline are read. */
  function AfterLine(s: Text): (rest: Text)
    ensures s != [] ==> |rest| < |s|
    ensures |rest| <= |s| && rest == s[|s| - |rest|..]
  {
    if s == [] then []
    else if s[0] == NEWLINE then s[1..]
    else AfterLine(s[1..])
  }

  /** Reading a line splits the input into the line, the newline that ended
      it (absent at end of input) and the rest, and loses nothing. */
  lemma {:induction false} LineSplit(s: Text)
    ensures s == LineOf(s) + (if |LineOf(s)| < |s| then [NEWLINE] else []) + AfterLine(s)
  {
    if s != [] && s[0] != NEWLINE {
      LineSplit(s[1..]);
      assert LineOf(s) == [s[0]] + LineOf(s[1..]);
    }
  }

  /** The `getchar` loop that collects a line: it stops at a newline or at
      the end of input, consumes the newline and does not keep it. */
  method CollectLine(input: Stdin) returns (line: Text)
    modifies input
    ensures line == LineOf(old(input.pending))
    ensures input.pending == AfterLine(old(input.pending))
  {
    ghost var s := input.pending;
    line := [];
    while true
      invariant s == line + input.pending && NEWLINE !in line
      decreases |input.pending|
    {
      var c := input.GetChar();
      if c == EOF {
        assert s == line;
        LastLine(line);
        break;
      }
      if c == NEWLINE as int {
        assert s == line + [NEWLINE] + input.pending;
        EndedLine(line, input.pending);
        break;
      }
      line := line + [c as char];
    }
  }

  /** Input without a newline is one last line. */
  lemma {:induction false} LastLine(t: Text)
    requires NEWLINE !in t
    ensures LineOf(t) == t && AfterLine(t) == []
  {
    BeforeWithout(t, NEWLINE);
    if t != [] {
      assert t[0] != NEWLINE && NEWLINE !in t[1..];
      LastLine(t[1..]);
    }
  }

  /** The first newline ends the line. */
  lemma {:induction false} EndedLine(t: Text, rest: Text)
    requires NEWLINE !in t
    ensures LineOf(t + [NEWLINE] + rest) == t && AfterLine(t + [NEWLINE] + rest) == rest
  {
    BeforeFirst(t, NEWLINE, rest);
    var s := t + [NEWLINE] + rest;
    if t == [] {
      assert s[0] == NEWLINE && s[1..] == rest;
    } else {
      assert t[0] != NEWLINE && NEWLINE !in t[1..];
      assert s[0] == t[0] && s[1..] == t[1..] + [NEWLINE] + rest;
      EndedLine(t[1..], rest);
    }
  }

  /** `functionReadline`: the line read, NUL-terminated and turned into a
      string, so a NUL byte in the input ends the string early. */
  method FunctionReadline(input: Stdin) returns (r: Text)
    modifies input
    ensures r == CPrefix(LineOf(old(input.pending)))
    ensures input.pending == AfterLine(old(input.pending))
  {
    var line := CollectLine(input);
    var buffer := line + [NUL];
    CPrefixOfTerminated(buffer, line);
    r := CPrefix(buffer);
  }
}
