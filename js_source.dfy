/** `jscSource`: a NUL-terminated UTF-8 buffer made into engine source code,
    by a fast path when every byte before the terminator is ASCII. */
module JsSource {
  import opened CStrings

  /** The `SourceCode` the engine is given. `Ascii` is the fast path, whose
      characters are the bytes themselves; `Utf8WithLatin1Fallback` carries
      the bytes handed to `String::fromUTF8WithLatin1Fallback`, whose decoding
      is not part of this model. */
  datatype SourceCode =
    | Ascii(text: Text, name: Text)
    | Utf8WithLatin1Fallback(bytes: Text, name: Text)
  {
    /** The bytes taken from the buffer, on either path. */
    function Bytes(): Text
    {
      if Ascii? then text else bytes
    }
  }

  /** Every byte is a positive signed `char`, that is, in 1..127. */
  predicate AllAscii(t: Text)
  {
    forall j :: 0 <= j < |t| ==> SignedChar(t[j]) > 0
  }

  /** The source made of the C string held in `s`, by the path its bytes take. */
  function Source(s: Text, name: Text): (src: SourceCode)
    ensures src.Bytes() == CPrefix(s) && src.name == name
    ensures src.Ascii? <==> AllAscii(CPrefix(s))
  {
    if AllAscii(CPrefix(s)) then Ascii(CPrefix(s), name) else Utf8WithLatin1Fallback(CPrefix(s), name)
  }

  /** The scan for the end of the ASCII prefix: the index of the first byte
      that is NUL or, read as a signed `char`, negative. */
  method AsciiPrefixLength(s: Text) returns (n: nat)
    requires NUL in s
    ensures n < |s|
    ensures forall j :: 0 <= j < n ==> SignedChar(s[j]) > 0
    ensures SignedChar(s[n]) <= 0
  {
    n := 0;
    while SignedChar(s[n]) > 0
      invariant n < |s| && NUL in s[n..]
      invariant forall j :: 0 <= j < n ==> SignedChar(s[j]) > 0
      decreases |s| - n
    {
      assert s[n] != NUL;
      assert s[n..] == [s[n]] + s[n + 1..];
      n := n + 1;
    }
  }

  /** `strlen(pos)`: the number of bytes from `from` up to the next NUL. */
  method StrLen(s: Text, from: nat) returns (m: nat)
    requires from <= |s| && NUL in s[from..]
    ensures from + m < |s| && s[from + m] == NUL
    ensures NUL !in s[from..from + m]
  {
    m := 0;
    while s[from + m] != NUL
      invariant from + m < |s| && NUL in s[from + m..]
      invariant NUL !in s[from..from + m]
      decreases |s| - from - m
    {
      assert s[from + m..] == [s[from + m]] + s[from + m + 1..];
      assert s[from..from + m + 1] == s[from..from + m] + [s[from + m]];
      m := m + 1;
    }
  }

  /** `jscSource(utf8, filename)`: the bytes before the terminator, on the
      fast path exactly when all of them are ASCII. On the slow path the
      length handed on is the ASCII prefix plus `strlen` of the rest, which
      is the whole C string. */
  method JscSource(s: Text, fileName: Text) returns (src: SourceCode)
    requires NUL in s
    ensures src == Source(s, fileName)
  {
    var asciiLength := AsciiPrefixLength(s);
    if s[asciiLength] == NUL {
      assert NUL !in s[..asciiLength] by {
        forall j | 0 <= j < asciiLength
          ensures s[..asciiLength][j] != NUL
        {
          assert SignedChar(s[j]) > 0;
        }
      }
      CPrefixAt(s, asciiLength);
      return Ascii(s[..asciiLength], fileName);
    }
    assert NUL in s[asciiLength..] by {
      var k :| 0 <= k < |s| && s[k] == NUL;
      assert s[asciiLength..][k - asciiLength] == NUL;
    }
    var rest := StrLen(s, asciiLength);
    var length := asciiLength + rest;
    assert NUL !in s[..length] by {
      forall j | 0 <= j < length
        ensures s[..length][j] != NUL
      {
        if j < asciiLength {
          assert SignedChar(s[j]) > 0;
        } else {
          assert s[j] == s[asciiLength..length][j - asciiLength];
        }
      }
    }
    CPrefixAt(s, length);
    assert !AllAscii(CPrefix(s)) by {
      assert CPrefix(s)[asciiLength] == s[asciiLength];
    }
    return Utf8WithLatin1Fallback(s[..length], fileName);
  }

  /** A buffer stops being read at its first NUL: two buffers that agree up
      to a terminator give the same source. */
  lemma SourceOfTerminated(s: Text, t: Text, name: Text)
    requires |t| < |s| && s[..|t|] == t && s[|t|] == NUL
    ensures Source(s, name) == Source(t, name)
  {
    CPrefixOfTerminated(s, t);
  }
}
