/** C-level character data as the harness sees it: `char` buffers, NUL
    termination and the signedness of `char`. */
module CStrings {

  /** One C `char`, as the byte value it holds (0..255). */
  type Byte = c: char | c <= '\U{FF}'

  /** A run of C characters (argv entries, file contents, lines of input). */
  type Text = seq<Byte>

  const NUL: Byte := '\0'
  const NEWLINE: Byte := '\n'

  /** The value of a byte read through a signed `char`, as on the targets
      where plain `char` is signed (x86, Apple arm64, Windows); targets whose
      `char` is unsigned are listed under the README's "Left out". */
  function SignedChar(b: Byte): (v: int)
    ensures -128 <= v < 128
    ensures v > 0 <==> '\U{01}' <= b <= '\U{7F}'
  {
    if b as int < 128 then b as int else b as int - 256
  }

  /** The bytes of `s` before the first `stop` (all of `s` when it holds
      none): the longest prefix free of `stop`. */
  function Before(s: Text, stop: Byte): (r: Text)
    ensures r <= s
    ensures stop !in r
    ensures |r| < |s| ==> s[|r|] == stop
  {
    if s == [] || s[0] == stop then [] else [s[0]] + Before(s[1..], stop)
  }

  /** What a consumer of `const char*` sees: the bytes before the first NUL. */
  function CPrefix(s: Text): (r: Text)
    ensures r <= s
    ensures NUL !in r
    ensures |r| < |s| ==> s[|r|] == NUL
  {
    Before(s, NUL)
  }

  /** A terminator written after `t` hides whatever follows it. */
  lemma {:induction false} CPrefixOfTerminated(s: Text, t: Text)
    requires |t| < |s| && s[..|t|] == t && s[|t|] == NUL
    ensures CPrefix(s) == CPrefix(t)
  {
    if t != [] && t[0] != NUL {
      assert s[0] == t[0];
      assert s[1..][..|t[1..]|] == t[1..];
      CPrefixOfTerminated(s[1..], t[1..]);
    }
  }

  /** Text without `stop` is taken whole. */
  lemma {:induction false} BeforeWithout(t: Text, stop: Byte)
    requires stop !in t
    ensures Before(t, stop) == t
  {
    if t != [] {
      assert t[0] != stop && stop !in t[1..];
      BeforeWithout(t[1..], stop);
    }
  }

  /** The first `stop` ends the prefix, whatever follows it. */
  lemma {:induction false} BeforeFirst(t: Text, stop: Byte, rest: Text)
    requires stop !in t
    ensures Before(t + [stop] + rest, stop) == t
  {
    var s := t + [stop] + rest;
    if t == [] {
      assert s[0] == stop;
    } else {
      assert t[0] != stop && stop !in t[1..];
      assert s[0] == t[0] && s[1..] == t[1..] + [stop] + rest;
      BeforeFirst(t[1..], stop, rest);
    }
  }

  /** The first NUL of `s`, at `k`, ends what a `const char*` consumer reads. */
  lemma CPrefixAt(s: Text, k: nat)
    requires k < |s| && s[k] == NUL && NUL !in s[..k]
    ensures CPrefix(s) == s[..k]
  {
    CPrefixOfTerminated(s, s[..k]);
    BeforeWithout(s[..k], NUL);
  }

  /** The bytes of a sequence of chunks, in order. */
  function Concat(chunks: seq<Text>): Text
  {
    if chunks == [] then [] else Concat(chunks[..|chunks| - 1]) + chunks[|chunks| - 1]
  }
}
