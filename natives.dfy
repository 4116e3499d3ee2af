/** The host functions of the shell's global object whose work is a loop
    the harness does itself: `print` and the sampling-flag setters. */
module Natives {
  import opened CStrings

  const SPACE: Byte := ' '

  // ----- print -----

  /** The parts separated by single spaces. */
  function Join(parts: seq<Text>): Text
  {
    if parts == [] then []
    else if |parts| == 1 then parts[0]
    else parts[0] + [SPACE] + Join(parts[1..])
  }

  /** A text cut at every space: the inverse of `Join`, as `SplitJoin` shows. */
  function Split(t: Text): (r: seq<Text>)
    ensures |r| >= 1
    decreases |t|
  {
    var head := Before(t, SPACE);
    if |head| == |t| then [t] else [head] + Split(t[|head| + 1..])
  }

  /** Joining parts that hold no space can be undone: the output of `print`
      determines its arguments' strings. */
  lemma {:induction false} SplitJoin(parts: seq<Text>)
    requires |parts| >= 1
    requires forall j :: 0 <= j < |parts| ==> SPACE !in parts[j]
    ensures Split(Join(parts)) == parts
  {
    if |parts| == 1 {
      BeforeWithout(parts[0], SPACE);
    } else {
      var t := Join(parts);
      BeforeFirst(parts[0], SPACE, Join(parts[1..]));
      assert t[|parts[0]| + 1..] == Join(parts[1..]);
      SplitJoin(parts[1..]);
      assert parts == [parts[0]] + parts[1..];
    }
  }

  /** Joining one more part adds a space and that part. */
  lemma {:induction false} JoinSnoc(parts: seq<Text>, x: Text)
    requires parts != []
    ensures Join(parts + [x]) == Join(parts) + [SPACE] + x
  {
    if |parts| == 1 {
      assert (parts + [x])[1..] == [x];
    } else {
      assert (parts + [x])[1..] == parts[1..] + [x];
      JoinSnoc(parts[1..], x);
    }
  }

  /** What the `%s` conversion writes of each argument's UTF-8 bytes: up to
      the first NUL. */
  function Visible(args: seq<Text>): (r: seq<Text>)
    ensures |r| == |args|
    ensures forall j :: 0 <= j < |args| ==> r[j] == CPrefix(args[j])
  {
    seq(|args|, j requires 0 <= j < |args| => CPrefix(args[j]))
  }

  /** What `%s` writes of an argument is a prefix of it with no NUL, and
      the whole argument when it holds no NUL. */
  lemma VisibleCutsAtNul(args: seq<Text>)
    ensures forall j :: 0 <= j < |args| ==> Visible(args)[j] <= args[j] && NUL !in Visible(args)[j]
    ensures forall j :: 0 <= j < |args| && NUL !in args[j] ==> Visible(args)[j] == args[j]
  {
    forall j | 0 <= j < |args| && NUL !in args[j]
      ensures Visible(args)[j] == args[j]
    {
      BeforeWithout(args[j], NUL);
    }
  }

  /** `functionPrint`: the arguments, each as `%s` shows it, separated by
      single spaces and followed by a newline. */
  method Print(args: seq<Text>) returns (out: Text)
    ensures out == Join(Visible(args)) + [NEWLINE]
  {
    out := [];
    var i := 0;
    while i < |args|
      invariant i <= |args|
      invariant out == Join(Visible(args)[..i])
    {
      if i > 0 {
        out := out + [SPACE];
      }
      out := out + CPrefix(args[i]);
      if i > 0 {
        JoinSnoc(Visible(args)[..i], CPrefix(args[i]));
        assert Visible(args)[..i + 1] == Visible(args)[..i] + [CPrefix(args[i])];
      } else {
        assert Visible(args)[..1] == [CPrefix(args[0])];
      }
      i := i + 1;
    }
    assert Visible(args)[..i] == Visible(args);
    out := out + [NEWLINE];
  }

  // ----- Sampling flags -----

  /** The result of `static_cast<unsigned>` on an argument. */
  type Unsigned = x: int | 0 <= x < 0x1_0000_0000

  /** The flag numbers the sampling tool keeps, one per bit of its word. */
  predicate IsFlag(f: Unsigned)
  {
    1 <= f <= 32
  }

  /** The arguments that pass the range filter, 1 to 32 inclusive. */
  function Accepted(values: seq<Unsigned>): (r: set<Unsigned>)
    ensures forall f :: f in r <==> f in values && IsFlag(f)
  {
    if values == [] then {}
    else
      var last := values[|values| - 1];
      assert values == values[..|values| - 1] + [last];
      Accepted(values[..|values| - 1]) + (if IsFlag(last) then {last} else {})
  }

  /** The set sampling flags. */
  class SamplingFlags {
    var flags: set<Unsigned>

    /** Only flag numbers are ever set. */
    ghost predicate Valid()
      reads this
    {
      forall f :: f in flags ==> IsFlag(f)
    }

    constructor ()
      ensures flags == {} && Valid()
    {
      flags := {};
    }

    /** `functionSetSamplingFlags`: every argument in range is set; the
        others are ignored. */
    method SetSamplingFlags(values: seq<Unsigned>)
      requires Valid()
      modifies this
      ensures Valid()
      ensures flags == old(flags) + Accepted(values)
    {
      var i := 0;
      while i < |values|
        invariant i <= |values| && Valid()
        invariant flags == old(flags) + Accepted(values[..i])
      {
        assert values[..i + 1][..i] == values[..i];
        var flag := values[i];
        if flag >= 1 && flag <= 32 {
          flags := flags + {flag};
        }
        i := i + 1;
      }
      assert values[..i] == values;
    }

    /** `functionClearSamplingFlags`: every argument in range is cleared; the
        others are ignored. */
    method ClearSamplingFlags(values: seq<Unsigned>)
      requires Valid()
      modifies this
      ensures Valid()
      ensures flags == old(flags) - Accepted(values)
    {
      var i := 0;
      while i < |values|
        invariant i <= |values| && Valid()
        invariant flags == old(flags) - Accepted(values[..i])
      {
        assert values[..i + 1][..i] == values[..i];
        var flag := values[i];
        if flag >= 1 && flag <= 32 {
          flags := flags - {flag};
        }
        i := i + 1;
      }
      assert values[..i] == values;
    }
  }
}
