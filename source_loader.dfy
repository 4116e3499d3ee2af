/** `fillBufferWithContentsOfFile`: a script file read into a growable
    `Vector<char>` whose capacity starts at 1024 and doubles whenever the
    data reaches it, then NUL-terminated, with a leading `#!` turned into a
    line comment. */
module SourceLoader {
  import opened CStrings
  import opened Wrappers

  /** The `Vector<char>` buffer: its cells are `data`, its size `data.Length`. */
  class CharVector {
    var data: array<Byte>

    constructor ()
      ensures data.Length == 0 && fresh(data)
    {
      data := new Byte[0];
    }

    /** `Vector::resize(n)`: `n` cells, the first ones kept; the cells added
        when growing hold unspecified bytes. */
    method Resize(n: nat)
      modifies this
      ensures fresh(data) && data.Length == n
      ensures n <= old(data.Length) ==> data[..] == old(data[..n])
      ensures old(data.Length) <= n ==> data[..old(data.Length)] == old(data[..])
    {
      var cells := new Byte[n];
      var keep := if n <= data.Length then n else data.Length;
      forall j | 0 <= j < keep {
        cells[j] := data[j];
      }
      data := cells;
    }
  }

  // ----- Capacity -----

  function Pow2(e: nat): nat
  {
    if e == 0 then 1 else 2 * Pow2(e - 1)
  }

  /** The capacity after `e` doublings of the initial 1024. */
  function Capacity(e: nat): nat
  {
    1024 * Pow2(e)
  }

  /** The smallest capacity of the form 1024 * 2^k that is larger than `n`:
      where the buffer ends up after `n` bytes, as `CapacityForIsSmallest`
      and `ExactCapacity` show. */
  function CapacityFor(n: nat): nat
  {
    if n < 1024 then 1024 else 2 * CapacityFor(n / 2)
  }

  /** `CapacityFor(n)` is one of the capacities, exceeds `n`, and no smaller
      capacity does. */
  lemma {:induction false} CapacityForIsSmallest(n: nat)
    ensures exists e: nat :: CapacityFor(n) == Capacity(e)
    ensures n < CapacityFor(n)
    ensures CapacityFor(n) == 1024 || CapacityFor(n) <= 2 * n
  {
    if n < 1024 {
      assert CapacityFor(n) == Capacity(0);
    } else {
      CapacityForIsSmallest(n / 2);
      var e: nat :| CapacityFor(n / 2) == Capacity(e);
      assert CapacityFor(n) == Capacity(e + 1);
    }
  }

  /** The capacity is determined by the size alone: a capacity `Capacity(e)`
      that exceeds `size` while its half does not is `CapacityFor(size)`. */
  lemma {:induction false} ExactCapacity(e: nat, size: nat)
    requires size < Capacity(e)
    requires e > 0 ==> Capacity(e - 1) <= size
    ensures CapacityFor(size) == Capacity(e)
  {
    if e > 0 {
      assert Capacity(e) == 2 * Capacity(e - 1);
      if e > 1 {
        assert Capacity(e - 1) == 2 * Capacity(e - 2);
      }
      ExactCapacity(e - 1, size / 2);
    }
  }

  // ----- The shebang line -----

  predicate HasShebang(c: Text)
  {
    |c| >= 2 && c[0] == '#' && c[1] == '!'
  }

  /** The loaded bytes with a leading `#!` turned into `//`. */
  function Rewritten(c: Text): Text
  {
    if HasShebang(c) then ['/', '/'] + c[2..] else c
  }

  /** `Rewritten` changes the first two bytes of a file that starts with
      `#!` into `/`, and no other byte of any file. */
  lemma RewrittenChangesOnlyShebang(c: Text)
    ensures |Rewritten(c)| == |c|
    ensures forall j :: 2 <= j < |c| ==> Rewritten(c)[j] == c[j]
    ensures HasShebang(c) ==> Rewritten(c)[0] == '/' && Rewritten(c)[1] == '/'
    ensures !HasShebang(c) ==> Rewritten(c) == c
  {
  }

  /** The shebang test looks at the first two cells of the buffer after
      the terminator was written, so for a file of 0 or 1 byte it
      meets the NUL and fails: it decides exactly `HasShebang` of the
      file's bytes. */
  lemma ShebangTestWithinContent(c: Text, cells: seq<Byte>)
    requires |c| < |cells| && 2 <= |cells|
    requires cells[..|c|] == c && cells[|c|] == NUL
    ensures (cells[0] == '#' && cells[1] == '!') <==> HasShebang(c)
  {
    if |c| >= 2 {
      assert cells[0] == c[0] && cells[1] == c[1];
    } else if |c| == 1 {
      assert cells[0] == c[0];
    }
  }

  // ----- Reading the file -----

  /** The buffer grows when the data reaches its capacity. */
  function Grown(size: nat, cap: nat): nat
  {
    if size == cap then 2 * cap else cap
  }

  /** An open file, as the chunks successive `fread` calls return: each
      chunk fits in the room the buffer has left when it is read. */
  predicate ChunksFit(chunks: seq<Text>, size: nat, cap: nat)
  {
    FitsFrom(chunks, 0, size, cap)
  }

  /** `ChunksFit` for the chunks from index `k` on. */
  predicate FitsFrom(chunks: seq<Text>, k: nat, size: nat, cap: nat)
    decreases |chunks| - k
  {
    k >= |chunks|
    || (size + |chunks[k]| <= cap
        && FitsFrom(chunks, k + 1, size + |chunks[k]|, Grown(size + |chunks[k]|, cap)))
  }

  lemma ConcatSnoc(chunks: seq<Text>, k: nat)
    requires k < |chunks|
    ensures Concat(chunks[..k + 1]) == Concat(chunks[..k]) + chunks[k]
  {
    assert chunks[..k + 1][..k] == chunks[..k];
  }

  /** `fillBufferWithContentsOfFile`: `file` is `None` when `fopen` fails,
      and then the buffer is untouched and the result false. Otherwise the
      buffer holds the file's bytes, rewritten by `Rewritten` and followed by
      a NUL, in a vector of the capacity those bytes lead to. */
  method FillBufferWithContentsOfFile(file: Option<seq<Text>>, buffer: CharVector) returns (ok: bool)
    requires file.Some? ==> ChunksFit(file.value, 0, 1024)
    modifies buffer
    ensures ok <==> file.Some?
    ensures !ok ==> buffer.data == old(buffer.data)
    ensures ok ==> var c := Concat(file.value);
                   buffer.data.Length == CapacityFor(|c|) && |c| < buffer.data.Length
                   && buffer.data[..|c|] == Rewritten(c) && buffer.data[|c|] == NUL
  {
    if file.None? {
      return false;
    }
    ghost var c := Concat(file.value);
    var size;
    ghost var e;
    size, e := ReadChunks(file.value, buffer);
    ExactCapacity(e, size);
    buffer.data[size] := NUL;
    ShebangTestWithinContent(c, buffer.data[..]);
    if buffer.data[0] == '#' && buffer.data[1] == '!' {
      buffer.data[0] := '/';
      buffer.data[1] := '/';
      assert buffer.data[..size] == ['/', '/'] + c[2..];
    }
    return true;
  }

  /** The read loop of `fillBufferWithContentsOfFile`: every chunk is
      appended at `bufferSize`, and the capacity doubles each time the size
      reaches it, so the size stays below the capacity, which is `e`
      doublings of 1024 and more than twice the size only while `e` is 0. */
  method ReadChunks(chunks: seq<Text>, buffer: CharVector) returns (size: nat, ghost e: nat)
    requires ChunksFit(chunks, 0, 1024)
    modifies buffer
    ensures fresh(buffer.data) && buffer.data.Length == Capacity(e)
    ensures size < Capacity(e) && (e > 0 ==> Capacity(e - 1) <= size)
    ensures size == |Concat(chunks)| && buffer.data[..size] == Concat(chunks)
  {
    size := 0;
    var cap: nat := 1024;
    e := 0;
    buffer.Resize(cap);
    var k: nat := 0;
    while k < |chunks|
      invariant k <= |chunks|
      invariant fresh(buffer.data) && buffer.data.Length == cap
      invariant cap == Capacity(e) && size < cap && (e > 0 ==> Capacity(e - 1) <= size)
      invariant buffer.data[..size] == Concat(chunks[..k])
      invariant FitsFrom(chunks, k, size, cap)
    {
      ConcatSnoc(chunks, k);
      // one read into the room left after the bytes read so far
      ReadInto(buffer.data, size, chunks[k]);
      size := size + |chunks[k]|;
      ghost var grown := Grown(size, cap);
      if size == cap {
        cap := cap * 2;
        e := e + 1;
        buffer.Resize(cap);
      }
      assert cap == grown;
      k := k + 1;
    }
    assert chunks[..k] == chunks;
  }

  /** One `fread` into the cells from `at` on. */
  method ReadInto(cells: array<Byte>, at: nat, chunk: Text)
    requires at + |chunk| <= cells.Length
    modifies cells
    ensures cells[..at + |chunk|] == old(cells[..at]) + chunk
  {
    forall j | 0 <= j < |chunk| {
      cells[at + j] := chunk[j];
    }
    assert cells[..at + |chunk|] == old(cells[..at]) + chunk;
  }
}
