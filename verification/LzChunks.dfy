/**
 How images travel to the device: the host cuts the pixel stream into 256-byte chunks,
 compresses each and puts its size minus 3 in front (libgfx/host-tools/convflashbmp.cpp); the
 device walks the chunks and decompresses each into a 256-byte buffer (libgfx/src/gdi.cpp).
 */
module LzChunks {
  import opened Bytes
  import opened LzFormat
  import opened LzSearch
  import opened LzStream
  import opened LzCoder

  const LINE: nat := 256   // lz_line_size_bytes and max_size
  const DIFF: nat := 3     // lz_sub_size and chunk_diff

  // ---- the bounded decoder ----

  // What lz_uncompress returns and leaves in the buffer; Bad where it reads outside its input.
  datatype Device = Bad | Device(ret: int, buf: seq<byte>)

  function Bounded(s: seq<byte>, m: byte, out: seq<byte>, max: nat): Device
    decreases |s|
  {
    if s == [] then Device(|out|, out)
    else if s[0] != m then
      if |out| >= max then Device(-1, out) else Bounded(s[1..], m, out + [s[0]], max)
    else if |s| == 1 then Bad
    else if s[1] == 0 then
      if |out| >= max then Device(1, out) else Bounded(s[2..], m, out + [m], max)
    else
      var l := ReadVar(s[1..], 0);
      if l.Short? then Bad
      else
        var o := ReadVar(l.rest, 0);
        ReadShorter(s[1..], 0);
        ReadShorter(l.rest, 0);
        if o.Short? then Bad
        else if o.x == 0 || o.x > |out| then Bad
        else if |out| + l.x > max then Device(-1, Copy(out, if |out| <= max then max - |out| else 0, o.x))
        else Bounded(o.rest, m, Copy(out, l.x, o.x), max)
  }

  function DeviceUncompress(z: seq<byte>, max: nat): Device {
    if z == [] then Device(-1, []) else if |z| == 1 then Bad else Bounded(z[1..], z[0], [], max)
  }

  // Within the buffer the device decodes what the host decodes.
  lemma {:induction false} BoundedAgrees(s: seq<byte>, m: byte, out: seq<byte>, max: nat)
    requires Decode(s, m, out).Some? && |Decode(s, m, out).value| <= max
    ensures Bounded(s, m, out, max) == Device(|Decode(s, m, out).value|, Decode(s, m, out).value)
    decreases |s|
  {
    hide Copy, ReadVar;
    DecodeGrows(s, m, out);
    if s == [] {
    } else if s[0] != m {
      DecodeGrows(s[1..], m, out + [s[0]]);
      BoundedAgrees(s[1..], m, out + [s[0]], max);
    } else if s[1] == 0 {
      DecodeGrows(s[2..], m, out + [m]);
      BoundedAgrees(s[2..], m, out + [m], max);
    } else {
      var l := ReadVar(s[1..], 0);
      var o := ReadVar(l.rest, 0);
      ReadShorter(s[1..], 0);
      ReadShorter(l.rest, 0);
      DecodeGrows(o.rest, m, Copy(out, l.x, o.x));
      BoundedAgrees(o.rest, m, Copy(out, l.x, o.x), max);
    }
  }

  // The first token that does not fit is a literal marker.
  predicate MarkerOverflows(ts: seq<Token>, m: byte, n: nat, max: nat) {
    ts != [] && (if n + Width(ts[0]) > max then ts[0] == Lit(m) else MarkerOverflows(ts[1..], m, n + Width(ts[0]), max))
  }

  lemma BoundedLit(b: byte, m: byte, rest: seq<byte>, out: seq<byte>, max: nat)
    ensures Bounded(Emit(Lit(b), m) + rest, m, out, max)
            == if |out| < max then Bounded(rest, m, out + [b], max) else Device(if b == m then 1 else -1, out)
  {
    var s := Emit(Lit(b), m) + rest;
    if b == m { assert s[2..] == rest; } else { assert s[1..] == rest; }
  }

  lemma BoundedRef(len: nat, off: nat, m: byte, rest: seq<byte>, out: seq<byte>, max: nat)
    requires Fits(Ref(len, off), out) && |out| <= max
    ensures Bounded(Emit(Ref(len, off), m) + rest, m, out, max)
            == if |out| + len <= max then Bounded(rest, m, Copy(out, len, off), max) else Device(-1, Copy(out, max - |out|, off))
  {
    hide VarSize, ReadVar, Copy;
    var s := Emit(Ref(len, off), m) + rest;
    FirstByte(len);
    assert s[1..] == VarSize(len) + (VarSize(off) + rest);
    LzFormat.ReadVarSize(len, VarSize(off) + rest);
    LzFormat.ReadVarSize(off, rest);
  }

  lemma {:induction false} CopyMore(out: seq<byte>, a: nat, b: nat, off: nat)
    requires 0 < off <= |out| && a <= b
    ensures Copy(out, b, off)[..|out| + a] == Copy(out, a, off)
    decreases b
  {
    if a == b {
    } else {
      CopyEnd(out, b, off);
      CopyMore(out, a, b - 1, off);
    }
  }

  lemma CopyKeeps(out: seq<byte>, len: nat, off: nat)
    requires 0 < off <= |out|
    ensures Copy(out, len, off)[..|out|] == out
  {
    CopyMore(out, 0, len, off);
  }

  lemma {:induction false} ExpandKeeps(ts: seq<Token>, out: seq<byte>)
    requires Expand(ts, out).Some?
    ensures out <= Expand(ts, out).value
    decreases |ts|
  {
    hide Copy;
    if ts != [] {
      match ts[0]
      case Lit(b) => ExpandKeeps(ts[1..], out + [b]);
      case Ref(len, off) =>
        CopyKeeps(out, len, off);
        ExpandKeeps(ts[1..], Copy(out, len, off));
    }
  }

  // Too much data: the buffer holds what fits, and the device reports an error, except that a
  // marker that does not fit makes it report success with one byte.
  lemma {:induction false} BoundedOverflows(ts: seq<Token>, m: byte, out: seq<byte>, max: nat)
    requires Expand(ts, out).Some? && |out| <= max < |Expand(ts, out).value|
    ensures Bounded(EmitAll(ts, m), m, out, max)
            == Device(if MarkerOverflows(ts, m, |out|, max) then 1 else -1, Expand(ts, out).value[..max])
    decreases |ts|
  {
    hide Bounded, Emit, Copy;
    var rest := EmitAll(ts[1..], m);
    ExpandKeeps(ts, out);
    match ts[0]
    case Lit(b) =>
      BoundedLit(b, m, rest, out, max);
      if |out| < max { BoundedOverflows(ts[1..], m, out + [b], max); }
    case Ref(len, off) =>
      BoundedRef(len, off, m, rest, out, max);
      if |out| + len <= max {
        BoundedOverflows(ts[1..], m, Copy(out, len, off), max);
      } else {
        ExpandKeeps(ts[1..], Copy(out, len, off));
        CopyMore(out, max - |out|, len, off);
      }
  }

  function Ones(n: nat): seq<byte> { seq(n, i => 1) }

  lemma {:induction false} CopyOnes(n: nat, len: nat)
    requires n > 0
    ensures Copy(Ones(n), len, 1) == Ones(n + len)
    decreases len
  {
    if len > 0 {
      assert Ones(n) + [Ones(n)[n - 1]] == Ones(n + 1);
      CopyOnes(n + 1, len - 1);
    }
  }

  const TOO_LONG: seq<byte> := [7, 1, 7, 129, 127, 1, 7, 0]

  // One byte, 255 copies of it, and the marker: 257 bytes for the buffer of 256, and the device
  // reports one byte and no error.
  lemma MarkerOverflowExample()
    ensures Uncompress(TOO_LONG) == Some(Ones(256) + [7]) && DeviceUncompress(TOO_LONG, LINE) == Device(1, Ones(256))
  {
    hide Bounded, Decode;
    var ts := [Lit(1), Ref(255, 1), Lit(7)];
    EmitExample();
    ExpandExample();
    DecodeEmit(ts, 7, []);
    BoundedOverflows(ts, 7, [], LINE);
    assert (Ones(256) + [7])[..256] == Ones(256);
    OverflowExample();
  }

  lemma EmitExample()
    ensures EmitAll([Lit(1), Ref(255, 1), Lit(7)], 7) == TOO_LONG[1..]
  {
    var ts := [Lit(1), Ref(255, 1), Lit(7)];
    assert ts[1..] == [Ref(255, 1), Lit(7)] && ts[1..][1..] == [Lit(7)] && ts[1..][1..][1..] == [];
    assert VarSize(255) == [129, 127];
  }

  lemma ExpandExample()
    ensures Expand([Lit(1), Ref(255, 1), Lit(7)], []) == Some(Ones(256) + [7])
  {
    var ts := [Lit(1), Ref(255, 1), Lit(7)];
    assert ts[1..] == [Ref(255, 1), Lit(7)] && ts[1..][1..] == [Lit(7)] && ts[1..][1..][1..] == [];
    assert [] + [1] == Ones(1);
    CopyOnes(1, 255);
    assert Expand(ts, []) == Expand(ts[1..], Ones(1)) == Expand([Lit(7)], Ones(256));
  }

  lemma OverflowExample()
    ensures MarkerOverflows([Lit(1), Ref(255, 1), Lit(7)], 7, 0, LINE)
  {
    var ts := [Lit(1), Ref(255, 1), Lit(7)];
    assert ts[1..] == [Ref(255, 1), Lit(7)] && ts[1..][1..] == [Lit(7)];
  }

  // ---- the frame ----

  // None when a size does not fit the length byte.
  function Chunk(x: seq<byte>): Option<seq<byte>> {
    var z := Compressed(x, MAX_OFFSET);
    if DIFF <= |z| < DIFF + 256 then Some([|z| - DIFF] + z) else None
  }

  function Line(s: seq<byte>): nat { if |s| < LINE then |s| else LINE }

  function Frame(s: seq<byte>): Option<seq<byte>>
    decreases |s|
  {
    if s == [] then Some([0])
    else
      var c := Chunk(s[..Line(s)]);
      var f := Frame(s[Line(s)..]);
      if c.Some? && f.Some? then Some(c.value + f.value) else None
  }

  // What draw_image makes of an image: a read outside the data, an error, or pixels.
  datatype Draw = Outside | Failed | Drawn(pixels: seq<byte>)

  // The chunk walk of draw_image, with the pixels shown so far.
  function Walk(d: seq<byte>, shown: seq<byte>): Draw
    decreases |d|
  {
    if d == [] then Outside
    else if d[0] == 0 then Drawn(shown)
    else
      var chunk := d[0] + DIFF;
      if 1 + chunk > |d| then Outside
      else
        var u := DeviceUncompress(d[1..1 + chunk], LINE);
        if u.Bad? || u.ret > |u.buf| then Outside
        else if u.ret < 0 then Failed
        else Walk(d[1 + chunk..], shown + u.buf[..u.ret])
  }

  // ---- one chunk ----

  lemma ChunkSize(x: seq<byte>)
    requires 3 <= |x| <= LINE
    ensures DIFF + 1 <= |Compressed(x, MAX_OFFSET)| <= DIFF + 255
  {
    SizeBound(x, MAX_OFFSET);
    NotSmall(x, MAX_OFFSET);
  }

  // One or two bytes are stored as they are, behind the marker.
  lemma TinyChunk(x: seq<byte>)
    requires 1 <= |x| <= 2
    ensures |Compressed(x, MAX_OFFSET)| == |x| + 1
  {
    MarkerRare(x);
    ParseSize(x, 0, MAX_OFFSET, Marker(x));
    ParseNotSmall(x, 0, MAX_OFFSET, Marker(x));
    assert x[0..] == x;
  }

  lemma ChunkDecodes(x: seq<byte>)
    requires 0 < |x| <= LINE
    ensures DeviceUncompress(Compressed(x, MAX_OFFSET), LINE) == Device(|x|, x)
  {
    hide Compressed, Bounded, Decode;
    RoundTrip(x, MAX_OFFSET);
    var z := Compressed(x, MAX_OFFSET);
    NotEmpty(x);
    BoundedAgrees(z[1..], z[0], [], LINE);
  }

  lemma NotEmpty(x: seq<byte>)
    requires x != []
    ensures |Compressed(x, MAX_OFFSET)| > 1
  {
    SomethingEmitted(x, MAX_OFFSET, Marker(x));
  }

  lemma WalkChunk(x: seq<byte>, rest: seq<byte>, shown: seq<byte>)
    requires 3 <= |x| <= LINE
    ensures Chunk(x).Some? && Walk(Chunk(x).value + rest, shown) == Walk(rest, shown + x)
  {
    hide Compressed, DeviceUncompress;
    ChunkSize(x);
    ChunkDecodes(x);
    var z := Compressed(x, MAX_OFFSET);
    var d := Chunk(x).value + rest;
    assert d[1..1 + |z|] == z && d[1 + |z|..] == rest;
    assert x[..|x|] == x;
  }

  // A chunk that decodes to more than a line: drawing fails, unless the first token that does
  // not fit is a marker; then one byte of the chunk is drawn and the walk goes on.
  lemma WalkTooLong(ts: seq<Token>, m: byte, rest: seq<byte>, shown: seq<byte>)
    requires Expand(ts, []).Some? && LINE < |Expand(ts, []).value| && DIFF < 1 + |EmitAll(ts, m)| <= DIFF + 255
    ensures var z := [m] + EmitAll(ts, m);
            Walk([|z| - DIFF] + z + rest, shown)
            == if MarkerOverflows(ts, m, 0, LINE) then Walk(rest, shown + Expand(ts, []).value[..1]) else Failed
  {
    hide Bounded, Expand, EmitAll, MarkerOverflows;
    var z := [m] + EmitAll(ts, m);
    var d := [|z| - DIFF] + z + rest;
    BoundedOverflows(ts, m, [], LINE);
    assert z[1..] == EmitAll(ts, m);
    assert d[1..1 + |z|] == z && d[1 + |z|..] == rest;
    assert Expand(ts, []).value[..LINE][..1] == Expand(ts, []).value[..1];
  }

  // An image of that chunk is drawn as one byte.
  lemma WalkOverflowExample()
    ensures Walk([5] + TOO_LONG + [0], []) == Drawn([1])
  {
    hide Walk;
    EmitExample();
    ExpandExample();
    OverflowExample();
    var ts := [Lit(1), Ref(255, 1), Lit(7)];
    assert [7] + EmitAll(ts, 7) == TOO_LONG;
    WalkTooLong(ts, 7, [0], []);
    assert [] + (Ones(256) + [7])[..1] == [1];
    WalkEnd([1], []);
    assert [0] + [] == [0];
  }

  // ---- the whole stream ----

  predicate Safe(n: nat) { n % LINE != 1 && n % LINE != 2 }

  lemma {:induction false} WalkFrame(s: seq<byte>, shown: seq<byte>)
    requires Safe(|s|)
    ensures Frame(s).Some? && Walk(Frame(s).value, shown) == Drawn(shown + s)
    decreases |s|
  {
    hide Chunk, Walk;
    if s == [] {
      WalkEnd(shown, []);
      assert shown + s == shown && [0] + [] == [0];
    } else {
      var x, y := s[..Line(s)], s[Line(s)..];
      LastLine(|s|);
      WalkFrame(y, shown + x);
      WalkChunk(x, Frame(y).value, shown);
      assert shown + x + y == shown + s;
    }
  }

  lemma WalkEnd(shown: seq<byte>, rest: seq<byte>)
    ensures Walk([0] + rest, shown) == Drawn(shown)
  {
  }

  lemma LastLine(n: nat)
    requires n > 0 && Safe(n)
    ensures n >= 3 && (n >= LINE ==> Safe(n - LINE))
  {
  }

  // A last chunk of one byte has no length byte; one of two bytes looks like the end.
  lemma {:induction false} FrameFails(s: seq<byte>, shown: seq<byte>) returns (r: seq<byte>)
    requires !Safe(|s|)
    ensures Frame(s).Some? ==> Walk(Frame(s).value, shown) == Drawn(shown + r) && |r| < |s|
    decreases |s|
  {
    hide Compressed, Walk;
    r := [];
    var x, y := s[..Line(s)], s[Line(s)..];
    if |s| < LINE {
      TinyChunk(s);
      assert x == s;
      if |s| == 2 && Frame(s).Some? {
        var d := Frame(s).value;
        WalkEnd(shown, d[1..]);
        assert d == [0] + d[1..] && shown + [] == shown;
      }
    } else if Frame(s).Some? {
      var q := FrameFails(y, shown + x);
      WalkChunk(x, Frame(y).value, shown);
      r := x + q;
      assert shown + x + q == shown + r;
    }
  }

  // The device shows exactly the stream if and only if its last chunk has more than two bytes.
  lemma FrameRoundTrip(s: seq<byte>)
    ensures Frame(s).Some? && Walk(Frame(s).value, []) == Drawn(s) <==> |s| % 256 != 1 && |s| % 256 != 2
  {
    hide Frame, Walk;
    if Safe(|s|) {
      WalkFrame(s, []);
      assert [] + s == s;
    } else {
      var x := FrameFails(s, []);
      assert [] + x == x;
    }
  }

  // The length byte of every chunk of a safe stream is one to 255.
  lemma {:induction false} LengthBytes(s: seq<byte>, i: nat)
    requires Safe(|s|) && i * LINE < |s|
    ensures var x := s[i * LINE..i * LINE + Line(s[i * LINE..])];
            1 <= |Compressed(x, MAX_OFFSET)| - DIFF <= 255 && Chunk(x).Some? && Chunk(x).value[0] != 0
  {
    var x := s[i * LINE..i * LINE + Line(s[i * LINE..])];
    ChunkSize(x);
  }

  // ---- the loops ----

  method WriteChunk(x: seq<byte>, past: byte) returns (c: Option<seq<byte>>)
    requires |x| <= LINE
    ensures c == Chunk(x)
  {
    hide Compressed;
    var buf := new byte[|x|](k requires 0 <= k < |x| => x[k]);
    assert buf[..] == x;
    var linec := new byte[2 * LINE];
    var n := Compress(buf, linec, past);
    c := if DIFF <= n < DIFF + 256 then Some([n - DIFF] + linec[..n]) else None;
  }

  // create_raw_bitmap: bytes fill a line buffer, a full or last line is compressed and written.
  method WriteImage(stream: seq<byte>, past: byte) returns (ok: bool, file: seq<byte>)
    ensures ok == Frame(stream).Some? && (ok ==> file == Frame(stream).value)
  {
    hide Frame, Chunk, Prepend;
    ok, file := true, [];
    var line, i := [], 0;
    ghost var done := 0;
    assert stream[0..] == stream;
    Prepended([], Frame(stream));
    while i < |stream|
      invariant done + |line| == i <= |stream| && |line| < LINE && line == stream[done..i] && (|line| > 0 ==> i < |stream|)
      invariant Prepend(ok, file, Frame(stream[done..])) == Frame(stream)
    {
      line, i := line + [stream[i]], i + 1;
      assert line == stream[done..i];
      if |line| == LINE || i == |stream| {
        var c := WriteChunk(line, past);
        assert stream[done..] == line + stream[i..];
        FrameStep(line, stream[i..]);
        Chained(ok, file, c, Frame(stream[i..]));
        if c.Some? { file := file + c.value; } else { ok := false; Lost(file, Frame(stream[i..])); }
        line := [];
        done := i;
      }
    }
    assert stream[done..] == [];
    FrameEnd();
    Finish(ok, file);
    file := file + [0];
  }

  lemma Lost(file: seq<byte>, f: Option<seq<byte>>)
    ensures Prepend(false, file, f) == None
  {
  }

  lemma Finish(ok: bool, file: seq<byte>)
    ensures Prepend(ok, file, Some([0])) == if ok then Some(file + [0]) else None
  {
  }

  function Prepend(ok: bool, file: seq<byte>, f: Option<seq<byte>>): Option<seq<byte>> {
    if ok && f.Some? then Some(file + f.value) else None
  }

  lemma Prepended(file: seq<byte>, f: Option<seq<byte>>)
    requires file == []
    ensures Prepend(true, file, f) == f
  {
    if f.Some? { assert file + f.value == f.value; }
  }

  lemma Chained(ok: bool, file: seq<byte>, c: Option<seq<byte>>, f: Option<seq<byte>>)
    ensures Prepend(ok, file, if c.Some? then Prepend(true, c.value, f) else None)
            == if c.Some? then Prepend(ok, file + c.value, f) else None
  {
    if c.Some? && f.Some? { assert file + (c.value + f.value) == file + c.value + f.value; }
  }

  lemma FrameEnd()
    ensures Frame([]) == Some([0])
  {
  }

  lemma LineIs(s: seq<byte>, x: seq<byte>, y: seq<byte>)
    requires s == x + y && 0 < |x| <= LINE && (|x| == LINE || y == [])
    ensures s != [] && s[..Line(s)] == x && s[Line(s)..] == y
  {
  }

  lemma FrameStep(x: seq<byte>, y: seq<byte>)
    requires 0 < |x| <= LINE && (|x| == LINE || y == [])
    ensures Frame(x + y) == if Chunk(x).Some? then Prepend(true, Chunk(x).value, Frame(y)) else None
  {
    hide Chunk;
    LineIs(x + y, x, y);
  }

  // ---- the device side ----

  // One turn of the bounded decoder's loop; stop when it returns.
  method BoundedOne(inp: array<byte>, out: array<byte>, pos: nat, end: nat, n: nat, m: byte) returns (stop: bool, r: int, next: nat, k: nat)
    requires inp != out && pos < end <= inp.Length && n <= out.Length && Bounded(inp[pos..end], m, out[..n], out.Length).Device?
    modifies out
    ensures var u := Bounded(inp[pos..end], m, old(out[..n]), out.Length);
            if stop then r == u.ret && |u.buf| <= out.Length && out[..|u.buf|] == u.buf
            else pos < next <= end && k <= out.Length && Bounded(inp[next..end], m, out[..k], out.Length) == u
  {
    hide Copy, ReadVar;
    stop, r, next, k := false, 0, 0, 0;
    ghost var z, now := inp[pos..end], out[..n];
    assert z[1..] == inp[pos + 1..end];
    if inp[pos] != m {
      if n >= out.Length { return true, -1, 0, 0; }
      out[n] := inp[pos];
      next, k := pos + 1, n + 1;
      assert out[..k] == now + [z[0]];
    } else if inp[pos + 1] == 0 {
      if n >= out.Length { return true, 1, 0, 0; }
      out[n] := m;
      next, k := pos + 2, n + 1;
      assert out[..k] == now + [m] && z[2..] == inp[next..end];
    } else {
      var fits, len;
      fits, next, len := CopyRef(inp, pos + 1, end, out, n);
      if !fits { return true, -1, 0, 0; }
      k := n + len;
    }
  }

  // lz_uncompress on its buffers; out is the whole room it may use.
  method LzUncompress(inp: array<byte>, from: nat, insize: nat, out: array<byte>) returns (r: int)
    requires inp != out && from + insize <= inp.Length && DeviceUncompress(inp[from..from + insize], out.Length).Device?
    modifies out
    ensures var u := DeviceUncompress(inp[from..from + insize], out.Length);
            r == u.ret && |u.buf| <= out.Length && out[..|u.buf|] == u.buf
  {
    hide Bounded;
    if insize < 1 { return -1; }
    var end := from + insize;
    var m, pos, n := inp[from], from + 1, 0;
    assert inp[from..end][1..] == inp[from + 1..end];
    while true
      invariant from < pos < end && 0 <= n <= out.Length && Bounded(inp[pos..end], m, out[..n], out.Length) == DeviceUncompress(inp[from..end], out.Length)
      decreases end - pos
    {
      var stop, next, k;
      stop, r, next, k := BoundedOne(inp, out, pos, end, n, m);
      if stop { return; }
      pos, n := next, k;
      if pos >= end {
        assert inp[pos..end] == [] && out[..n] == out[..|out[..n]|];
        BoundedEnd(m, out[..n], out.Length);
        return n;
      }
    }
  }

  lemma BoundedEnd(m: byte, out: seq<byte>, max: nat)
    ensures Bounded([], m, out, max) == Device(|out|, out)
  {
  }

  // draw_image: the walk over a framed image, with the pixels shown so far.
  method DrawImage(data: array<byte>) returns (ok: bool, shown: seq<byte>)
    requires !Walk(data[..], []).Outside?
    ensures ok == Walk(data[..], []).Drawn? && (ok ==> shown == Walk(data[..], []).pixels)
  {
    hide DeviceUncompress;
    var buf := new byte[LINE];
    shown := [];
    var at := 0;
    assert data[0..] == data[..];
    while data[at] + DIFF > DIFF
      invariant at < data.Length && Walk(data[at..], shown) == Walk(data[..], [])
      decreases data.Length - at
    {
      var chunk := data[at] + DIFF;
      var pos := at + chunk + 1;
      ghost var d := data[at..];
      assert d[1..1 + chunk] == data[pos - chunk..pos] && d[1 + chunk..] == data[pos..];
      assert pos - chunk + chunk == pos;
      ghost var u := DeviceUncompress(d[1..1 + chunk], LINE);
      assert Walk(d, shown) == if u.ret < 0 then Failed else Walk(data[pos..], shown + u.buf[..u.ret]);
      var ulen := LzUncompress(data, pos - chunk, chunk, buf);
      if ulen < 0 { return false, shown; }
      assert buf[..ulen] == buf[..|u.buf|][..ulen];
      shown := shown + buf[..ulen];
      at := pos;
    }
    ok := true;
  }
}
