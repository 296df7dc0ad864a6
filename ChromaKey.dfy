/** The background-mode pass that makes the white of the second QR render
    transparent: the imaging library's `scan` visits every pixel of the RGBA
    buffer row by row, and the callback sets the alpha byte of every pixel
    whose red, green and blue are all above 250 to 0. */
module ChromaKey {

  type Byte = b: int | 0 <= b < 256

  /** The "white, or very close to white" test of the callback. */
  predicate NearWhite(red: Byte, green: Byte, blue: Byte)
  {
    red > 250 && green > 250 && blue > 250
  }

  /** One RGBA pixel after the callback has run on it. */
  function KeyPixel(p: seq<Byte>): (q: seq<Byte>)
    requires |p| == 4
    ensures |q| == 4 && q[0] == p[0] && q[1] == p[1] && q[2] == p[2]
    ensures q[3] == if NearWhite(p[0], p[1], p[2]) then 0 else p[3]
  {
    if NearWhite(p[0], p[1], p[2]) then [p[0], p[1], p[2], 0] else p
  }

  /** The whole buffer after the pass: every pixel keyed on its own. */
  function Punched(d: seq<Byte>): (r: seq<Byte>)
    requires |d| % 4 == 0
    ensures |r| == |d|
  {
    if d == [] then [] else KeyPixel(d[..4]) + Punched(d[4..])
  }

  /** The byte at index `i` after the pass, read off the original buffer:
      an alpha byte (index 3 mod 4) of a near-white pixel becomes 0. */
  function KeyedByte(d: seq<Byte>, i: int): (v: Byte)
    requires |d| % 4 == 0 && 0 <= i < |d|
    ensures v == 0 || v == d[i]
  {
    if i % 4 == 3 && NearWhite(d[i - 3], d[i - 2], d[i - 1]) then 0 else d[i]
  }

  /** The pixel-by-pixel definition agrees with the byte-wise one. */
  lemma {:induction false} PunchedAt(d: seq<Byte>, i: int)
    requires |d| % 4 == 0 && 0 <= i < |d|
    ensures Punched(d)[i] == KeyedByte(d, i)
  {
    var head, tail := d[..4], d[4..];
    assert Punched(d) == KeyPixel(head) + Punched(tail);
    if i >= 4 {
      PunchedAt(tail, i - 4);
      assert Punched(d)[i] == Punched(tail)[i - 4];
      assert (i - 4) % 4 == i % 4;
      if i % 4 == 3 {
        assert tail[i - 4 - 3] == d[i - 3];
        assert tail[i - 4 - 2] == d[i - 2];
        assert tail[i - 4 - 1] == d[i - 1];
      }
    } else {
      assert Punched(d)[i] == KeyPixel(head)[i];
      assert i % 4 == i;
      assert head[0] == d[0] && head[1] == d[1] && head[2] == d[2] && head[3] == d[3];
    }
  }

  /** What the pass does to pixel `p`: its red, green and blue bytes are kept;
      its alpha becomes 0 when they are all above 250 and is kept otherwise. */
  lemma PunchedPixel(d: seq<Byte>, p: nat)
    requires |d| % 4 == 0 && 4 * p + 3 < |d|
    ensures Punched(d)[4 * p] == d[4 * p]
    ensures Punched(d)[4 * p + 1] == d[4 * p + 1]
    ensures Punched(d)[4 * p + 2] == d[4 * p + 2]
    ensures NearWhite(d[4 * p], d[4 * p + 1], d[4 * p + 2]) ==> Punched(d)[4 * p + 3] == 0
    ensures !NearWhite(d[4 * p], d[4 * p + 1], d[4 * p + 2]) ==>
              Punched(d)[4 * p + 3] == d[4 * p + 3]
  {
    var i := 4 * p;
    ChannelOf(p);
    PunchedAt(d, i);
    PunchedAt(d, i + 1);
    PunchedAt(d, i + 2);
    PunchedAt(d, i + 3);
  }

  /** Running the pass twice changes nothing more: the colour bytes it tests
      are never written. */
  lemma PunchedIdempotent(d: seq<Byte>)
    requires |d| % 4 == 0
    ensures Punched(Punched(d)) == Punched(d)
  {
    var once := Punched(d);
    forall i | 0 <= i < |d| ensures Punched(once)[i] == once[i] {
      var p := i / 4;
      ChannelOf(p);
      if i % 4 == 3 {
        assert i == 4 * p + 3;
        PunchedPixel(d, p);
        PunchedAt(once, i);
      } else {
        PunchedAt(once, i);
      }
    }
  }

  /** The decoded image: `width` x `height` pixels, four bytes each, row by row. */
  class Bitmap {
    var width: nat
    var height: nat
    var data: array<Byte>

    ghost predicate Valid()
      reads this
    {
      && data.Length == 4 * (width * height)
      && data.Length % 4 == 0  // four bytes per pixel
    }

    constructor (w: nat, h: nat, pixels: seq<Byte>)
      requires |pixels| == 4 * (w * h)
      ensures Valid() && fresh(data)
      ensures width == w && height == h && data[..] == pixels
    {
      ChannelOf(w * h);
      width, height := w, h;
      data := new Byte[|pixels|](i requires 0 <= i < |pixels| => pixels[i]);
    }

    /** The callback of the scan, run on the pixel whose bytes start at
        `idx`: if red, green and blue are all above 250, alpha becomes 0. */
    method KeyOutPixel(idx: nat)
      requires Valid() && idx + 4 <= data.Length
      modifies data
      ensures Valid()
      ensures data[..idx] == old(data[..idx]) && data[idx + 4..] == old(data[idx + 4..])
      ensures data[idx..idx + 4] == KeyPixel(old(data[idx..idx + 4]))
    {
      var red := data[idx];
      var green := data[idx + 1];
      var blue := data[idx + 2];
      if red > 250 && green > 250 && blue > 250 {
        data[idx + 3] := 0;
      }
    }

    /** `scan(0, 0, width, height, cb)`: visits the pixels row by row and
        calls the callback with byte index `(width * y + x) << 2`. */
    method MakeWhiteTransparent()
      requires Valid()
      modifies data
      ensures Valid()
      ensures data[..] == Punched(old(data[..]))
    {
      ghost var d0 := data[..];
      ghost var done := 0;  // bytes already visited
      var y := 0;
      while y < height
        invariant 0 <= y <= height && done == 4 * (width * y) <= data.Length && done % 4 == 0
        invariant data[..done] == Punched(d0[..done]) && data[done..] == d0[done..]
      {
        var x := 0;
        while x < width
          invariant 0 <= x <= width && done == 4 * (width * y) + 4 * x <= data.Length
          invariant done % 4 == 0
          invariant data[..done] == Punched(d0[..done]) && data[done..] == d0[done..]
        {
          var idx := (width * y + x) * 4;
          PixelInRange(width, height, y, x);
          ghost var before := data[..];
          KeyOutPixel(idx);
          VisitPixel(d0, before, data[..], idx);
          done := done + 4;
          ChannelOf(width * y + x + 1);
          x := x + 1;
        }
        NextRow(width, y);
        y := y + 1;
      }
      assert data[..] == data[..done] && d0 == d0[..done];
    }
  }

  /** Splitting the buffer after a whole number of pixels splits the pass. */
  lemma {:induction false} PunchedAppend(a: seq<Byte>, b: seq<Byte>)
    requires |a| % 4 == 0 && |b| % 4 == 0
    ensures Punched(a + b) == Punched(a) + Punched(b)
  {
    if a != [] {
      assert (a + b)[..4] == a[..4];
      assert (a + b)[4..] == a[4..] + b;
      PunchedAppend(a[4..], b);
    } else {
      assert a + b == b;
    }
  }

  /** One step of the scan: the pixel at `idx` is keyed, the prefix grows by it. */
  lemma VisitPixel(d0: seq<Byte>, before: seq<Byte>, after: seq<Byte>, idx: nat)
    requires |d0| % 4 == 0 && idx % 4 == 0 && idx + 4 <= |d0|
    requires |before| == |after| == |d0|
    requires before[..idx] == Punched(d0[..idx]) && before[idx..] == d0[idx..]
    requires after[..idx] == before[..idx] && after[idx + 4..] == before[idx + 4..]
    requires after[idx..idx + 4] == KeyPixel(before[idx..idx + 4])
    ensures after[..idx + 4] == Punched(d0[..idx + 4]) && after[idx + 4..] == d0[idx + 4..]
  {
    var px := d0[idx..idx + 4];
    assert before[idx..idx + 4] == px by {
      forall k | 0 <= k < 4 ensures before[idx..idx + 4][k] == px[k] {
        assert before[idx + k] == before[idx..][k] == d0[idx..][k] == d0[idx + k];
      }
    }
    assert d0[..idx + 4] == d0[..idx] + px;
    PunchedAppend(d0[..idx], px);
    assert Punched(px) == KeyPixel(px) + Punched([]) by {
      assert px[..4] == px && px[4..] == [];
    }
    assert after[..idx + 4] == after[..idx] + after[idx..idx + 4];
    assert before[idx + 4..] == d0[idx + 4..] by {
      assert before[idx + 4..] == before[idx..][4..];
      assert d0[idx + 4..] == d0[idx..][4..];
    }
  }

  /** Pixel (x, y) of a `w` x `h` image starts at byte `(w * y + x) * 4`, and
      its four bytes lie inside the buffer. */
  lemma PixelInRange(w: nat, h: nat, y: nat, x: nat)
    requires y < h && x < w
    ensures (w * y + x) * 4 == 4 * (w * y) + 4 * x
    ensures (w * y + x) * 4 + 4 <= 4 * (w * h)
  {
    assert w * y + x + 1 <= w * y + w == w * (y + 1) <= w * h;
  }

  lemma NextRow(w: nat, y: nat)
    ensures 4 * (w * y) + 4 * w == 4 * (w * (y + 1))
    ensures w * y <= w * (y + 1)
  {
  }

  /** The four bytes of pixel `p` sit at channels 0 to 3. */
  lemma ChannelOf(p: int)
    ensures (4 * p) % 4 == 0 && (4 * p + 1) % 4 == 1
    ensures (4 * p + 2) % 4 == 2 && (4 * p + 3) % 4 == 3
  {
  }

}
