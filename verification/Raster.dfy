/** The drawing primitives of `src/display/audio_bars.rs` on a flat BGRA buffer with a row pitch:
    each method in place against the image it must leave. Buffers are 32-bit aligned. */
module Raster {
  type Image = seq<bv8>

  /** Bytes per row, and the visible width and height in pixels. */
  datatype Surface = Surface(pitch: nat, w: nat, h: nat)
  datatype Rect = Rect(x: nat, y: nat, w: nat, h: nat)
  datatype Colour = Colour(b: bv8, g: bv8, r: bv8, a: bv8)

  function Opaque(b: bv8, g: bv8, r: bv8): Colour { Colour(b, g, r, 0xFF) }

  predicate Sound(s: Surface) { s.pitch > 0 && s.pitch >= 4 * s.w }

  function RowOf(s: Surface, k: nat): nat
    requires Sound(s)
  {
    k / s.pitch
  }

  function OffOf(s: Surface, k: nat): nat
    requires Sound(s)
  {
    k % s.pitch
  }

  function Min(a: nat, b: nat): nat { if a < b then a else b }

  function Max(a: nat, b: nat): nat { if a < b then b else a }

  function SatSub(a: nat, b: nat): nat { if a < b then 0 else a - b }

  function Lane(c: Colour, off: nat): bv8 {
    if off % 4 == 0 then c.b else if off % 4 == 1 then c.g else if off % 4 == 2 then c.r else c.a
  }

  /** A row takes a fill only if the buffer reaches its last byte. */
  predicate Fits(s: Surface, row: nat, end: nat, length: nat) { row * s.pitch + 4 * end <= length }

  predicate Inside(s: Surface, r: Rect, k: nat)
    requires Sound(s)
  {
    r.y <= RowOf(s, k) < r.y + r.h && 4 * r.x <= OffOf(s, k) < 4 * (r.x + r.w)
  }

  /** The part of a rectangle on the surface. */
  function Clip(s: Surface, r: Rect): Rect {
    if r.x >= s.w || r.y >= s.h then Rect(0, 0, 0, 0)
    else Rect(r.x, r.y, Min(r.x + r.w, s.w) - r.x, Min(r.y + r.h, s.h) - r.y)
  }

  predicate Covers(s: Surface, r: Rect, length: nat, k: nat)
    requires Sound(s)
  {
    Inside(s, Clip(s, r), k) && Fits(s, RowOf(s, k), Clip(s, r).x + Clip(s, r).w, length)
  }

  /** `fill_rect` as an image. */
  function Painted(img: Image, s: Surface, r: Rect, c: Colour): (out: Image)
    requires Sound(s)
    ensures |out| == |img|
  {
    seq(|img|, k requires 0 <= k < |img| => if Covers(s, r, |img|, k) then Lane(c, OffOf(s, k)) else img[k])
  }

  /** The bytes of one row between two offsets are a contiguous run. */
  lemma RunOfRow(s: Surface, row: nat, lo: nat, hi: nat, k: nat)
    requires Sound(s) && lo <= hi <= s.pitch
    ensures row * s.pitch + lo <= k < row * s.pitch + hi <==> RowOf(s, k) == row && lo <= OffOf(s, k) < hi
    ensures RowOf(s, k) == row ==> k == row * s.pitch + OffOf(s, k)
  {
    var p := s.pitch;
    assert k == (k / p) * p + k % p;
    if row * p + lo <= k < row * p + hi {
      var q := k / p;
      if q < row { LaterRow(s, q + 1, row); }
      if q > row { LaterRow(s, row + 1, q); }
    }
  }

  lemma LaterRow(s: Surface, a: nat, b: nat)
    requires a <= b
    ensures a * s.pitch <= b * s.pitch
  {}

  method FillRow(dst: array<bv8>, s: Surface, x: nat, y: nat, w: nat, c: Colour)
    requires Sound(s)
    modifies dst
    ensures forall k :: 0 <= k < dst.Length ==>
              dst[k] == if x < s.w && RowOf(s, k) == y && 4 * x <= OffOf(s, k) < 4 * Min(x + w, s.w)
                           && Fits(s, y, Min(x + w, s.w), dst.Length)
                        then Lane(c, OffOf(s, k)) else old(dst[k])
  {
    if x >= s.w { return; }
    var end := Min(x + w, s.w);
    var start, stop := y * s.pitch + 4 * x, y * s.pitch + 4 * end;
    if stop > dst.Length { return; }
    for i := start to stop
      invariant forall k :: 0 <= k < dst.Length ==>
                  dst[k] == if start <= k < i then Lane(c, k - y * s.pitch) else old(dst[k])
    {
      dst[i] := Lane(c, i - y * s.pitch);
    }
    forall k | 0 <= k < dst.Length
      ensures start <= k < stop <==> RowOf(s, k) == y && 4 * x <= OffOf(s, k) < 4 * end
      ensures RowOf(s, k) == y ==> k - y * s.pitch == OffOf(s, k)
    {
      RunOfRow(s, y, 4 * x, 4 * end, k);
    }
  }

  method FillRect(dst: array<bv8>, s: Surface, r: Rect, c: Colour)
    requires Sound(s)
    modifies dst
    ensures dst[..] == Painted(old(dst[..]), s, r, c)
  {
    if r.x >= s.w || r.y >= s.h { return; }
    var xEnd, yEnd := Min(r.x + r.w, s.w), Min(r.y + r.h, s.h);
    for row := r.y to yEnd
      invariant forall k :: 0 <= k < dst.Length ==>
                  dst[k] == if Covers(s, r, dst.Length, k) && RowOf(s, k) < row then Lane(c, OffOf(s, k))
                      else old(dst[k])
    {
      FillRow(dst, s, r.x, row, xEnd - r.x, c);
    }
  }

  /** `fill_rect_argb`: the same image; it stops at the first row that does not fit. */
  method FillRectArgb(dst: array<bv8>, s: Surface, r: Rect, c: Colour)
    requires Sound(s)
    modifies dst
    ensures dst[..] == Painted(old(dst[..]), s, r, c)
  {
    if r.x >= s.w || r.y >= s.h { return; }
    var xEnd, yEnd := Min(r.x + r.w, s.w), Min(r.y + r.h, s.h);
    for row := r.y to yEnd
      invariant forall k :: 0 <= k < dst.Length ==>
                  dst[k] == if Covers(s, r, dst.Length, k) && RowOf(s, k) < row then Lane(c, OffOf(s, k))
                      else old(dst[k])
    {
      if row * s.pitch + 4 * xEnd > dst.Length {
        forall k | 0 <= k < dst.Length && row <= RowOf(s, k) ensures !Covers(s, r, dst.Length, k) {
          LaterRow(s, row, RowOf(s, k));
        }
        break;
      }
      FillRow(dst, s, r.x, row, xEnd - r.x, c);
    }
  }

  // ---- The translucent background ----

  const HALVE_MASK: bv32 := 0xFEFE_FEFE
  const ALPHA_FF: bv32 := 0xFF00_0000

  function Word(b: bv8, g: bv8, r: bv8, a: bv8): bv32 {
    (a as bv32 << 24) | (r as bv32 << 16) | (g as bv32 << 8) | (b as bv32)
  }

  function Dimmed(word: bv32): bv32 { ((word & HALVE_MASK) >> 1) | ALPHA_FF }

  /** The word-wide step halves each colour lane on its own and sets alpha to 0xFF. */
  lemma DimmedHalvesLanes(b: bv8, g: bv8, r: bv8, a: bv8)
    ensures Dimmed(Word(b, g, r, a)) == Word(b >> 1, g >> 1, r >> 1, 0xFF)
  {}

  function ByteOf(word: bv32, lane: nat): bv8
    requires lane < 4
  {
    if lane == 0 then (word & 0xFF) as bv8
    else if lane == 1 then ((word >> 8) & 0xFF) as bv8
    else if lane == 2 then ((word >> 16) & 0xFF) as bv8
    else ((word >> 24) & 0xFF) as bv8
  }

  lemma BytesOfWord(b: bv8, g: bv8, r: bv8, a: bv8)
    ensures ByteOf(Word(b, g, r, a), 0) == b && ByteOf(Word(b, g, r, a), 1) == g
    ensures ByteOf(Word(b, g, r, a), 2) == r && ByteOf(Word(b, g, r, a), 3) == a
  {}

  function DimByte(x: bv8, off: nat): bv8 { if off % 4 == 3 then 0xFF else x >> 1 }

  method DimPixel(b: bv8, g: bv8, r: bv8, a: bv8) returns (b': bv8, g': bv8, r': bv8, a': bv8)
    ensures b' == DimByte(b, 0) && g' == DimByte(g, 1) && r' == DimByte(r, 2) && a' == DimByte(a, 3)
  {
    var word := Dimmed(Word(b, g, r, a));
    DimmedHalvesLanes(b, g, r, a);
    BytesOfWord(b >> 1, g >> 1, r >> 1, 0xFF);
    return ByteOf(word, 0), ByteOf(word, 1), ByteOf(word, 2), ByteOf(word, 3);
  }

  method DimWord(dst: array<bv8>, at: nat)
    requires at + 4 <= dst.Length
    modifies dst
    ensures forall k :: 0 <= k < dst.Length ==>
              dst[k] == if at <= k < at + 4 then DimByte(old(dst[k]), k - at) else old(dst[k])
  {
    var b, g, r, a := DimPixel(dst[at], dst[at + 1], dst[at + 2], dst[at + 3]);
    dst[at], dst[at + 1], dst[at + 2], dst[at + 3] := b, g, r, a;
  }

  method DimRow(dst: array<bv8>, start: nat, words: nat)
    requires start + 4 * words <= dst.Length
    modifies dst
    ensures forall k :: 0 <= k < dst.Length ==>
              dst[k] == if start <= k < start + 4 * words then DimByte(old(dst[k]), k - start) else old(dst[k])
  {
    for i := 0 to words
      invariant forall k :: 0 <= k < dst.Length ==>
                  dst[k] == if start <= k < start + 4 * i then DimByte(old(dst[k]), k - start) else old(dst[k])
    {
      DimWord(dst, start + 4 * i);
    }
  }

  predicate Dims(s: Surface, y: nat, h: nat, length: nat, k: nat)
    requires Sound(s)
  {
    y <= RowOf(s, k) < y + h && OffOf(s, k) < 4 * s.w && Fits(s, RowOf(s, k), s.w, length)
  }

  /** `blend_strip_background` as an image. */
  function Blended(img: Image, s: Surface, y: nat, h: nat): (out: Image)
    requires Sound(s)
    ensures |out| == |img|
  {
    seq(|img|, k requires 0 <= k < |img| => if Dims(s, y, h, |img|, k) then DimByte(img[k], OffOf(s, k)) else img[k])
  }

  method BlendStripBackground(dst: array<bv8>, s: Surface, y: nat, h: nat)
    requires Sound(s)
    modifies dst
    ensures dst[..] == Blended(old(dst[..]), s, y, h)
  {
    for row := y to y + h
      invariant forall k :: 0 <= k < dst.Length ==>
                  dst[k] == if Dims(s, y, h, dst.Length, k)
                      && RowOf(s, k) < row then DimByte(old(dst[k]), OffOf(s, k)) else old(dst[k])
    {
      var start := row * s.pitch;
      if start + 4 * s.w > dst.Length {
        forall k | 0 <= k < dst.Length && row <= RowOf(s, k) ensures !Dims(s, y, h, dst.Length, k) {
          LaterRow(s, row, RowOf(s, k));
        }
        break;
      }
      DimRow(dst, start, s.w);
      forall k | 0 <= k < dst.Length
        ensures start <= k < start + 4 * s.w <==> RowOf(s, k) == row && OffOf(s, k) < 4 * s.w
        ensures RowOf(s, k) == row ==> k - start == OffOf(s, k)
      {
        RunOfRow(s, row, 0, 4 * s.w, k);
      }
    }
  }

  // ---- Pixels and bytes ----

  /** The first byte of the pixel in column `x` of row `y`. */
  function At(s: Surface, x: nat, y: nat): nat { y * s.pitch + 4 * x }

  lemma PixelOffset(s: Surface, x: nat, y: nat, lane: nat)
    requires Sound(s) && x < s.w && lane < 4
    ensures RowOf(s, At(s, x, y) + lane) == y && OffOf(s, At(s, x, y) + lane) == 4 * x + lane
  {
    RunOfRow(s, y, 4 * x, 4 * x + 4, At(s, x, y) + lane);
  }

  /** A fill gives exactly the pixels of the rectangle on the surface their blue, green, red and alpha, in
      that order. */
  lemma PaintedPixel(img: Image, s: Surface, r: Rect, c: Colour, x: nat, y: nat, lane: nat)
    requires Sound(s) && x < s.w && y < s.h && y * s.pitch + 4 * s.w <= |img| && lane < 4
    ensures Painted(img, s, r, c)[At(s, x, y) + lane] ==
              if r.x <= x < r.x + r.w && r.y <= y < r.y + r.h then [c.b, c.g, c.r, c.a][lane]
              else img[At(s, x, y) + lane]
  {
    PixelOffset(s, x, y, lane);
  }

  /** The background halves blue, green and red of exactly the pixels of its rows, and makes them opaque. */
  lemma BlendedPixel(img: Image, s: Surface, top: nat, h: nat, x: nat, y: nat, lane: nat)
    requires Sound(s) && x < s.w && y * s.pitch + 4 * s.w <= |img| && lane < 4
    ensures Blended(img, s, top, h)[At(s, x, y) + lane] ==
              if !(top <= y < top + h) then img[At(s, x, y) + lane]
              else if lane == 3 then 0xFF else img[At(s, x, y) + lane] >> 1
  {
    PixelOffset(s, x, y, lane);
  }

  // ---- Text ----

  /** Which cells of a character's 5 by 7 glyph are lit: character, row, column. */
  type Font = (char, nat, nat) -> bool

  const SCALE: nat := 2
  const GLYPH_W: nat := 10
  const CHAR_W: nat := 12

  function Cell(x: nat, y: nat, row: nat, col: nat): Rect { Rect(x + col * SCALE, y + row * SCALE, SCALE, SCALE) }

  function GlyphRow(img: Image, s: Surface, font: Font, x: nat, y: nat, ch: char, c: Colour, row: nat,
          cols: nat): (out: Image)
    requires Sound(s)
    ensures |out| == |img|
  {
    if cols == 0 then img
    else
      var before := GlyphRow(img, s, font, x, y, ch, c, row, cols - 1);
      if font(ch, row, cols - 1) then Painted(before, s, Cell(x, y, row, cols - 1), c) else before
  }

  /** The first `rows` rows of a glyph. */
  function Glyph(img: Image, s: Surface, font: Font, x: nat, y: nat, ch: char, c: Colour, rows: nat): (out: Image)
    requires Sound(s)
    ensures |out| == |img|
  {
    if rows == 0 then img
    else GlyphRow(Glyph(img, s, font, x, y, ch, c, rows - 1), s, font, x, y, ch, c, rows - 1, 5)
  }

  /** `draw_text` as an image: characters until one would cross the right edge. */
  function Text(img: Image, s: Surface, font: Font, x: nat, y: nat, text: string, c: Colour): (out: Image)
    requires Sound(s)
    ensures |out| == |img|
    decreases |text|
  {
    if text == [] || x + GLYPH_W > s.w then img
    else Text(Glyph(img, s, font, x, y, text[0], c, 7), s, font, x + CHAR_W, y, text[1..], c)
  }

  method DrawGlyph(dst: array<bv8>, s: Surface, font: Font, x: nat, y: nat, ch: char, c: Colour)
    requires Sound(s)
    modifies dst
    ensures dst[..] == Glyph(old(dst[..]), s, font, x, y, ch, c, 7)
  {
    for row := 0 to 7
      invariant dst[..] == Glyph(old(dst[..]), s, font, x, y, ch, c, row)
    {
      ghost var before := dst[..];
      for col := 0 to 5
        invariant dst[..] == GlyphRow(before, s, font, x, y, ch, c, row, col)
      {
        if font(ch, row, col) { FillRect(dst, s, Cell(x, y, row, col), c); }
      }
    }
  }

  method DrawText(dst: array<bv8>, s: Surface, font: Font, x: nat, y: nat, text: string, c: Colour)
    requires Sound(s)
    modifies dst
    ensures dst[..] == Text(old(dst[..]), s, font, x, y, text, c)
  {
    var cx: nat, i := x, 0;
    while i < |text|
      invariant i <= |text|
      invariant Text(old(dst[..]), s, font, x, y, text, c) == Text(dst[..], s, font, cx, y, text[i..], c)
    {
      if cx + GLYPH_W > s.w { break; }
      assert text[i..][1..] == text[i + 1..];
      DrawGlyph(dst, s, font, cx, y, text[i], c);
      cx, i := cx + CHAR_W, i + 1;
    }
  }

  // ---- What a drawing leaves alone ----

  predicate SameOutside(a: Image, b: Image, s: Surface, r: Rect)
    requires Sound(s)
  {
    |a| == |b| && forall k :: 0 <= k < |a| && !Inside(s, r, k) ==> a[k] == b[k]
  }

  predicate Within(r: Rect, region: Rect) {
    region.x <= r.x && r.x + r.w <= region.x + region.w && region.y <= r.y && r.y + r.h <= region.y + region.h
  }

  lemma Widen(a: Image, b: Image, s: Surface, r: Rect, region: Rect)
    requires Sound(s) && SameOutside(a, b, s, r) && Within(r, region)
    ensures SameOutside(a, b, s, region)
  {}

  lemma Chain(a: Image, b: Image, c: Image, s: Surface, region: Rect)
    requires Sound(s) && SameOutside(a, b, s, region) && SameOutside(b, c, s, region)
    ensures SameOutside(a, c, s, region)
  {}

  lemma PaintStays(img: Image, s: Surface, r: Rect, c: Colour)
    requires Sound(s)
    ensures SameOutside(img, Painted(img, s, r, c), s, r)
    ensures SameOutside(img, Painted(img, s, r, c), s, Rect(0, 0, s.w, s.h))
  {}

  lemma {:induction false} GlyphRowStays(img: Image, s: Surface, font: Font, x: nat, y: nat, ch: char, c: Colour,
          row: nat, cols: nat)
    requires Sound(s) && row < 7 && cols <= 5
    ensures SameOutside(img, GlyphRow(img, s, font, x, y, ch, c, row, cols), s, Rect(x, y, GLYPH_W, 14))
  {
    if cols > 0 {
      GlyphRowStays(img, s, font, x, y, ch, c, row, cols - 1);
      var before := GlyphRow(img, s, font, x, y, ch, c, row, cols - 1);
      if font(ch, row, cols - 1) {
        PaintStays(before, s, Cell(x, y, row, cols - 1), c);
        Widen(before, Painted(before, s, Cell(x, y, row, cols - 1), c), s, Cell(x, y, row, cols - 1),
            Rect(x, y, GLYPH_W, 14));
      }
    }
  }

  lemma {:induction false} GlyphStays(img: Image, s: Surface, font: Font, x: nat, y: nat, ch: char, c: Colour,
          rows: nat)
    requires Sound(s) && rows <= 7
    ensures SameOutside(img, Glyph(img, s, font, x, y, ch, c, rows), s, Rect(x, y, GLYPH_W, 14))
  {
    if rows > 0 {
      GlyphStays(img, s, font, x, y, ch, c, rows - 1);
      GlyphRowStays(Glyph(img, s, font, x, y, ch, c, rows - 1), s, font, x, y, ch, c, rows - 1, 5);
    }
  }

  /** Text of `n` characters stays within `12 n` pixels and left of the surface's right edge. */
  lemma {:induction false} TextStays(img: Image, s: Surface, font: Font, x: nat, y: nat, text: string, c: Colour,
          region: Rect)
    requires Sound(s) && region.x <= x && region.y <= y && y + 14 <= region.y + region.h
    requires Min(x + CHAR_W * |text|, s.w) <= region.x + region.w
    ensures SameOutside(img, Text(img, s, font, x, y, text, c), s, region)
    decreases |text|
  {
    if text != [] && x + GLYPH_W <= s.w {
      var next := Glyph(img, s, font, x, y, text[0], c, 7);
      GlyphStays(img, s, font, x, y, text[0], c, 7);
      Widen(img, next, s, Rect(x, y, GLYPH_W, 14), region);
      TextStays(next, s, font, x + CHAR_W, y, text[1..], c, region);
      Chain(img, next, Text(next, s, font, x + CHAR_W, y, text[1..], c), s, region);
    }
  }

  // ---- What text shows ----

  predicate IsGlyphPixel(s: Surface, x: nat, y: nat, length: nat, k: nat)
    requires Sound(s)
  {
    && x + GLYPH_W <= s.w && y + 14 <= s.h && k < length
    && Inside(s, Rect(x, y, GLYPH_W, 14), k) && Fits(s, RowOf(s, k), x + GLYPH_W, length)
  }

  function GlyphRowOf(s: Surface, y: nat, k: nat): int
    requires Sound(s)
  {
    (RowOf(s, k) - y) / 2
  }

  function GlyphColOf(s: Surface, x: nat, k: nat): int
    requires Sound(s)
  {
    (OffOf(s, k) - 4 * x) / 8
  }

  lemma CellPixel(img: Image, s: Surface, x: nat, y: nat, row: nat, col: nat, c: Colour, k: nat)
    requires Sound(s) && row < 7 && col < 5 && IsGlyphPixel(s, x, y, |img|, k)
    ensures Painted(img, s, Cell(x, y, row, col), c)[k] ==
              if GlyphRowOf(s, y, k) == row && GlyphColOf(s, x, k) == col then Lane(c, OffOf(s, k)) else img[k]
  {}

  lemma {:induction false} GlyphRowPixel(img: Image, s: Surface, font: Font, x: nat, y: nat, ch: char, c: Colour,
          row: nat, cols: nat, k: nat)
    requires Sound(s) && row < 7 && cols <= 5 && IsGlyphPixel(s, x, y, |img|, k)
    ensures var col := GlyphColOf(s, x, k);
            GlyphRow(img, s, font, x, y, ch, c, row, cols)[k] ==
              if GlyphRowOf(s, y, k) == row && 0 <= col < cols && font(ch, row, col) then Lane(c, OffOf(s, k))
                  else img[k]
  {
    if cols > 0 {
      GlyphRowPixel(img, s, font, x, y, ch, c, row, cols - 1, k);
      CellPixel(GlyphRow(img, s, font, x, y, ch, c, row, cols - 1), s, x, y, row, cols - 1, c, k);
    }
  }

  lemma {:induction false} GlyphPixel(img: Image, s: Surface, font: Font, x: nat, y: nat, ch: char, c: Colour,
          rows: nat, k: nat)
    requires Sound(s) && rows <= 7 && IsGlyphPixel(s, x, y, |img|, k)
    ensures var row, col := GlyphRowOf(s, y, k), GlyphColOf(s, x, k);
            Glyph(img, s, font, x, y, ch, c, rows)[k] ==
              if 0 <= row < rows && 0 <= col < 5 && font(ch, row, col) then Lane(c, OffOf(s, k)) else img[k]
  {
    if rows > 0 {
      GlyphPixel(img, s, font, x, y, ch, c, rows - 1, k);
      GlyphRowPixel(Glyph(img, s, font, x, y, ch, c, rows - 1), s, font, x, y, ch, c, rows - 1, 5, k);
    }
  }

  /** Character `i` of a text shows its glyph, 12 pixels a character: a pixel is painted exactly when
      its cell is lit, and no other character touches it. */
  lemma {:induction false} TextPixel(img: Image, s: Surface, font: Font, x: nat, y: nat, text: string, c: Colour,
          i: nat, k: nat)
    requires Sound(s) && i < |text| && IsGlyphPixel(s, x + CHAR_W * i, y, |img|, k)
    ensures 0 <= GlyphRowOf(s, y, k) < 7 && 0 <= GlyphColOf(s, x + CHAR_W * i, k) < 5
    ensures Text(img, s, font, x, y, text, c)[k] ==
              if font(text[i], GlyphRowOf(s, y, k), GlyphColOf(s, x + CHAR_W * i, k)) then Lane(c, OffOf(s, k))
                  else img[k]
    decreases |text|
  {
    var next := Glyph(img, s, font, x, y, text[0], c, 7);
    if i == 0 {
      GlyphPixel(img, s, font, x, y, text[0], c, 7, k);
      TextStays(next, s, font, x + CHAR_W, y, text[1..], c, Rect(x + CHAR_W, y, s.w, 14));
    } else {
      GlyphStays(img, s, font, x, y, text[0], c, 7);
      assert x + CHAR_W + CHAR_W * (i - 1) == x + CHAR_W * i;
      TextPixel(next, s, font, x + CHAR_W, y, text[1..], c, i - 1, k);
    }
  }

  // ---- A channel's bar ----

  const GREY := Opaque(0x18, 0x18, 0x18)
  const RED := Opaque(0x30, 0x30, 0xF0)
  const YELLOW := Opaque(0x30, 0xC8, 0xF0)
  const GREEN := Opaque(0x30, 0xE0, 0x30)
  const WHITE := Opaque(0xFF, 0xFF, 0xFF)

  /** `dbfs_to_frac`: -60 dBFS is 0 and 0 dBFS is 1. */
  function Frac(dbfs: real): (f: real)
    ensures 0.0 <= f <= 1.0
  {
    ((if dbfs < -60.0 then -60.0 else if dbfs > 0.0 then 0.0 else dbfs) + 60.0) / 60.0
  }

  lemma NonNegative(a: real, b: real)
    requires a >= 0.0 && b >= 0.0
    ensures a * b >= 0.0
  {}

  function Pixels(h: nat, frac: real): nat
    requires frac >= 0.0
  {
    NonNegative(h as real, frac);
    (h as real * frac).Floor
  }

  /** The first row of a bar that `frac` of its height reaches. */
  function TopOf(r: Rect, frac: real): nat
    requires frac >= 0.0
  {
    r.y + SatSub(r.h, Pixels(r.h, frac))
  }

  function Rows(img: Image, s: Surface, r: Rect, from: nat, to: nat, c: Colour): (out: Image)
    requires Sound(s)
    ensures |out| == |img|
  {
    if to > from then Painted(img, s, Rect(r.x + 1, from, SatSub(r.w, 2), to - from), c) else img
  }

  function TickEnd(r: Rect, hold: real): nat
    requires hold >= 0.0
  {
    if Pixels(r.h, hold) >= 1 then Min(TopOf(r, hold) + Min(2, r.h), r.y + r.h) else 0
  }

  /** A bar is empty at -60 dBFS and below, full at 0 and above, and linear between. */
  lemma FracIsLinear(a: real, b: real)
    ensures a <= -60.0 ==> Frac(a) == 0.0
    ensures a >= 0.0 ==> Frac(a) == 1.0
    ensures -60.0 <= a <= 0.0 && -60.0 <= b <= 0.0 ==> Frac(b) - Frac(a) == (b - a) / 60.0
  {}

  /** The rows a share of a bar lights: as many as fit in that share of its height, from the bottom. */
  lemma LitRows(r: Rect, frac: real)
    requires 0.0 <= frac <= 1.0
    ensures var n := r.y + r.h - TopOf(r, frac);
            0 <= n <= r.h && n as real <= r.h as real * frac < n as real + 1.0
  {
    var lit := r.h as real * frac;
    ShareOfHeight(r.h as real, frac);
    FloorBelow(lit, r.h);
    assert r.y + r.h - TopOf(r, frac) == lit.Floor;
  }

  lemma FloorBelow(x: real, h: nat)
    requires 0.0 <= x <= h as real
    ensures 0 <= x.Floor <= h && x.Floor as real <= x < x.Floor as real + 1.0
  {}

  lemma ShareOfHeight(h: real, frac: real)
    requires h >= 0.0 && 0.0 <= frac <= 1.0
    ensures 0.0 <= h * frac <= h
  {
    NonNegative(h, frac);
    NonNegative(h, 1.0 - frac);
    assert h * (1.0 - frac) == h - h * frac;
  }

  /** Red starts 19/20 of the way up, at -3 dBFS, and yellow 7/10, at -18. */
  lemma BandSplits(r: Rect)
    ensures TopOf(r, Frac(-3.0)) == r.y + r.h - 19 * r.h / 20
    ensures TopOf(r, Frac(-18.0)) == r.y + r.h - 7 * r.h / 10
  {
    assert Frac(-3.0) == 0.95 && Frac(-18.0) == 0.7;
    assert (19 * r.h) as real / 20.0 == r.h as real * 0.95;
    assert (7 * r.h) as real / 10.0 == r.h as real * 0.7;
  }

  /** The tick is the two topmost rows the held peak lights, or the one there is; none if it lights none. */
  lemma TickIsTwoRows(r: Rect, hold: real, row: nat)
    requires 0.0 <= hold <= 1.0
    ensures IsTick(r, hold, row) <==>
            var top := TopOf(r, hold);
            top < r.y + r.h && (row == top || (row == top + 1 && row < r.y + r.h))
  {
    LitRows(r, hold);
  }

  /** A fill of rows `[from, to)` inside a bar's frame. */
  datatype Fill = Fill(from: nat, to: nat, c: Colour)

  function Filled(img: Image, s: Surface, r: Rect, fs: seq<Fill>): (out: Image)
    requires Sound(s)
    ensures |out| == |img|
  {
    if fs == [] then img
    else
      var f := fs[|fs| - 1];
      Rows(Filled(img, s, r, fs[..|fs| - 1]), s, r, f.from, f.to, f.c)
  }

  /** The red, yellow and green parts of the level. */
  function LevelFills(r: Rect, top: nat, red: nat, yel: nat): seq<Fill> {
    var bottom := r.y + r.h;
    [Fill(top, Min(bottom, red), RED), Fill(Max(top, red), Min(bottom, yel), YELLOW),
        Fill(Max(top, yel), bottom, GREEN)]
  }

  /** The slot and, over it, the level. */
  function Banded(img: Image, s: Surface, r: Rect, top: nat, red: nat, yel: nat): (out: Image)
    requires Sound(s)
    ensures |out| == |img|
  {
    Filled(Painted(img, s, r, GREY), s, r, LevelFills(r, top, red, yel))
  }

  function Bands(img: Image, s: Surface, r: Rect, rms: real): (out: Image)
    requires Sound(s) && rms >= 0.0
    ensures |out| == |img|
  {
    Banded(img, s, r, TopOf(r, rms), TopOf(r, Frac(-3.0)), TopOf(r, Frac(-18.0)))
  }

  /** `draw_channel_bar` as an image, from the fractions of the level and of the held peak. */
  function Bar(img: Image, s: Surface, r: Rect, rms: real, hold: real): (out: Image)
    requires Sound(s) && rms >= 0.0 && hold >= 0.0
    ensures |out| == |img|
  {
    if r.x + r.w > s.w || r.y + r.h > s.h then img
    else Rows(Bands(img, s, r, rms), s, r, TopOf(r, hold), TickEnd(r, hold), WHITE)
  }

  method FillRows(dst: array<bv8>, s: Surface, r: Rect, from: nat, to: nat, c: Colour)
    requires Sound(s)
    modifies dst
    ensures dst[..] == Rows(old(dst[..]), s, r, from, to, c)
  {
    if to > from { FillRect(dst, s, Rect(r.x + 1, from, SatSub(r.w, 2), to - from), c); }
  }

  lemma FilledNext(img: Image, s: Surface, r: Rect, fs: seq<Fill>, i: nat)
    requires Sound(s) && i < |fs|
    ensures Filled(img, s, r, fs[..i + 1]) == Rows(Filled(img, s, r, fs[..i]), s, r, fs[i].from, fs[i].to, fs[i].c)
  {
    assert fs[..i + 1][..i] == fs[..i];
  }

  method FillNext(dst: array<bv8>, s: Surface, r: Rect, fs: seq<Fill>, i: nat, ghost slot: Image)
    requires Sound(s) && i < |fs| && dst[..] == Filled(slot, s, r, fs[..i])
    modifies dst
    ensures dst[..] == Filled(slot, s, r, fs[..i + 1])
  {
    FillRows(dst, s, r, fs[i].from, fs[i].to, fs[i].c);
    FilledNext(slot, s, r, fs, i);
  }

  method DrawLevels(dst: array<bv8>, s: Surface, r: Rect, top: nat, red: nat, yel: nat)
    requires Sound(s)
    modifies dst
    ensures dst[..] == Filled(old(dst[..]), s, r, LevelFills(r, top, red, yel))
  {
    ghost var slot := dst[..];
    var fs := LevelFills(r, top, red, yel);
    FillNext(dst, s, r, fs, 0, slot);
    FillNext(dst, s, r, fs, 1, slot);
    FillNext(dst, s, r, fs, 2, slot);
    assert fs[..3] == fs;
  }

  method DrawBands(dst: array<bv8>, s: Surface, r: Rect, rms: real)
    requires Sound(s) && rms >= 0.0
    modifies dst
    ensures dst[..] == Bands(old(dst[..]), s, r, rms)
  {
    FillRect(dst, s, r, GREY);
    DrawLevels(dst, s, r, TopOf(r, rms), TopOf(r, Frac(-3.0)), TopOf(r, Frac(-18.0)));
  }

  method DrawTick(dst: array<bv8>, s: Surface, r: Rect, hold: real)
    requires Sound(s) && hold >= 0.0
    modifies dst
    ensures dst[..] == Rows(old(dst[..]), s, r, TopOf(r, hold), TickEnd(r, hold), WHITE)
  {
    if Pixels(r.h, hold) >= 1 {
      var holdY := TopOf(r, hold);
      var tickH := SatSub(Min(holdY + Min(2, r.h), r.y + r.h), holdY);
      FillRows(dst, s, r, holdY, holdY + tickH, WHITE);
    }
  }

  method DrawChannelBar(dst: array<bv8>, s: Surface, r: Rect, rms: real, hold: real)
    requires Sound(s) && rms >= 0.0 && hold >= 0.0
    modifies dst
    ensures dst[..] == Bar(old(dst[..]), s, r, rms, hold)
  {
    if r.x + r.w > s.w || r.y + r.h > s.h { return; }
    DrawBands(dst, s, r, rms);
    DrawTick(dst, s, r, hold);
  }

  predicate IsTick(r: Rect, hold: real, row: nat)
    requires hold >= 0.0
  {
    TopOf(r, hold) <= row < TickEnd(r, hold)
  }

  lemma RedAboveYellow(r: Rect)
    ensures TopOf(r, Frac(-3.0)) <= TopOf(r, Frac(-18.0))
  {
    assert Frac(-3.0) == 0.95 && Frac(-18.0) == 0.7;
  }

  /** A byte after a fill of rows `[from, to)`. */
  function Over(v: bv8, inner: bool, row: nat, off: nat, from: nat, to: nat, c: Colour): bv8 {
    if inner && from <= row < to then Lane(c, off) else v
  }

  lemma RowsPixel(img: Image, s: Surface, r: Rect, from: nat, to: nat, c: Colour, k: nat)
    requires Sound(s) && k < |img| && r.x + r.w <= s.w && to <= s.h
    requires Fits(s, RowOf(s, k), r.x + r.w, |img|)
    ensures Rows(img, s, r, from, to, c)[k] == Over(img[k], IsInner(s, r, k), RowOf(s, k), OffOf(s, k), from, to, c)
  {}

  predicate IsInner(s: Surface, r: Rect, k: nat)
    requires Sound(s)
  {
    4 * (r.x + 1) <= OffOf(s, k) < 4 * (r.x + 1 + SatSub(r.w, 2))
  }

  predicate IsBarPixel(s: Surface, r: Rect, length: nat, k: nat)
    requires Sound(s)
  {
    && r.x + r.w <= s.w && r.y + r.h <= s.h && k < length
    && Inside(s, r, k) && Fits(s, RowOf(s, k), r.x + r.w, length)
  }

  function BandOf(top: nat, red: nat, yel: nat, row: nat): Colour {
    if row < top then GREY else if row < red then RED else if row < yel then YELLOW else GREEN
  }

  function BandColour(r: Rect, rms: real, row: nat): Colour
    requires rms >= 0.0
  {
    BandOf(TopOf(r, rms), TopOf(r, Frac(-3.0)), TopOf(r, Frac(-18.0)), row)
  }

  function OverAll(v: bv8, inner: bool, row: nat, off: nat, fs: seq<Fill>): bv8 {
    if fs == [] then v
    else
      var f := fs[|fs| - 1];
      Over(OverAll(v, inner, row, off, fs[..|fs| - 1]), inner, row, off, f.from, f.to, f.c)
  }

  /** What a row of a level shows, by its height above the bottom of the bar: dark grey above the level,
      red in the top twentieth, yellow down to seven tenths, green below. */
  lemma BandShows(r: Rect, rms: real, row: nat)
    requires 0.0 <= rms <= 1.0 && r.y <= row < r.y + r.h
    ensures var height, lit := r.y + r.h - row, r.y + r.h - TopOf(r, rms);
            BandColour(r, rms, row) ==
              if height > lit then Colour(0x18, 0x18, 0x18, 0xFF)
              else if height > 19 * r.h / 20 then Colour(0x30, 0x30, 0xF0, 0xFF)
              else if height > 7 * r.h / 10 then Colour(0x30, 0xC8, 0xF0, 0xFF)
              else Colour(0x30, 0xE0, 0x30, 0xFF)
  {
    BandSplits(r);
  }

  lemma {:induction false} FilledPixel(img: Image, s: Surface, r: Rect, fs: seq<Fill>, k: nat)
    requires Sound(s) && IsBarPixel(s, r, |img|, k) && forall i :: 0 <= i < |fs| ==> fs[i].to <= s.h
    ensures Filled(img, s, r, fs)[k] == OverAll(img[k], IsInner(s, r, k), RowOf(s, k), OffOf(s, k), fs)
  {
    if fs != [] {
      var front, f := fs[..|fs| - 1], fs[|fs| - 1];
      FilledPixel(img, s, r, front, k);
      RowsPixel(Filled(img, s, r, front), s, r, f.from, f.to, f.c, k);
    }
  }

  /** The three fills share no row: each row of the level gets its own band's colour and no other. */
  lemma FillsByRow(v: bv8, inner: bool, row: nat, off: nat, r: Rect, top: nat, red: nat, yel: nat)
    requires red <= yel && row < r.y + r.h
    ensures OverAll(v, inner, row, off, LevelFills(r, top, red, yel)) ==
              if !inner || row < top then v else Lane(BandOf(top, red, yel, row), off)
  {
    var fs := LevelFills(r, top, red, yel);
    assert fs[..2][..1] == fs[..1] && fs[..1][..0] == [];
    assert OverAll(v, inner, row, off, fs[..1]) == Over(v, inner, row, off, fs[0].from, fs[0].to, fs[0].c);
    assert OverAll(v, inner, row, off, fs[..2]) ==
             Over(OverAll(v, inner, row, off, fs[..1]), inner, row, off, fs[1].from, fs[1].to, fs[1].c);
  }

  lemma BandedPixel(img: Image, s: Surface, r: Rect, top: nat, red: nat, yel: nat, k: nat)
    requires Sound(s) && red <= yel && IsBarPixel(s, r, |img|, k)
    ensures Banded(img, s, r, top, red, yel)[k] ==
              Lane(if IsInner(s, r, k) then BandOf(top, red, yel, RowOf(s, k)) else GREY, OffOf(s, k))
  {
    FilledPixel(Painted(img, s, r, GREY), s, r, LevelFills(r, top, red, yel), k);
    FillsByRow(Lane(GREY, OffOf(s, k)), IsInner(s, r, k), RowOf(s, k), OffOf(s, k), r, top, red, yel);
  }

  lemma BandsPixel(img: Image, s: Surface, r: Rect, rms: real, k: nat)
    requires Sound(s) && 0.0 <= rms && IsBarPixel(s, r, |img|, k)
    ensures Bands(img, s, r, rms)[k] ==
              Lane(if IsInner(s, r, k) then BandColour(r, rms, RowOf(s, k)) else GREY, OffOf(s, k))
  {
    RedAboveYellow(r);
    BandedPixel(img, s, r, TopOf(r, rms), TopOf(r, Frac(-3.0)), TopOf(r, Frac(-18.0)), k);
  }

  /** What a pixel of a bar must show: the frame, the tick, or the band of its row. */
  function BarByte(s: Surface, r: Rect, rms: real, hold: real, k: nat): bv8
    requires Sound(s) && 0.0 <= rms && 0.0 <= hold
  {
    Lane(if !IsInner(s, r, k) then GREY
         else if IsTick(r, hold, RowOf(s, k)) then WHITE
         else BandColour(r, rms, RowOf(s, k)), OffOf(s, k))
  }

  /** The frame is dark grey and the tick white. */
  lemma FrameAndTick(s: Surface, r: Rect, rms: real, hold: real, k: nat)
    requires Sound(s) && 0.0 <= rms && 0.0 <= hold
    ensures OffOf(s, k) < 4 * (r.x + 1) || OffOf(s, k) >= 4 * (r.x + 1 + SatSub(r.w, 2)) ==>
              BarByte(s, r, rms, hold, k) == Lane(Colour(0x18, 0x18, 0x18, 0xFF), OffOf(s, k))
    ensures IsInner(s, r, k) && IsTick(r, hold, RowOf(s, k)) ==> BarByte(s, r, rms, hold, k) == 0xFF
    ensures IsInner(s, r, k) && !IsTick(r, hold, RowOf(s, k)) ==>
              BarByte(s, r, rms, hold, k) == Lane(BandColour(r, rms, RowOf(s, k)), OffOf(s, k))
  {}

  /** Every pixel of a bar: the frame is grey, and each inner row shows the tick or its own band. */
  lemma BarPixel(img: Image, s: Surface, r: Rect, rms: real, hold: real, k: nat)
    requires Sound(s) && 0.0 <= rms && 0.0 <= hold && IsBarPixel(s, r, |img|, k)
    ensures Bar(img, s, r, rms, hold)[k] == BarByte(s, r, rms, hold, k)
  {
    BandsPixel(img, s, r, rms, k);
    RowsPixel(Bands(img, s, r, rms), s, r, TopOf(r, hold), TickEnd(r, hold), WHITE, k);
  }

  lemma RowsStay(img: Image, s: Surface, r: Rect, from: nat, to: nat, c: Colour)
    requires Sound(s) && r.y <= from && to <= r.y + r.h
    ensures SameOutside(img, Rows(img, s, r, from, to, c), s, r)
  {}

  lemma {:induction false} FilledStays(img: Image, s: Surface, r: Rect, fs: seq<Fill>)
    requires Sound(s) && forall i :: 0 <= i < |fs| ==> r.y <= fs[i].from && fs[i].to <= r.y + r.h
    ensures SameOutside(img, Filled(img, s, r, fs), s, r)
  {
    if fs != [] {
      var front, f := fs[..|fs| - 1], fs[|fs| - 1];
      FilledStays(img, s, r, front);
      RowsStay(Filled(img, s, r, front), s, r, f.from, f.to, f.c);
    }
  }

  lemma BandsStay(img: Image, s: Surface, r: Rect, rms: real)
    requires Sound(s) && 0.0 <= rms
    ensures SameOutside(img, Bands(img, s, r, rms), s, r)
  {
    PaintStays(img, s, r, GREY);
    FilledStays(Painted(img, s, r, GREY), s, r,
        LevelFills(r, TopOf(r, rms), TopOf(r, Frac(-3.0)), TopOf(r, Frac(-18.0))));
  }

  lemma BarStays(img: Image, s: Surface, r: Rect, rms: real, hold: real)
    requires Sound(s) && 0.0 <= rms && 0.0 <= hold
    ensures SameOutside(img, Bar(img, s, r, rms, hold), s, r)
  {
    BandsStay(img, s, r, rms);
    RowsStay(Bands(img, s, r, rms), s, r, TopOf(r, hold), TickEnd(r, hold), WHITE);
  }

  lemma BarLeaves(img: Image, s: Surface, r: Rect, rms: real, hold: real, k: nat)
    requires Sound(s) && 0.0 <= rms && 0.0 <= hold && k < |img| && !Inside(s, r, k)
    ensures Bar(img, s, r, rms, hold)[k] == img[k]
  {
    BarStays(img, s, r, rms, hold);
  }

  /** A bar that does not fit the surface is not drawn, so no bar reaches past the visible width. */
  lemma BarStaysVisible(img: Image, s: Surface, r: Rect, rms: real, hold: real, region: Rect)
    requires Sound(s) && 0.0 <= rms && 0.0 <= hold
    requires region.x <= r.x && region.y <= r.y && r.y + r.h <= region.y + region.h && s.w <= region.x + region.w
    ensures SameOutside(img, Bar(img, s, r, rms, hold), s, region)
  {
    if r.x + r.w <= s.w && r.y + r.h <= s.h {
      BarStays(img, s, r, rms, hold);
      Widen(img, Bar(img, s, r, rms, hold), s, r, region);
    }
  }
}
