/** The confidence strip of `src/display/audio_bars.rs`: where the blocks and the header go, and
    what `rasterise`, `rasterise_overlay` and their headers leave of a buffer. Pixel arithmetic does
    not overflow; the glyphs of the 5 by 7 font are a parameter. */
module Strip {
  import opened Outcomes
  import opened Raster
  import Meter = MeterState

  const SIDE_MARGIN: nat := 16
  const BLOCK_GAP: nat := 16
  const BLOCK_MIN_W: nat := 80
  const BLOCK_MAX_W: nat := 200
  const BAR_GAP: nat := 3
  const BAR_MAX_W: nat := 36
  const LABEL_TOP: nat := 4
  const LABEL_H: nat := 14
  const HEADER_GAP: nat := 12
  const LABEL_COLOUR := Opaque(0xE0, 0xE0, 0xE0)
  const HEADER_COLOUR := Opaque(0xC0, 0xE0, 0xFF)

  function Clamp(x: nat, lo: nat, hi: nat): nat
    requires lo <= hi
  {
    if x < lo then lo else if x > hi then hi else x
  }

  function StripHeight(h: nat): nat { Clamp(h * 9 / 100, 80, 140) }

  /** The left edge of slot `i` in a row of slots `step` pixels apart. */
  function SlotX(left: nat, step: nat, i: nat): (x: nat)
    ensures x >= left
  {
    left + step * i
  }

  // ---- Layout ----

  /** No blocks, or blocks of one width from a left edge on. */
  datatype Layout = NoBlocks | Blocks(left: nat, blockW: nat)

  /** The left edge of a centred row of blocks; the side margin if the row is too wide. */
  function Centred(usable: nat, blockW: nat, pids: nat, gaps: nat): nat {
    SIDE_MARGIN + SatSub(usable, blockW * pids + gaps) / 2
  }

  function BlockWidth(usable: nat, gaps: nat, pids: nat): nat
    requires gaps < usable && pids > 0
  {
    Clamp((usable - gaps) / pids, BLOCK_MIN_W, BLOCK_MAX_W)
  }

  /** The layout `rasterise` and `rasterise_overlay` compute before drawing. */
  function LayoutOf(pids: nat, w: nat): Layout {
    if pids == 0 then NoBlocks
    else
      var usable, gaps := SatSub(w, 2 * SIDE_MARGIN), BLOCK_GAP * (pids - 1);
      if usable <= gaps then NoBlocks
      else
        var blockW := BlockWidth(usable, gaps, pids);
        Blocks(Centred(usable, blockW, pids, gaps), blockW)
  }

  /** `strip_audio_left_edge`. */
  function StripAudioLeftEdge(pids: nat, w: nat): nat {
    if pids == 0 then w
    else
      var usable, gaps := SatSub(w, 2 * SIDE_MARGIN), BLOCK_GAP * SatSub(pids, 1);
      if usable <= gaps then w
      else
        var blockW := Clamp((usable - gaps) / pids, BLOCK_MIN_W, BLOCK_MAX_W);
        if blockW < BLOCK_MIN_W then w
        else SIDE_MARGIN + SatSub(usable, blockW * pids + gaps) / 2
  }

  /** The header is told exactly where the blocks start, or has the whole width if there are none. */
  lemma LeftEdgeAgrees(pids: nat, w: nat)
    ensures StripAudioLeftEdge(pids, w) == match LayoutOf(pids, w) case NoBlocks => w case Blocks(left, _) => left
  {}

  /** Blocks are drawn exactly when there is a PID and more room than the gaps and margins take. */
  lemma LayoutDrawsIff(pids: nat, w: nat)
    ensures LayoutOf(pids, w).Blocks? <==> pids > 0 && w > 32 + 16 * (pids - 1)
  {}

  /** The strip is 9 % of the height, rounded down, from 80 to 140 pixels. */
  lemma StripIsNinePercent(h: nat)
    ensures 80 <= StripHeight(h) <= 140
    ensures 9 * h < 8100 ==> StripHeight(h) == 80
    ensures 9 * h >= 14000 ==> StripHeight(h) == 140
    ensures 8000 <= 9 * h < 14100 ==> 100 * StripHeight(h) <= 9 * h < 100 * StripHeight(h) + 100
  {}

  /** `compute_strip_height`: the height an overlay buffer is given for a panel. */
  function ComputeStripHeight(panelH: nat): Option<nat> {
    if panelH < 96 then None else Some(Clamp(panelH * 9 / 100, 80, 140))
  }

  // ---- Blocks ----

  function BarWidth(blockW: nat, channels: nat): nat {
    var gaps, inner := BAR_GAP * SatSub(channels, 1), SatSub(blockW, 4);
    if channels == 0 || inner <= gaps then 0 else Min((inner - gaps) / channels, BAR_MAX_W)
  }

  function BarsLeft(blockX: nat, blockW: nat, channels: nat): nat {
    var total := BarWidth(blockW, channels) * channels + BAR_GAP * SatSub(channels, 1);
    blockX + SatSub(blockW, total) / 2
  }

  function HoldFrac(ch: Meter.Level, now: int): (f: real)
    ensures 0.0 <= f <= 1.0
  {
    if now < ch.holdUntil then Frac(ch.hold) else Frac(ch.rms)
  }

  /** The first `n` bars of a block. */
  function Bars(img: Image, s: Surface, chs: seq<Meter.Level>, now: int, left: nat, barW: nat, y: nat, h: nat,
          n: nat): (out: Image)
    requires Sound(s) && n <= |chs|
    ensures |out| == |img|
  {
    if n == 0 then img
    else
      var before := Bars(img, s, chs, now, left, barW, y, h, n - 1);
      Bar(before, s, Rect(SlotX(left, barW + BAR_GAP, n - 1), y, barW, h), Frac(chs[n - 1].rms),
          HoldFrac(chs[n - 1], now))
  }

  function LabelX(blockX: nat, blockW: nat, text: string): nat { blockX + SatSub(blockW, CHAR_W * |text|) / 2 }

  /** One PID's label and bars. */
  function Block(img: Image, s: Surface, font: Font, p: Meter.PidMeter, now: int, x: nat, blockW: nat, top: nat,
          barsH: nat): (out: Image)
    requires Sound(s)
    ensures |out| == |img|
  {
    var labelled := Text(img, s, font, LabelX(x, blockW, p.cachedLabel), top + LABEL_TOP, p.cachedLabel, LABEL_COLOUR);
    var n := |p.channels|;
    if BarWidth(blockW, n) == 0 then labelled
    else Bars(labelled, s, p.channels, now, BarsLeft(x, blockW, n), BarWidth(blockW, n), top + 20, barsH, n)
  }

  /** The first `n` blocks. */
  function BlocksDrawn(img: Image, s: Surface, font: Font, ps: seq<Meter.PidMeter>, now: int, l: Layout, top: nat,
          barsH: nat, n: nat): (out: Image)
    requires Sound(s) && n <= |ps| && l.Blocks?
    ensures |out| == |img|
  {
    if n == 0 then img
    else
      var before := BlocksDrawn(img, s, font, ps, now, l, top, barsH, n - 1);
      Block(before, s, font, ps[n - 1], now, SlotX(l.left, l.blockW + BLOCK_GAP, n - 1), l.blockW, top, barsH)
  }

  function Meters(img: Image, s: Surface, font: Font, ps: seq<Meter.PidMeter>, now: int, top: nat,
          stripH: nat): (out: Image)
    requires Sound(s)
    ensures |out| == |img|
  {
    var l := LayoutOf(|ps|, s.w);
    var barsH := SatSub(stripH, 24);
    if l.NoBlocks? || barsH < 16 then img else BlocksDrawn(img, s, font, ps, now, l, top, barsH, |ps|)
  }

  /** `rasterise` as an image: the dimmed background, then the meters. */
  function Rasterised(img: Image, s: Surface, font: Font, ps: seq<Meter.PidMeter>, now: int): (out: Image)
    requires s.pitch >= 4 * s.w
    ensures |out| == |img|
  {
    if s.w < 64 || s.h < 96 then img
    else
      var stripH := StripHeight(s.h);
      Meters(Blended(img, s, s.h - stripH, stripH), s, font, ps, now, s.h - stripH, stripH)
  }

  /** The overlay before its meters: translucent black. */
  function Veil(img: Image, s: Surface): (out: Image)
    requires Sound(s)
    ensures |out| == |img|
  {
    Painted(img, s, Rect(0, 0, s.w, s.h), Colour(0, 0, 0, 0x80))
  }

  /** `rasterise_overlay` as an image: the strip is the whole buffer. */
  function Overlaid(img: Image, s: Surface, font: Font, ps: seq<Meter.PidMeter>, now: int): (out: Image)
    requires s.pitch >= 4 * s.w
    ensures |out| == |img|
  {
    if s.w < 64 || s.h < 80 then img
    else Meters(Veil(img, s), s, font, ps, now, 0, s.h)
  }

  // ---- The header ----

  /** `truncate_to_pixel_width`. */
  function Truncated(text: string, avail: nat): string {
    if avail / CHAR_W == 0 then "" else if |text| <= avail / CHAR_W then text else text[..avail / CHAR_W]
  }

  /** The longest prefix that fits: it fits, and a prefix fits exactly when it is no longer. */
  lemma TruncatedIsLongestFit(text: string, avail: nat, n: nat)
    requires n <= |text|
    ensures Truncated(text, avail) <= text
    ensures CHAR_W * n <= avail <==> n <= |Truncated(text, avail)|
  {}

  /** `draw_header_at` as an image. */
  function HeaderAt(img: Image, s: Surface, font: Font, text: string, top: nat, edge: nat): (out: Image)
    requires Sound(s)
    ensures |out| == |img|
  {
    var avail := SatSub(edge, SIDE_MARGIN + HEADER_GAP);
    if text == [] || avail < 72 then img
    else Text(img, s, font, SIDE_MARGIN, top + LABEL_TOP, Truncated(text, avail), HEADER_COLOUR)
  }

  function Headed(img: Image, s: Surface, font: Font, pids: nat, text: string): (out: Image)
    requires s.pitch >= 4 * s.w
    ensures |out| == |img|
  {
    if text == [] || s.w < 64 || s.h < 96 then img
    else HeaderAt(img, s, font, text, s.h - StripHeight(s.h), StripAudioLeftEdge(pids, s.w))
  }

  function HeadedOverlay(img: Image, s: Surface, font: Font, pids: nat, text: string): (out: Image)
    requires s.pitch >= 4 * s.w
    ensures |out| == |img|
  {
    if text == [] || s.w < 64 || s.h < 80 then img
    else HeaderAt(img, s, font, text, 0, StripAudioLeftEdge(pids, s.w))
  }

  // ---- In place ----

  method DrawBars(dst: array<bv8>, s: Surface, chs: seq<Meter.Level>, now: int, left: nat, barW: nat, y: nat, h: nat)
    requires Sound(s)
    modifies dst
    ensures dst[..] == Bars(old(dst[..]), s, chs, now, left, barW, y, h, |chs|)
  {
    for i := 0 to |chs|
      invariant dst[..] == Bars(old(dst[..]), s, chs, now, left, barW, y, h, i)
    {
      var hold := if now < chs[i].holdUntil then Frac(chs[i].hold) else Frac(chs[i].rms);
      DrawChannelBar(dst, s, Rect(SlotX(left, barW + BAR_GAP, i), y, barW, h), Frac(chs[i].rms), hold);
    }
  }

  /** The bars of a block as the drawing loop computes them: their width, and where they start. */
  method LayBars(x: nat, blockW: nat, n: nat) returns (barW: nat, left: nat)
    ensures barW == BarWidth(blockW, n)
    ensures barW > 0 ==> left == BarsLeft(x, blockW, n)
  {
    if n == 0 { return 0, x; }
    var gaps, inner := BAR_GAP * SatSub(n, 1), SatSub(blockW, 4);
    if inner <= gaps { return 0, x; }
    barW := Min((inner - gaps) / n, BAR_MAX_W);
    left := x + SatSub(blockW, barW * n + gaps) / 2;
  }

  method DrawBlock(dst: array<bv8>, s: Surface, font: Font, p: Meter.PidMeter, now: int, x: nat, blockW: nat,
          top: nat, barsH: nat)
    requires Sound(s)
    modifies dst
    ensures dst[..] == Block(old(dst[..]), s, font, p, now, x, blockW, top, barsH)
  {
    DrawText(dst, s, font, LabelX(x, blockW, p.cachedLabel), top + LABEL_TOP, p.cachedLabel, LABEL_COLOUR);
    var barW, left := LayBars(x, blockW, |p.channels|);
    if barW == 0 { return; }
    DrawBars(dst, s, p.channels, now, left, barW, top + LABEL_TOP + LABEL_H + 2, barsH);
  }

  method DrawMeters(dst: array<bv8>, s: Surface, font: Font, ps: seq<Meter.PidMeter>, now: int, top: nat, stripH: nat)
    requires Sound(s)
    modifies dst
    ensures dst[..] == Meters(old(dst[..]), s, font, ps, now, top, stripH)
  {
    if |ps| == 0 { return; }
    var usable, gaps := SatSub(s.w, 2 * SIDE_MARGIN), BLOCK_GAP * SatSub(|ps|, 1);
    if usable <= gaps { return; }
    var blockW := BlockWidth(usable, gaps, |ps|);
    if blockW < BLOCK_MIN_W { return; }
    var left := Centred(usable, blockW, |ps|, gaps);
    var barsH := SatSub(stripH, LABEL_TOP + LABEL_H + 2 + 4);
    if barsH < 16 { return; }
    for i := 0 to |ps|
      invariant dst[..] == BlocksDrawn(old(dst[..]), s, font, ps, now, Blocks(left, blockW), top, barsH, i)
    {
      DrawBlock(dst, s, font, ps[i], now, SlotX(left, blockW + BLOCK_GAP, i), blockW, top, barsH);
    }
  }

  method Rasterise(dst: array<bv8>, s: Surface, font: Font, ps: seq<Meter.PidMeter>, now: int)
    requires s.pitch >= 4 * s.w
    modifies dst
    ensures dst[..] == Rasterised(old(dst[..]), s, font, ps, now)
  {
    if s.w < 64 || s.h < 96 { return; }
    var stripH := Clamp(s.h * 9 / 100, 80, 140);
    var top := SatSub(s.h, stripH);
    BlendStripBackground(dst, s, top, stripH);
    DrawMeters(dst, s, font, ps, now, top, stripH);
  }

  method RasteriseOverlay(dst: array<bv8>, s: Surface, font: Font, ps: seq<Meter.PidMeter>, now: int)
    requires s.pitch >= 4 * s.w
    modifies dst
    ensures dst[..] == Overlaid(old(dst[..]), s, font, ps, now)
  {
    if s.w < 64 || s.h < 80 { return; }
    FillRectArgb(dst, s, Rect(0, 0, s.w, s.h), Colour(0, 0, 0, 0x80));
    DrawMeters(dst, s, font, ps, now, 0, s.h);
  }

  method DrawHeaderAt(dst: array<bv8>, s: Surface, font: Font, text: string, top: nat, edge: nat)
    requires Sound(s)
    modifies dst
    ensures dst[..] == HeaderAt(old(dst[..]), s, font, text, top, edge)
  {
    if |text| == 0 { return; }
    var avail := SatSub(edge, SIDE_MARGIN + HEADER_GAP);
    if avail < 72 { return; }
    var trimmed := Truncated(text, avail);
    if |trimmed| == 0 { return; }
    DrawText(dst, s, font, SIDE_MARGIN, top + LABEL_TOP, trimmed, HEADER_COLOUR);
  }

  method RasteriseHeader(dst: array<bv8>, s: Surface, font: Font, ps: seq<Meter.PidMeter>, text: string)
    requires s.pitch >= 4 * s.w
    modifies dst
    ensures dst[..] == Headed(old(dst[..]), s, font, |ps|, text)
  {
    if |text| == 0 || s.w < 64 || s.h < 96 { return; }
    var top := SatSub(s.h, Clamp(s.h * 9 / 100, 80, 140));
    DrawHeaderAt(dst, s, font, text, top, StripAudioLeftEdge(|ps|, s.w));
  }

  method RasteriseHeaderOverlay(dst: array<bv8>, s: Surface, font: Font, ps: seq<Meter.PidMeter>, text: string)
    requires s.pitch >= 4 * s.w
    modifies dst
    ensures dst[..] == HeadedOverlay(old(dst[..]), s, font, |ps|, text)
  {
    if |text| == 0 || s.w < 64 || s.h < 80 { return; }
    DrawHeaderAt(dst, s, font, text, 0, StripAudioLeftEdge(|ps|, s.w));
  }

  // ---- What the strip leaves alone ----

  lemma {:induction false} BarsStay(img: Image, s: Surface, chs: seq<Meter.Level>, now: int, left: nat, barW: nat,
          y: nat, h: nat, n: nat, region: Rect)
    requires Sound(s) && n <= |chs| && region.x <= left && s.w <= region.x + region.w
    requires region.y <= y && y + h <= region.y + region.h
    ensures SameOutside(img, Bars(img, s, chs, now, left, barW, y, h, n), s, region)
  {
    if n > 0 {
      BarsStay(img, s, chs, now, left, barW, y, h, n - 1, region);
      var before := Bars(img, s, chs, now, left, barW, y, h, n - 1);
      var r := Rect(SlotX(left, barW + BAR_GAP, n - 1), y, barW, h);
      BarStaysVisible(before, s, r, Frac(chs[n - 1].rms), HoldFrac(chs[n - 1], now), region);
      Chain(img, before, Bars(img, s, chs, now, left, barW, y, h, n), s, region);
    }
  }

  lemma BlockStays(img: Image, s: Surface, font: Font, p: Meter.PidMeter, now: int, x: nat, blockW: nat, top: nat,
          barsH: nat, region: Rect)
    requires Sound(s) && region.x <= x && s.w <= region.x + region.w
    requires region.y == top && barsH + 24 <= region.h
    ensures SameOutside(img, Block(img, s, font, p, now, x, blockW, top, barsH), s, region)
  {
    var text, n := p.cachedLabel, |p.channels|;
    var labelled := Text(img, s, font, LabelX(x, blockW, text), top + LABEL_TOP, text, LABEL_COLOUR);
    TextStays(img, s, font, LabelX(x, blockW, text), top + LABEL_TOP, text, LABEL_COLOUR, region);
    var barW := BarWidth(blockW, n);
    if barW != 0 {
      var left := BarsLeft(x, blockW, n);
      BarsStay(labelled, s, p.channels, now, left, barW, top + 20, barsH, n, region);
      Chain(img, labelled, Bars(labelled, s, p.channels, now, left, barW, top + 20, barsH, n), s, region);
    }
  }

  lemma {:induction false} BlocksStay(img: Image, s: Surface, font: Font, ps: seq<Meter.PidMeter>, now: int,
          l: Layout, top: nat, barsH: nat, n: nat, region: Rect)
    requires Sound(s) && n <= |ps| && l.Blocks? && region.x <= l.left && s.w <= region.x + region.w
    requires region.y == top && barsH + 24 <= region.h
    ensures SameOutside(img, BlocksDrawn(img, s, font, ps, now, l, top, barsH, n), s, region)
  {
    if n > 0 {
      BlocksStay(img, s, font, ps, now, l, top, barsH, n - 1, region);
      var before := BlocksDrawn(img, s, font, ps, now, l, top, barsH, n - 1);
      var x := SlotX(l.left, l.blockW + BLOCK_GAP, n - 1);
      BlockStays(before, s, font, ps[n - 1], now, x, l.blockW, top, barsH, region);
      Chain(img, before, Block(before, s, font, ps[n - 1], now, x, l.blockW, top, barsH), s, region);
    }
  }

  /** Labels and bars stay between the left edge the header is told and the visible right edge, even
      when there are more blocks than fit. */
  lemma MetersStay(img: Image, s: Surface, font: Font, ps: seq<Meter.PidMeter>, now: int, top: nat, stripH: nat)
    requires Sound(s) && s.w >= 64
    ensures StripAudioLeftEdge(|ps|, s.w) <= s.w
    ensures var edge := StripAudioLeftEdge(|ps|, s.w);
            SameOutside(img, Meters(img, s, font, ps, now, top, stripH), s, Rect(edge, top, s.w - edge, stripH))
  {
    var l, edge := LayoutOf(|ps|, s.w), StripAudioLeftEdge(|ps|, s.w);
    LeftEdgeAgrees(|ps|, s.w);
    EdgeOnSurface(|ps|, s.w);
    if l.Blocks? && stripH >= 40 {
      BlocksStay(img, s, font, ps, now, l, top, stripH - 24, |ps|, Rect(edge, top, s.w - edge, stripH));
    }
  }

  lemma EdgeOnSurface(pids: nat, w: nat)
    requires w >= 64
    ensures StripAudioLeftEdge(pids, w) <= w
  {
    LeftEdgeAgrees(pids, w);
  }

  predicate IsVisibleStrip(s: Surface, top: nat, k: nat)
    requires Sound(s)
  {
    top <= RowOf(s, k) < s.h && OffOf(s, k) < 4 * s.w
  }

  /** `rasterise` changes no byte above the strip, below the picture or in the padding of a row, and
      left of the blocks it leaves the dimmed background alone. */
  lemma RasteriseStaysInStrip(img: Image, s: Surface, font: Font, ps: seq<Meter.PidMeter>, now: int, k: nat)
    requires Sound(s) && s.w >= 64 && s.h >= 96 && k < |img|
    ensures var top, out := s.h - StripHeight(s.h), Rasterised(img, s, font, ps, now);
            && (!IsVisibleStrip(s, top, k) ==> out[k] == img[k])
            && (OffOf(s, k) < 4 * StripAudioLeftEdge(|ps|, s.w) ==> out[k] == Blended(img, s, top, StripHeight(s.h))[k])
  {
    var stripH := StripHeight(s.h);
    var top := s.h - stripH;
    EdgeOnSurface(|ps|, s.w);
    MetersStay(Blended(img, s, top, stripH), s, font, ps, now, top, stripH);
    var edge := StripAudioLeftEdge(|ps|, s.w);
    assert !Inside(s, Rect(edge, top, s.w - edge, stripH), k) ==>
             Rasterised(img, s, font, ps, now)[k] == Blended(img, s, top, stripH)[k];
  }

  /** The overlay changes no byte below the buffer's rows or in the padding. */
  lemma OverlayStaysVisible(img: Image, s: Surface, font: Font, ps: seq<Meter.PidMeter>, now: int, k: nat)
    requires Sound(s) && s.w >= 64 && s.h >= 80 && k < |img|
    ensures !IsVisibleStrip(s, 0, k) ==> Overlaid(img, s, font, ps, now)[k] == img[k]
    ensures OffOf(s, k) < 4 * StripAudioLeftEdge(|ps|, s.w) ==> Overlaid(img, s, font, ps, now)[k] == Veil(img, s)[k]
  {
    PaintStays(img, s, Rect(0, 0, s.w, s.h), Colour(0, 0, 0, 0x80));
    EdgeOnSurface(|ps|, s.w);
    MetersStay(Veil(img, s), s, font, ps, now, 0, s.h);
    var edge := StripAudioLeftEdge(|ps|, s.w);
    assert !Inside(s, Rect(edge, 0, s.w - edge, s.h), k) ==> Overlaid(img, s, font, ps, now)[k] == Veil(img, s)[k];
  }

  /** A header drawn up to `edge` keeps 12 pixels clear of it. */
  lemma HeaderKeepsGap(img: Image, s: Surface, font: Font, text: string, top: nat, edge: nat, k: nat)
    requires Sound(s) && k < |img| && edge <= s.w
    requires HeaderAt(img, s, font, text, top, edge)[k] != img[k]
    ensures top + LABEL_TOP <= RowOf(s, k) < top + LABEL_TOP + LABEL_H
    ensures 4 * SIDE_MARGIN <= OffOf(s, k) && OffOf(s, k) + 4 * HEADER_GAP < 4 * edge
  {
    var avail := SatSub(edge, SIDE_MARGIN + HEADER_GAP);
    if text != [] && avail >= 72 {
      var region := Rect(SIDE_MARGIN, top + LABEL_TOP, avail, LABEL_H);
      TruncatedIsLongestFit(text, avail, |Truncated(text, avail)|);
      TextStays(img, s, font, SIDE_MARGIN, top + LABEL_TOP, Truncated(text, avail), HEADER_COLOUR, region);
    }
  }

  /** `rasterise_header` changes no byte above the strip, below the picture or in the padding. */
  lemma HeaderStaysInStrip(img: Image, s: Surface, font: Font, pids: nat, text: string, k: nat)
    requires Sound(s) && s.w >= 64 && s.h >= 96 && k < |img|
    ensures !IsVisibleStrip(s, s.h - StripHeight(s.h), k) ==> Headed(img, s, font, pids, text)[k] == img[k]
  {
    EdgeOnSurface(pids, s.w);
    if Headed(img, s, font, pids, text)[k] != img[k] {
      HeaderKeepsGap(img, s, font, text, s.h - StripHeight(s.h), StripAudioLeftEdge(pids, s.w), k);
    }
  }

  /** `rasterise_header_overlay` changes no byte below the buffer's rows or in the padding. */
  lemma HeaderOverlayStaysVisible(img: Image, s: Surface, font: Font, pids: nat, text: string, k: nat)
    requires Sound(s) && s.w >= 64 && s.h >= 80 && k < |img|
    ensures !IsVisibleStrip(s, 0, k) ==> HeadedOverlay(img, s, font, pids, text)[k] == img[k]
  {
    EdgeOnSurface(pids, s.w);
    if HeadedOverlay(img, s, font, pids, text)[k] != img[k] {
      HeaderKeepsGap(img, s, font, text, 0, StripAudioLeftEdge(pids, s.w), k);
    }
  }

  /** A header drawn over meters: a byte it changes lies at least 12 pixels left of every byte they did. */
  lemma HeaderClearsMeters(base: Image, s: Surface, font: Font, ps: seq<Meter.PidMeter>, now: int, top: nat,
          stripH: nat, text: string, k: nat, j: nat)
    requires Sound(s) && s.w >= 64 && k < |base| && j < |base|
    requires var drawn := Meters(base, s, font, ps, now, top, stripH);
             && HeaderAt(drawn, s, font, text, top, StripAudioLeftEdge(|ps|, s.w))[k] != drawn[k]
             && drawn[j] != base[j]
    ensures OffOf(s, k) + 4 * 12 < OffOf(s, j)
    ensures top <= RowOf(s, k) < top + LABEL_TOP + LABEL_H
  {
    var drawn, edge := Meters(base, s, font, ps, now, top, stripH), StripAudioLeftEdge(|ps|, s.w);
    MetersStay(base, s, font, ps, now, top, stripH);
    HeaderKeepsGap(drawn, s, font, text, top, edge, k);
    assert Inside(s, Rect(edge, top, s.w - edge, stripH), j);
  }

  lemma RasterisedIsMeters(img: Image, s: Surface, font: Font, ps: seq<Meter.PidMeter>, now: int, top: nat, stripH: nat)
    requires Sound(s) && s.w >= 64 && s.h >= 96 && stripH == StripHeight(s.h) && top == s.h - stripH
    ensures Rasterised(img, s, font, ps, now) == Meters(Blended(img, s, top, stripH), s, font, ps, now, top, stripH)
  {}

  /** Whatever the snapshot and the text, `rasterise_header` after `rasterise` changes no pixel of a
      label or bar, and nothing outside the strip: a byte it changes lies at least 12 pixels left of
      every byte the blocks changed. */
  lemma HeaderNeverOverlapsBlocks(img: Image, s: Surface, font: Font, ps: seq<Meter.PidMeter>, now: int,
          text: string, top: nat, stripH: nat, k: nat, j: nat)
    requires Sound(s) && s.w >= 64 && s.h >= 96 && stripH == StripHeight(s.h) && top == s.h - stripH
    requires k < |img| && j < |img|
    requires var drawn := Rasterised(img, s, font, ps, now); Headed(drawn, s, font, |ps|, text)[k] != drawn[k]
    requires Rasterised(img, s, font, ps, now)[j] != Blended(img, s, top, stripH)[j]
    ensures OffOf(s, k) + 4 * 12 < OffOf(s, j)
    ensures top <= RowOf(s, k) < s.h
  {
    RasterisedIsMeters(img, s, font, ps, now, top, stripH);
    HeaderClearsMeters(Blended(img, s, top, stripH), s, font, ps, now, top, stripH, text, k, j);
  }

  /** The same for `rasterise_header_overlay` after `rasterise_overlay`. */
  lemma OverlayHeaderNeverOverlapsBlocks(img: Image, s: Surface, font: Font, ps: seq<Meter.PidMeter>, now: int,
          text: string, k: nat, j: nat)
    requires Sound(s) && s.w >= 64 && s.h >= 80 && k < |img| && j < |img|
    requires var drawn := Overlaid(img, s, font, ps, now); HeadedOverlay(drawn, s, font, |ps|, text)[k] != drawn[k]
    requires Overlaid(img, s, font, ps, now)[j] != Veil(img, s)[j]
    ensures OffOf(s, k) + 4 * 12 < OffOf(s, j)
    ensures RowOf(s, k) < s.h
  {
    HeaderClearsMeters(Veil(img, s), s, font, ps, now, 0, s.h, text, k, j);
  }

  // ---- What the strip shows ----

  lemma NextSlot(left: nat, step: nat, i: nat)
    ensures SlotX(left, step, i + 1) == SlotX(left, step, i) + step
  {}

  lemma {:induction false} SlotsApart(left: nat, step: nat, i: nat, j: nat)
    requires i < j
    ensures SlotX(left, step, i) + step <= SlotX(left, step, j)
  {
    NextSlot(left, step, j - 1);
    if i < j - 1 { SlotsApart(left, step, i, j - 1); }
  }

  lemma ShareAtMost(total: nat, n: nat)
    requires n > 0
    ensures total / n * n <= total
  {}

  lemma BarsTotal(blockW: nat, n: nat)
    requires BarWidth(blockW, n) > 0
    ensures BarWidth(blockW, n) * n + BAR_GAP * (n - 1) <= blockW
  {
    var gaps, inner := BAR_GAP * (n - 1), blockW - 4;
    ShareAtMost(inner - gaps, n);
    WiderTakesMore(BarWidth(blockW, n), (inner - gaps) / n, n);
  }

  lemma SlotsEnd(left: nat, w: nat, gap: nat, n: nat, j: nat)
    requires j < n
    ensures SlotX(left, w + gap, j) + w <= left + w * n + gap * (n - 1)
  {
    SlotsApart(left, w + gap, j, n);
    assert (w + gap) * n == w * n + gap * n;
  }

  /** The bars of a block and the gaps between them lie inside it. */
  lemma BarsFitBlock(x: nat, blockW: nat, n: nat, j: nat)
    requires j < n && BarWidth(blockW, n) > 0
    ensures x <= SlotX(BarsLeft(x, blockW, n), BarWidth(blockW, n) + BAR_GAP, j)
    ensures SlotX(BarsLeft(x, blockW, n), BarWidth(blockW, n) + BAR_GAP, j) + BarWidth(blockW, n) <= x + blockW
  {
    BarsTotal(blockW, n);
    SlotsEnd(BarsLeft(x, blockW, n), BarWidth(blockW, n), BAR_GAP, n, j);
  }

  lemma WiderTakesMore(a: nat, b: nat, n: nat)
    requires a <= b
    ensures a * n <= b * n
  {}

  /** The blocks and gaps fit between the side margins exactly when blocks of the least width do, and
      are then centred to the pixel. */
  lemma BlocksFitIff(pids: nat, w: nat)
    requires LayoutOf(pids, w).Blocks?
    ensures var l, usable, gaps := LayoutOf(pids, w), w - 2 * SIDE_MARGIN, BLOCK_GAP * (pids - 1);
            var used := l.blockW * pids + gaps;
            && (used <= usable <==> BLOCK_MIN_W * pids + gaps <= usable)
            && (used <= usable ==> 0 <= (w - SIDE_MARGIN - l.left - used) - (l.left - SIDE_MARGIN) <= 1)
  {
    var l, usable, gaps := LayoutOf(pids, w), w - 2 * SIDE_MARGIN, BLOCK_GAP * (pids - 1);
    ShareAtMost(usable - gaps, pids);
    WiderTakesMore(BLOCK_MIN_W, l.blockW, pids);
    if l.blockW > BLOCK_MIN_W { WiderTakesMore(l.blockW, (usable - gaps) / pids, pids); }
  }

  /** The rectangle of channel `j` of PID `i`. */
  function BarRect(ps: seq<Meter.PidMeter>, l: Layout, top: nat, barsH: nat, i: nat, j: nat): Rect
    requires l.Blocks? && i < |ps|
  {
    BarSlot(SlotX(l.left, l.blockW + BLOCK_GAP, i), l.blockW, |ps[i].channels|, top, barsH, j)
  }

  function BarSlot(x: nat, blockW: nat, n: nat, top: nat, barsH: nat, j: nat): Rect {
    Rect(SlotX(BarsLeft(x, blockW, n), BarWidth(blockW, n) + BAR_GAP, j), top + 20, BarWidth(blockW, n), barsH)
  }

  function ChannelByte(s: Surface, r: Rect, ch: Meter.Level, now: int, k: nat): bv8
    requires Sound(s)
  {
    BarByte(s, r, Frac(ch.rms), HoldFrac(ch, now), k)
  }

  lemma LaterBarLeaves(img: Image, s: Surface, left: nat, barW: nat, y: nat, h: nat, rms: real, hold: real, j: nat,
          m: nat, k: nat)
    requires Sound(s) && 0.0 <= rms && 0.0 <= hold && j < m && k < |img|
    requires Inside(s, Rect(SlotX(left, barW + BAR_GAP, j), y, barW, h), k)
    ensures Bar(img, s, Rect(SlotX(left, barW + BAR_GAP, m), y, barW, h), rms, hold)[k] == img[k]
  {
    SlotsApart(left, barW + BAR_GAP, j, m);
    BarLeaves(img, s, Rect(SlotX(left, barW + BAR_GAP, m), y, barW, h), rms, hold, k);
  }

  lemma NextBarLeaves(img: Image, s: Surface, chs: seq<Meter.Level>, now: int, left: nat, barW: nat, y: nat, h: nat,
          n: nat, j: nat, k: nat)
    requires Sound(s) && j < n - 1 && n <= |chs| && k < |img|
    requires Inside(s, Rect(SlotX(left, barW + BAR_GAP, j), y, barW, h), k)
    ensures Bars(img, s, chs, now, left, barW, y, h, n)[k] == Bars(img, s, chs, now, left, barW, y, h, n - 1)[k]
  {
    LaterBarLeaves(Bars(img, s, chs, now, left, barW, y, h, n - 1), s, left, barW, y, h,
                   Frac(chs[n - 1].rms), HoldFrac(chs[n - 1], now), j, n - 1, k);
  }

  /** Later bars of a block leave bar `j` alone. */
  lemma {:induction false} BarsKeep(img: Image, s: Surface, chs: seq<Meter.Level>, now: int, left: nat, barW: nat,
          y: nat, h: nat, n: nat, j: nat, k: nat)
    requires Sound(s) && j < n <= |chs| && k < |img|
    requires Inside(s, Rect(SlotX(left, barW + BAR_GAP, j), y, barW, h), k)
    ensures Bars(img, s, chs, now, left, barW, y, h, n)[k] == Bars(img, s, chs, now, left, barW, y, h, j + 1)[k]
  {
    if j < n - 1 {
      NextBarLeaves(img, s, chs, now, left, barW, y, h, n, j, k);
      BarsKeep(img, s, chs, now, left, barW, y, h, n - 1, j, k);
    }
  }

  lemma BarsShow(img: Image, s: Surface, chs: seq<Meter.Level>, now: int, left: nat, barW: nat, y: nat, h: nat,
          j: nat, k: nat)
    requires Sound(s) && j < |chs|
    requires IsBarPixel(s, Rect(SlotX(left, barW + BAR_GAP, j), y, barW, h), |img|, k)
    ensures Bars(img, s, chs, now, left, barW, y, h, |chs|)[k] ==
              ChannelByte(s, Rect(SlotX(left, barW + BAR_GAP, j), y, barW, h), chs[j], now, k)
  {
    BarsKeep(img, s, chs, now, left, barW, y, h, |chs|, j, k);
    BarPixel(Bars(img, s, chs, now, left, barW, y, h, j), s, Rect(SlotX(left, barW + BAR_GAP, j), y, barW, h),
             Frac(chs[j].rms), HoldFrac(chs[j], now), k);
  }

  lemma BlockIsBars(img: Image, s: Surface, font: Font, p: Meter.PidMeter, now: int, x: nat, blockW: nat, top: nat,
          barsH: nat, left: nat, barW: nat)
    requires Sound(s) && left == BarsLeft(x, blockW, |p.channels|) && 0 < barW == BarWidth(blockW, |p.channels|)
    ensures Block(img, s, font, p, now, x, blockW, top, barsH) ==
              Bars(Text(img, s, font, LabelX(x, blockW, p.cachedLabel), top + LABEL_TOP, p.cachedLabel, LABEL_COLOUR),
                   s, p.channels, now, left, barW, top + 20, barsH, |p.channels|)
  {}

  /** A block shows each of its bars. */
  lemma BlockShows(img: Image, s: Surface, font: Font, p: Meter.PidMeter, now: int, x: nat, blockW: nat, top: nat,
          barsH: nat, left: nat, barW: nat, j: nat, k: nat)
    requires Sound(s) && left == BarsLeft(x, blockW, |p.channels|) && 0 < barW == BarWidth(blockW, |p.channels|)
    requires j < |p.channels| && IsBarPixel(s, Rect(SlotX(left, barW + BAR_GAP, j), top + 20, barW, barsH), |img|, k)
    ensures Block(img, s, font, p, now, x, blockW, top, barsH)[k] ==
              ChannelByte(s, Rect(SlotX(left, barW + BAR_GAP, j), top + 20, barW, barsH), p.channels[j], now, k)
  {
    BlockIsBars(img, s, font, p, now, x, blockW, top, barsH, left, barW);
    var labelled := Text(img, s, font, LabelX(x, blockW, p.cachedLabel), top + LABEL_TOP, p.cachedLabel, LABEL_COLOUR);
    BarsShow(labelled, s, p.channels, now, left, barW, top + 20, barsH, j, k);
  }

  /** A block leaves alone what lies left of it. */
  lemma BlockLeavesLeft(img: Image, s: Surface, font: Font, p: Meter.PidMeter, now: int, x: nat, blockW: nat,
          top: nat, barsH: nat, k: nat)
    requires Sound(s) && k < |img| && OffOf(s, k) < 4 * x
    ensures Block(img, s, font, p, now, x, blockW, top, barsH)[k] == img[k]
  {
    BlockStays(img, s, font, p, now, x, blockW, top, barsH, Rect(x, top, s.w, barsH + 24));
  }

  /** So a later block leaves the bars of an earlier one alone. */
  lemma LaterBlockLeavesBar(img: Image, s: Surface, font: Font, ps: seq<Meter.PidMeter>, now: int, l: Layout,
          top: nat, barsH: nat, i: nat, m: nat, j: nat, k: nat)
    requires Sound(s) && l.Blocks? && i < m < |ps| && j < |ps[i].channels| && BarWidth(l.blockW, |ps[i].channels|) > 0
    requires IsBarPixel(s, BarRect(ps, l, top, barsH, i, j), |img|, k)
    ensures Block(img, s, font, ps[m], now, SlotX(l.left, l.blockW + BLOCK_GAP, m), l.blockW, top, barsH)[k] == img[k]
  {
    SlotsApart(l.left, l.blockW + BLOCK_GAP, i, m);
    BarsFitBlock(SlotX(l.left, l.blockW + BLOCK_GAP, i), l.blockW, |ps[i].channels|, j);
    BlockLeavesLeft(img, s, font, ps[m], now, SlotX(l.left, l.blockW + BLOCK_GAP, m), l.blockW, top, barsH, k);
  }

  lemma {:induction false} BlocksKeep(img: Image, s: Surface, font: Font, ps: seq<Meter.PidMeter>, now: int,
          l: Layout, top: nat, barsH: nat, n: nat, i: nat, j: nat, k: nat)
    requires Sound(s) && l.Blocks? && i < n <= |ps| && j < |ps[i].channels| && BarWidth(l.blockW, |ps[i].channels|) > 0
    requires IsBarPixel(s, BarRect(ps, l, top, barsH, i, j), |img|, k)
    ensures BlocksDrawn(img, s, font, ps, now, l, top, barsH, n)[k] ==
            BlocksDrawn(img, s, font, ps, now, l, top, barsH, i + 1)[k]
  {
    if i < n - 1 {
      BlocksKeep(img, s, font, ps, now, l, top, barsH, n - 1, i, j, k);
      LaterBlockLeavesBar(BlocksDrawn(img, s, font, ps, now, l, top, barsH, n - 1), s, font, ps, now, l, top,
          barsH, i, n - 1, j, k);
    }
  }

  lemma BlocksShow(img: Image, s: Surface, font: Font, ps: seq<Meter.PidMeter>, now: int, l: Layout, top: nat,
          barsH: nat, i: nat, j: nat, k: nat)
    requires Sound(s) && l.Blocks? && i < |ps| && j < |ps[i].channels| && BarWidth(l.blockW, |ps[i].channels|) > 0
    requires IsBarPixel(s, BarRect(ps, l, top, barsH, i, j), |img|, k)
    ensures BlocksDrawn(img, s, font, ps, now, l, top, barsH, |ps|)[k] ==
              ChannelByte(s, BarRect(ps, l, top, barsH, i, j), ps[i].channels[j], now, k)
  {
    BlocksKeep(img, s, font, ps, now, l, top, barsH, |ps|, i, j, k);
    var x, n := SlotX(l.left, l.blockW + BLOCK_GAP, i), |ps[i].channels|;
    BlockShows(BlocksDrawn(img, s, font, ps, now, l, top, barsH, i), s, font, ps[i], now, x, l.blockW, top, barsH,
               BarsLeft(x, l.blockW, n), BarWidth(l.blockW, n), j, k);
  }

  /** Channel `j` of PID `i` has a bar in a strip, and byte `k` is one of its pixels. */
  predicate IsPixelOfBar(s: Surface, ps: seq<Meter.PidMeter>, top: nat, stripH: nat, length: nat, i: nat, j: nat,
          k: nat)
    requires Sound(s) && stripH >= 40
  {
    var l := LayoutOf(|ps|, s.w);
    && i < |ps| && j < |ps[i].channels|
    && l.Blocks? && BarWidth(l.blockW, |ps[i].channels|) > 0
    && IsBarPixel(s, BarRect(ps, l, top, stripH - 24, i, j), length, k)
  }

  lemma MetersShow(img: Image, s: Surface, font: Font, ps: seq<Meter.PidMeter>, now: int, top: nat, stripH: nat,
          i: nat, j: nat, k: nat)
    requires Sound(s) && stripH >= 40 && IsPixelOfBar(s, ps, top, stripH, |img|, i, j, k)
    ensures Meters(img, s, font, ps, now, top, stripH)[k] ==
              ChannelByte(s, BarRect(ps, LayoutOf(|ps|, s.w), top, stripH - 24, i, j), ps[i].channels[j], now, k)
  {
    BlocksShow(img, s, font, ps, now, LayoutOf(|ps|, s.w), top, stripH - 24, i, j, k);
  }

  /** For every snapshot, every bar that fits the surface is shown in full: whatever is drawn around
      it, each of its pixels has the colour the channel's level and held peak call for. */
  lemma EveryBarIsShown(img: Image, s: Surface, font: Font, ps: seq<Meter.PidMeter>, now: int, top: nat, stripH: nat,
          i: nat, j: nat, k: nat)
    requires Sound(s) && s.w >= 64 && s.h >= 96 && stripH == StripHeight(s.h) && top == s.h - stripH
    requires IsPixelOfBar(s, ps, top, stripH, |img|, i, j, k)
    ensures Rasterised(img, s, font, ps, now)[k] ==
              ChannelByte(s, BarRect(ps, LayoutOf(|ps|, s.w), top, stripH - 24, i, j), ps[i].channels[j], now, k)
  {
    RasterisedIsMeters(img, s, font, ps, now, top, stripH);
    MetersShow(Blended(img, s, top, stripH), s, font, ps, now, top, stripH, i, j, k);
  }

  lemma OverlaidIsMeters(img: Image, s: Surface, font: Font, ps: seq<Meter.PidMeter>, now: int, top: nat, stripH: nat)
    requires Sound(s) && s.w >= 64 && s.h >= 80 && top == 0 && stripH == s.h
    ensures Overlaid(img, s, font, ps, now) == Meters(Veil(img, s), s, font, ps, now, top, stripH)
  {}

  /** The same on the overlay, whose strip is the whole buffer. */
  lemma EveryOverlayBarIsShown(img: Image, s: Surface, font: Font, ps: seq<Meter.PidMeter>, now: int, top: nat,
          stripH: nat, i: nat, j: nat, k: nat)
    requires Sound(s) && s.w >= 64 && s.h >= 80 && top == 0 && stripH == s.h
    requires IsPixelOfBar(s, ps, top, stripH, |img|, i, j, k)
    ensures Overlaid(img, s, font, ps, now)[k] ==
              ChannelByte(s, BarRect(ps, LayoutOf(|ps|, s.w), top, stripH - 24, i, j), ps[i].channels[j], now, k)
  {
    OverlaidIsMeters(img, s, font, ps, now, top, stripH);
    MetersShow(Veil(img, s), s, font, ps, now, top, stripH, i, j, k);
  }

  /** An overlay of the height computed for a panel shows the bars where the blit would, `top` rows up. */
  lemma OverlayMatchesBlit(ps: seq<Meter.PidMeter>, l: Layout, panelH: nat, i: nat, j: nat)
    requires panelH >= 96 && l.Blocks? && i < |ps|
    ensures ComputeStripHeight(panelH) == Some(StripHeight(panelH))
    ensures var h := StripHeight(panelH);
            var blit, overlay := BarRect(ps, l, panelH - h, h - 24, i, j), BarRect(ps, l, 0, h - 24, i, j);
            blit == Rect(overlay.x, overlay.y + (panelH - h), overlay.w, overlay.h)
  {}

  /** Behind its meters the overlay is half-transparent black. */
  lemma VeilPixel(img: Image, s: Surface, x: nat, y: nat, lane: nat)
    requires Sound(s) && x < s.w && y < s.h && y * s.pitch + 4 * s.w <= |img| && lane < 4
    ensures Veil(img, s)[Raster.At(s, x, y) + lane] == if lane == 3 then 0x80 else 0
  {
    PaintedPixel(img, s, Rect(0, 0, s.w, s.h), Colour(0, 0, 0, 0x80), x, y, lane);
  }

  // ---- Where things are, in pixels ----

  lemma ShareIsMost(total: nat, n: nat)
    requires n > 0
    ensures total < (total / n + 1) * n
  {}

  /** Blocks are as wide as fit, up to 200 pixels, and never under 80. */
  lemma BlocksAreWidest(pids: nat, w: nat)
    requires LayoutOf(pids, w).Blocks?
    ensures var l := LayoutOf(pids, w);
            && 80 <= l.blockW <= 200
            && (l.blockW < 200 ==> (l.blockW + 1) * pids + 16 * (pids - 1) > w - 32)
  {
    var l, usable, gaps := LayoutOf(pids, w), w - 32, 16 * (pids - 1);
    ShareIsMost(usable - gaps, pids);
    if l.blockW < 200 { WiderTakesMore((usable - gaps) / pids + 1, l.blockW + 1, pids); }
  }

  /** Bars are drawn exactly when a pixel each, with their gaps, fits a block less 4 pixels, and are then
      as wide as fit, up to 36. */
  lemma BarsAreWidest(blockW: nat, n: nat)
    requires blockW >= 4
    ensures BarWidth(blockW, n) > 0 <==> n > 0 && n + 3 * (n - 1) <= blockW - 4
    ensures BarWidth(blockW, n) <= 36
    ensures 0 < BarWidth(blockW, n) < 36 ==> (BarWidth(blockW, n) + 1) * n + 3 * (n - 1) > blockW - 4
  {
    var gaps, inner := 3 * (n - 1), blockW - 4;
    if n > 0 && inner > gaps {
      ShareIsMost(inner - gaps, n);
      ShareAtMost(inner - gaps, n);
      if (inner - gaps) / n > 0 { WiderTakesMore(1, (inner - gaps) / n, n); }
    }
  }

  /** Bars start 20 rows down and stand on the fourth row from the bottom, 3 pixels apart and centred in
      their block; blocks are 16 pixels apart. */
  lemma BarGeometry(ps: seq<Meter.PidMeter>, l: Layout, top: nat, stripH: nat, i: nat, j: nat)
    requires l.Blocks? && i < |ps| && stripH >= 40 && BarWidth(l.blockW, |ps[i].channels|) > 0
    ensures var r, next := BarRect(ps, l, top, stripH - 24, i, j), BarRect(ps, l, top, stripH - 24, i, j + 1);
            && r.y == top + 20 && r.y + r.h == top + stripH - 4 && r.w == BarWidth(l.blockW, |ps[i].channels|)
            && next.x == r.x + r.w + 3
    ensures BlockX(l, 0) == l.left && BlockX(l, i + 1) == BlockX(l, i) + l.blockW + 16
    ensures var n := |ps[i].channels|;
            var first := BarRect(ps, l, top, stripH - 24, i, 0);
            var before := first.x - BlockX(l, i);
            var after := l.blockW - before - (first.w * n + 3 * (n - 1));
            0 <= after - before <= 1
  {
    var x, n := BlockX(l, i), |ps[i].channels|;
    NextSlot(BarsLeft(x, l.blockW, n), BarWidth(l.blockW, n) + BAR_GAP, j);
    NextSlot(l.left, l.blockW + BLOCK_GAP, i);
    FirstSlot(BarsLeft(x, l.blockW, n), BarWidth(l.blockW, n) + BAR_GAP);
    FirstSlot(l.left, l.blockW + BLOCK_GAP);
    BarsTotal(l.blockW, n);
  }

  lemma FirstSlot(left: nat, step: nat)
    ensures SlotX(left, step, 0) == left
  {}

  function BlockX(l: Layout, i: nat): nat
    requires l.Blocks?
  {
    SlotX(l.left, l.blockW + BLOCK_GAP, i)
  }

  /** The tick stands where the held peak is while it is held, never below the level, and at the level
      after that. */
  lemma TickFollowsHold(ch: Meter.Level, now: int)
    requires ch.rms <= ch.hold
    ensures now < ch.holdUntil ==> HoldFrac(ch, now) == Frac(ch.hold)
    ensures now >= ch.holdUntil ==> HoldFrac(ch, now) == Frac(ch.rms)
    ensures HoldFrac(ch, now) >= Frac(ch.rms)
  {}

  /** Buffers too small for a strip are left alone, and a snapshot without PIDs shows the background only. */
  lemma NothingToShow(img: Image, s: Surface, font: Font, ps: seq<Meter.PidMeter>, now: int, text: string)
    requires Sound(s)
    ensures s.w < 64 || s.h < 96 ==> Rasterised(img, s, font, ps, now) == img && Headed(img, s, font, |ps|, text) == img
    ensures s.w < 64 || s.h < 80 ==>
              Overlaid(img, s, font, ps, now) == img && HeadedOverlay(img, s, font, |ps|, text) == img
    ensures s.w >= 64 && s.h >= 96 && ps == [] ==>
              Rasterised(img, s, font, ps, now) == Blended(img, s, s.h - StripHeight(s.h), StripHeight(s.h))
    ensures s.w >= 64 && s.h >= 80 && ps == [] ==> Overlaid(img, s, font, ps, now) == Veil(img, s)
  {}

  // ---- Labels and header are shown ----

  /** A label that fits its block is centred in it, to the pixel. */
  lemma LabelIsCentred(x: nat, blockW: nat, text: string)
    requires 12 * |text| <= blockW
    ensures var before := LabelX(x, blockW, text) - x;
            0 <= before && 0 <= blockW - before - 12 * |text| - before <= 1
  {}

  lemma BlockShowsLabel(img: Image, s: Surface, font: Font, p: Meter.PidMeter, now: int, x: nat, blockW: nat, top: nat,
          barsH: nat, c: nat, k: nat)
    requires Sound(s) && c < |p.cachedLabel|
    requires IsGlyphPixel(s, LabelX(x, blockW, p.cachedLabel) + 12 * c, top + 4, |img|, k)
    ensures var at := LabelX(x, blockW, p.cachedLabel) + 12 * c;
            && 0 <= GlyphRowOf(s, top + 4, k) < 7 && 0 <= GlyphColOf(s, at, k) < 5
            && Block(img, s, font, p, now, x, blockW, top, barsH)[k] ==
                 if font(p.cachedLabel[c], GlyphRowOf(s, top + 4, k), GlyphColOf(s, at, k))
                 then Lane(LABEL_COLOUR, OffOf(s, k)) else img[k]
  {
    var text, n := p.cachedLabel, |p.channels|;
    var labelled := Text(img, s, font, LabelX(x, blockW, text), top + LABEL_TOP, text, LABEL_COLOUR);
    TextPixel(img, s, font, LabelX(x, blockW, text), top + LABEL_TOP, text, LABEL_COLOUR, c, k);
    var barW := BarWidth(blockW, n);
    if barW != 0 {
      var left := BarsLeft(x, blockW, n);
      BarsStay(labelled, s, p.channels, now, left, barW, top + 20, barsH, n, Rect(0, top + 20, left + s.w, barsH));
    }
  }

  lemma {:induction false} LaterBlocksLeaveLeft(img: Image, s: Surface, font: Font, ps: seq<Meter.PidMeter>, now: int,
          l: Layout, top: nat, barsH: nat, n: nat, i: nat, k: nat)
    requires Sound(s) && l.Blocks? && i < n <= |ps| && k < |img| && OffOf(s, k) < 4 * (BlockX(l, i) + l.blockW)
    ensures BlocksDrawn(img, s, font, ps, now, l, top, barsH, n)[k] ==
              BlocksDrawn(img, s, font, ps, now, l, top, barsH, i + 1)[k]
  {
    if i < n - 1 {
      LaterBlocksLeaveLeft(img, s, font, ps, now, l, top, barsH, n - 1, i, k);
      SlotsApart(l.left, l.blockW + BLOCK_GAP, i, n - 1);
      BlockLeavesLeft(BlocksDrawn(img, s, font, ps, now, l, top, barsH, n - 1), s, font, ps[n - 1], now,
          BlockX(l, n - 1), l.blockW, top, barsH, k);
    }
  }

  /** Byte `k` belongs to character `c` of the label of PID `i`, and that label fits its block. */
  predicate IsPixelOfLabel(s: Surface, ps: seq<Meter.PidMeter>, l: Layout, top: nat, length: nat,
          i: nat, c: nat, k: nat)
    requires Sound(s) && l.Blocks?
  {
    && i < |ps| && c < |ps[i].cachedLabel| && 12 * |ps[i].cachedLabel| <= l.blockW
    && IsGlyphPixel(s, LabelX(BlockX(l, i), l.blockW, ps[i].cachedLabel) + 12 * c, top + 4, length, k)
  }

  predicate LitCell(s: Surface, font: Font, ch: char, x: nat, y: nat, k: nat)
    requires Sound(s) && 0 <= GlyphRowOf(s, y, k) && 0 <= GlyphColOf(s, x, k)
  {
    font(ch, GlyphRowOf(s, y, k), GlyphColOf(s, x, k))
  }

  lemma BlocksShowLabel(img: Image, s: Surface, font: Font, ps: seq<Meter.PidMeter>, now: int, l: Layout, top: nat,
          barsH: nat, i: nat, c: nat, k: nat)
    requires Sound(s) && l.Blocks? && IsPixelOfLabel(s, ps, l, top, |img|, i, c, k)
    ensures var at := LabelX(BlockX(l, i), l.blockW, ps[i].cachedLabel) + 12 * c;
            && 0 <= GlyphRowOf(s, top + 4, k) && 0 <= GlyphColOf(s, at, k)
            && (LitCell(s, font, ps[i].cachedLabel[c], at, top + 4, k) ==>
                  BlocksDrawn(img, s, font, ps, now, l, top, barsH, |ps|)[k] == Lane(LABEL_COLOUR, OffOf(s, k)))
  {
    var x, before := BlockX(l, i), BlocksDrawn(img, s, font, ps, now, l, top, barsH, i);
    BlockShowsLabel(before, s, font, ps[i], now, x, l.blockW, top, barsH, c, k);
    LaterBlocksLeaveLeft(img, s, font, ps, now, l, top, barsH, |ps|, i, k);
  }

  /** Every label that fits its block is shown: whatever is drawn around it, each lit cell of each of its
      characters ends in the label's colour. */
  lemma EveryLabelIsShown(img: Image, s: Surface, font: Font, ps: seq<Meter.PidMeter>, now: int, top: nat, stripH: nat,
          l: Layout, i: nat, c: nat, k: nat)
    requires Sound(s) && s.w >= 64 && s.h >= 96 && stripH == StripHeight(s.h) && top == s.h - stripH
    requires l == LayoutOf(|ps|, s.w) && l.Blocks? && IsPixelOfLabel(s, ps, l, top, |img|, i, c, k)
    ensures var at := LabelX(BlockX(l, i), l.blockW, ps[i].cachedLabel) + 12 * c;
            && 0 <= GlyphRowOf(s, top + 4, k) && 0 <= GlyphColOf(s, at, k)
            && (LitCell(s, font, ps[i].cachedLabel[c], at, top + 4, k) ==>
                  Rasterised(img, s, font, ps, now)[k] == Lane(Colour(0xE0, 0xE0, 0xE0, 0xFF), OffOf(s, k)))
  {
    RasterisedIsMeters(img, s, font, ps, now, top, stripH);
    BlocksShowLabel(Blended(img, s, top, stripH), s, font, ps, now, l, top, stripH - 24, i, c, k);
  }

  /** The header is drawn exactly when there is a text and room for six characters before the blocks;
      then each character that fits shows its glyph, 12 pixels a character from the 16th. */
  lemma HeaderIsShown(img: Image, s: Surface, font: Font, text: string, top: nat, edge: nat, c: nat, k: nat)
    requires Sound(s) && edge <= s.w && k < |img|
    ensures text == [] || edge < 100 ==> HeaderAt(img, s, font, text, top, edge) == img
    ensures edge >= 100 && c < |text| && 12 * (c + 1) <= edge - 28
            && IsGlyphPixel(s, 16 + 12 * c, top + 4, |img|, k) ==>
              && 0 <= GlyphRowOf(s, top + 4, k) && 0 <= GlyphColOf(s, 16 + 12 * c, k)
              && HeaderAt(img, s, font, text, top, edge)[k] ==
                   if LitCell(s, font, text[c], 16 + 12 * c, top + 4, k)
                   then Lane(Colour(0xC0, 0xE0, 0xFF, 0xFF), OffOf(s, k)) else img[k]
  {
    if edge >= 100 && c < |text| && 12 * (c + 1) <= edge - 28 && IsGlyphPixel(s, 16 + 12 * c, top + 4, |img|, k) {
      TruncatedIsLongestFit(text, edge - 28, c + 1);
      TextPixel(img, s, font, SIDE_MARGIN, top + LABEL_TOP, Truncated(text, edge - 28), HEADER_COLOUR, c, k);
    }
  }
}
