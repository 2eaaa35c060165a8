/**
 * The DVP camera to ST7735S preview (main/dvp_lcd_main.c): a 160x120 RGB565
 * camera frame is centre-cropped to 128 columns and stretched from 120 to
 * 160 rows by nearest-neighbour row selection into a 128x160 display buffer.
 */
module DvpLcd {
  import opened Wrappers
  import opened Esp
  import opened Camera

  const LCD_H_RES: nat := 128
  const LCD_V_RES: nat := 160
  const SRC_WIDTH: nat := 160
  const SRC_HEIGHT: nat := 120
  /** First source column kept by the horizontal centre crop. */
  const SRC_START_X: nat := (SRC_WIDTH - LCD_H_RES) / 2
  /** Bytes of the display buffer: one uint16_t per display pixel. */
  const FRAME_BUFFER_SIZE: nat := LCD_H_RES * LCD_V_RES * 2

  /** The only frame shape the preview loop resamples. */
  predicate Accepted(f: Frame)
  {
    f.width == SRC_WIDTH && f.height == SRC_HEIGHT && f.format == RGB565
  }

  /**
   * The source row sampled for display row dstY: the nearest-neighbour row
   * below the exact position dstY * 120 / 160.
   */
  function SourceRow(dstY: nat): (srcY: nat)
    requires dstY < LCD_V_RES
    ensures srcY < SRC_HEIGHT
    ensures srcY * LCD_V_RES <= dstY * SRC_HEIGHT < (srcY + 1) * LCD_V_RES
  {
    (dstY * SRC_HEIGHT) / LCD_V_RES
  }

  /** The row mapping never goes back up the source frame. */
  lemma SourceRowMonotone(a: nat, b: nat)
    requires a <= b < LCD_V_RES
    ensures SourceRow(a) <= SourceRow(b)
  {
  }

  /** The source column shown in display column dstX: inside the 160-pixel row, 16 in from its left edge. */
  function SourceColumn(dstX: nat): (srcX: nat)
    requires dstX < LCD_H_RES
    ensures SRC_START_X <= srcX < SRC_WIDTH - SRC_START_X
    ensures srcX - SRC_START_X == dstX
  {
    SRC_START_X + dstX
  }

  /**
   * The word index read for display pixel (dstY, dstX): a pixel of the
   * 160x120 source, on row SourceRow(dstY) and column SourceColumn(dstX).
   */
  function SourceIndex(dstY: nat, dstX: nat): (i: nat)
    requires dstY < LCD_V_RES && dstX < LCD_H_RES
    ensures i < SRC_WIDTH * SRC_HEIGHT
    ensures i / SRC_WIDTH == SourceRow(dstY) && i % SRC_WIDTH == SourceColumn(dstX)
  {
    SourceRow(dstY) * SRC_WIDTH + SourceColumn(dstX)
  }

  /** The display buffer index written for (dstY, dstX): row-major, inside the 128x160 buffer. */
  function DestIndex(dstY: nat, dstX: nat): (i: nat)
    requires dstY < LCD_V_RES && dstX < LCD_H_RES
    ensures i < LCD_H_RES * LCD_V_RES
    ensures i / LCD_H_RES == dstY && i % LCD_H_RES == dstX
  {
    dstY * LCD_H_RES + dstX
  }

  /** The display image the resampler produces from a 160x120 source. */
  function Stretched(src: seq<bv8>): (img: seq<bv16>)
    requires |src| >= 2 * SRC_WIDTH * SRC_HEIGHT
    ensures |img| == LCD_H_RES * LCD_V_RES
  {
    seq(LCD_H_RES * LCD_V_RES, k requires 0 <= k < LCD_H_RES * LCD_V_RES =>
      PixelAt(src, SourceIndex(k / LCD_H_RES, k % LCD_H_RES)))
  }

  /** Every display pixel of the stretched image is the source pixel its row and column map to. */
  lemma StretchedAt(src: seq<bv8>, dstY: nat, dstX: nat)
    requires |src| >= 2 * SRC_WIDTH * SRC_HEIGHT
    requires dstY < LCD_V_RES && dstX < LCD_H_RES
    ensures Stretched(src)[DestIndex(dstY, dstX)]
            == PixelAt(src, (SourceRow(dstY) * SRC_WIDTH) + SRC_START_X + dstX)
  {
    var k := DestIndex(dstY, dstX);
    assert k / LCD_H_RES == dstY && k % LCD_H_RES == dstX;
  }

  /** Every buffer index is written by exactly one (dstY, dstX): the loop overwrites the whole buffer. */
  lemma DestIndexCovers(k: nat)
    requires k < LCD_H_RES * LCD_V_RES
    ensures k / LCD_H_RES < LCD_V_RES && DestIndex(k / LCD_H_RES, k % LCD_H_RES) == k
  {
  }

  /**
   * The nested crop-and-stretch loop, in place on the display buffer.
   */
  method Resample(src: seq<bv8>, dst: array<bv16>)
    requires |src| >= 2 * SRC_WIDTH * SRC_HEIGHT
    requires dst.Length == LCD_H_RES * LCD_V_RES
    modifies dst
    ensures dst[..] == Stretched(src)
    ensures forall dstY: nat, dstX: nat :: dstY < LCD_V_RES && dstX < LCD_H_RES ==>
              dst[DestIndex(dstY, dstX)] == PixelAt(src, SourceIndex(dstY, dstX))
  {
    var srcStartX := (SRC_WIDTH - LCD_H_RES) / 2;
    var dstY := 0;
    while dstY < LCD_V_RES
      invariant 0 <= dstY <= LCD_V_RES
      invariant forall k :: 0 <= k < dstY * LCD_H_RES ==> dst[k] == Stretched(src)[k]
    {
      var srcY := (dstY * 120) / LCD_V_RES;
      var dstX := 0;
      while dstX < LCD_H_RES
        invariant 0 <= dstX <= LCD_H_RES
        invariant forall k :: 0 <= k < dstY * LCD_H_RES + dstX ==> dst[k] == Stretched(src)[k]
      {
        var srcX := srcStartX + dstX;
        StretchedAt(src, dstY, dstX);
        dst[dstY * LCD_H_RES + dstX] := PixelAt(src, srcY * 160 + srcX);
        dstX := dstX + 1;
      }
      dstY := dstY + 1;
    }
    assert dst[..] == Stretched(src);
    forall dstY: nat, dstX: nat | dstY < LCD_V_RES && dstX < LCD_H_RES
      ensures dst[DestIndex(dstY, dstX)] == PixelAt(src, SourceIndex(dstY, dstX))
    {
      StretchedAt(src, dstY, dstX);
    }
  }

  /**
   * Allocation of the display buffer (heap_caps_malloc); allocOk is the
   * allocator's answer.  On failure app_main returns without a buffer.
   */
  method AllocateFrameBuffer(allocOk: bool) returns (frameBuffer: Option<array<bv16>>)
    ensures frameBuffer.Some? <==> allocOk
    ensures frameBuffer.Some? ==>
              fresh(frameBuffer.value) && 2 * frameBuffer.value.Length == FRAME_BUFFER_SIZE
  {
    if allocOk {
      var a := new bv16[FRAME_BUFFER_SIZE / 2];
      frameBuffer := Some(a);
    } else {
      frameBuffer := None;
    }
  }

  /** The window the preview draws: the whole 128x160 panel. */
  const PANEL_WINDOW: Window := Window(0, 0, LCD_H_RES, LCD_V_RES)

  /**
   * One iteration of the preview loop.  pic is what esp_camera_fb_get
   * returned (None for NULL).
   */
  method PreviewStep(pic: Option<Frame>, frameBuffer: array<bv16>) returns (events: seq<Event>)
    requires frameBuffer.Length == LCD_H_RES * LCD_V_RES
    requires pic.Some? && Accepted(pic.value) ==> |pic.value.buf| >= 2 * SRC_WIDTH * SRC_HEIGHT
    modifies frameBuffer
    ensures pic.Some? && Accepted(pic.value) ==>
              frameBuffer[..] == Stretched(pic.value.buf)
              && events == [DrawBitmap(PANEL_WINDOW), FrameReturned]
    ensures pic.Some? && !Accepted(pic.value) ==>
              frameBuffer[..] == old(frameBuffer[..]) && events == [LogWarning, FrameReturned]
    ensures pic.None? ==> frameBuffer[..] == old(frameBuffer[..]) && events == [LogError]
  {
    if pic.Some? {
      var f := pic.value;
      if f.width == 160 && f.height == 120 && f.format == RGB565 {
        Resample(f.buf, frameBuffer);
        events := [DrawBitmap(Window(0, 0, LCD_H_RES, LCD_V_RES))];
      } else {
        events := [LogWarning];
      }
      events := events + [FrameReturned];
    } else {
      events := [LogError];
    }
  }
}
