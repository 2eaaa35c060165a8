/**
 * The DVP camera to SPI LCD pass-through (main/dvp_isp_dsi_main.c): the
 * display buffer is cleared to white, then every RGB565 frame that fits is
 * copied byte for byte into it and drawn, and accepted frames are counted.
 */
module DvpIspDsi {
  import opened Wrappers
  import opened Esp
  import opened Camera

  const RGB565_BITS_PER_PIXEL: nat := 16

  /** frame_buffer_size as app_main computes it: bits per pixel over eight, per pixel. */
  function FrameBufferSize(hRes: nat, vRes: nat): (size: nat)
    ensures size == hRes * vRes * 2   // the allocation's H * V * sizeof(uint16_t)
  {
    hRes * vRes * RGB565_BITS_PER_PIXEL / 8
  }

  /** A frame is copied only when it is RGB565 and fits the display buffer. */
  predicate Accepts(pic: Frame, bufferSize: nat)
  {
    pic.format == RGB565 && pic.Len() <= bufferSize
  }

  /** The uint32_t frame counter after one more accepted frame. */
  function NextFrameCount(count: nat): (next: nat)
    requires count < U32_MODULUS
    ensures next < U32_MODULUS
    ensures count + 1 < U32_MODULUS ==> next == count + 1
    ensures count + 1 == U32_MODULUS ==> next == 0
  {
    (count + 1) % U32_MODULUS
  }

  /** The buffer after memcpy of data to its start: data, then the old bytes past it. */
  function Copied(buffer: seq<bv8>, data: seq<bv8>): (r: seq<bv8>)
    requires |data| <= |buffer|
    ensures |r| == |buffer|
    ensures r[..|data|] == data && r[|data|..] == buffer[|data|..]
  {
    data + buffer[|data|..]
  }

  /** The counter after a sequence of capture results, starting from count. */
  function CountAfter(count: nat, pics: seq<Option<Frame>>, bufferSize: nat): (r: nat)
    requires count < U32_MODULUS
    ensures r < U32_MODULUS
    decreases |pics|
  {
    if pics == [] then count
    else
      var c := if pics[0].Some? && Accepts(pics[0].value, bufferSize) then NextFrameCount(count) else count;
      CountAfter(c, pics[1..], bufferSize)
  }

  /** The display buffer after a sequence of capture results: each accepted frame is copied over it in turn. */
  function BufferAfter(buffer: seq<bv8>, pics: seq<Option<Frame>>): (r: seq<bv8>)
    ensures |r| == |buffer|
    decreases |pics|
  {
    if pics == [] then buffer
    else
      var b := if pics[0].Some? && Accepts(pics[0].value, |buffer|) then Copied(buffer, pics[0].value.buf) else buffer;
      BufferAfter(b, pics[1..])
  }

  /** A run in which no frame is accepted leaves the buffer as it was. */
  lemma {:induction false} BufferAfterNoneAccepted(buffer: seq<bv8>, pics: seq<Option<Frame>>)
    requires AcceptedCount(pics, |buffer|) == 0
    ensures BufferAfter(buffer, pics) == buffer
    decreases |pics|
  {
    if pics != [] {
      BufferAfterNoneAccepted(buffer, pics[1..]);
    }
  }

  /**
   * After a run whose last result is an accepted frame, the buffer starts
   * with that frame's bytes.
   */
  lemma {:induction false} BufferAfterLastAccepted(buffer: seq<bv8>, pics: seq<Option<Frame>>)
    requires pics != [] && pics[|pics| - 1].Some? && Accepts(pics[|pics| - 1].value, |buffer|)
    ensures var f := pics[|pics| - 1].value;
            BufferAfter(buffer, pics)[..|f.buf|] == f.buf
    decreases |pics|
  {
    if |pics| > 1 {
      var b := if pics[0].Some? && Accepts(pics[0].value, |buffer|) then Copied(buffer, pics[0].value.buf) else buffer;
      assert pics[1..][|pics[1..]| - 1] == pics[|pics| - 1];
      BufferAfterLastAccepted(b, pics[1..]);
    }
  }

  /** The number of capture results that are accepted frames. */
  function AcceptedCount(pics: seq<Option<Frame>>, bufferSize: nat): (n: nat)
    ensures n <= |pics|
  {
    if pics == [] then 0
    else (if pics[0].Some? && Accepts(pics[0].value, bufferSize) then 1 else 0)
         + AcceptedCount(pics[1..], bufferSize)
  }

  /** frame_count is the number of accepted frames, modulo 2^32. */
  lemma {:induction false} CountAfterIsAcceptedCount(count: nat, pics: seq<Option<Frame>>, bufferSize: nat)
    requires count < U32_MODULUS
    ensures CountAfter(count, pics, bufferSize) == (count + AcceptedCount(pics, bufferSize)) % U32_MODULUS
    decreases |pics|
  {
    if pics != [] {
      var accepted := pics[0].Some? && Accepts(pics[0].value, bufferSize);
      var c := if accepted then NextFrameCount(count) else count;
      CountAfterIsAcceptedCount(c, pics[1..], bufferSize);
      var rest := AcceptedCount(pics[1..], bufferSize);
      if accepted {
        ModSucc(count + 1, rest);
      } else {
        assert count % U32_MODULUS == count;
      }
    }
  }

  /** (a mod M + b) mod M == (a + b) mod M, for the 2^32 modulus. */
  lemma ModSucc(a: nat, b: nat)
    ensures (a % U32_MODULUS + b) % U32_MODULUS == (a + b) % U32_MODULUS
  {
    var q := a / U32_MODULUS;
    assert a == q * U32_MODULUS + a % U32_MODULUS;
    assert a + b == q * U32_MODULUS + (a % U32_MODULUS + b);
  }

  /** The display side of app_main: the frame buffer and the accepted-frame counter. */
  class Display {
    const hRes: nat
    const vRes: nat
    const frameBufferSize: nat
    const frameBuffer: array<bv8>
    var frameCount: nat

    ghost predicate Valid()
      reads this
    {
      frameBufferSize == FrameBufferSize(hRes, vRes)
      && frameBuffer.Length == frameBufferSize
      && frameCount < U32_MODULUS
    }

    /** The whole-panel draw window: (0, 0) to (H_RES, V_RES). */
    function PanelWindow(): (w: Window)
      ensures w.xStart == 0 && w.yStart == 0
      ensures w.Width() == hRes && w.Height() == vRes
    {
      Window(0, 0, hRes, vRes)
    }

    /**
     * Allocation of the H x V x uint16_t buffer and the size computation;
     * an allocation failure aborts the program and is not modelled.
     */
    constructor (h: nat, v: nat)
      requires h > 0 && v > 0
      ensures Valid() && fresh(frameBuffer)
      ensures hRes == h && vRes == v && frameCount == 0
    {
      hRes, vRes := h, v;
      frameBufferSize := h * v * RGB565_BITS_PER_PIXEL / 8;
      frameBuffer := new bv8[h * v * 2];
      frameCount := 0;
    }

    /** memset(frame_buffer, 0xFF, size) and the initial white draw. */
    method ClearToWhite() returns (events: seq<Event>)
      requires Valid()
      modifies frameBuffer
      ensures Valid()
      ensures forall i :: 0 <= i < frameBuffer.Length ==> frameBuffer[i] == 0xFF
      ensures events == [DrawBitmap(PanelWindow())]
    {
      forall i | 0 <= i < frameBufferSize {
        frameBuffer[i] := 0xFF;
      }
      events := [DrawBitmap(Window(0, 0, hRes, vRes))];
    }

    /**
     * One iteration of the capture loop; pic is what esp_camera_fb_get
     * returned (None for NULL).
     */
    method Step(pic: Option<Frame>) returns (events: seq<Event>)
      requires Valid()
      modifies frameBuffer, `frameCount
      ensures Valid()
      ensures pic.Some? && Accepts(pic.value, frameBufferSize) ==>
                && frameBuffer[..] == Copied(old(frameBuffer[..]), pic.value.buf)
                && frameCount == NextFrameCount(old(frameCount))
                && events == [DrawBitmap(PanelWindow())]
                             + (if frameCount % 30 == 0 then [LogInfo] else [])
                             + [FrameReturned]
      ensures pic.Some? && !Accepts(pic.value, frameBufferSize) ==>
                && frameBuffer[..] == old(frameBuffer[..]) && frameCount == old(frameCount)
                && events == [LogWarning, FrameReturned]
      ensures pic.None? ==>
                && frameBuffer[..] == old(frameBuffer[..]) && frameCount == old(frameCount)
                && events == [LogError]
    {
      if pic.Some? {
        var f := pic.value;
        if f.format == RGB565 && |f.buf| <= frameBufferSize {
          forall i | 0 <= i < |f.buf| {
            frameBuffer[i] := f.buf[i];
          }
          assert frameBuffer[..] == Copied(old(frameBuffer[..]), f.buf);
          events := [DrawBitmap(Window(0, 0, hRes, vRes))];
          frameCount := (frameCount + 1) % U32_MODULUS;
          if frameCount % 30 == 0 {
            events := events + [LogInfo];
          }
        } else {
          events := [LogWarning];
        }
        events := events + [FrameReturned];
      } else {
        events := [LogError];
      }
    }

    /**
     * Several iterations of the capture loop, one per capture result: the
     * counter ends where CountAfter says.
     */
    method Run(pics: seq<Option<Frame>>)
      requires Valid()
      modifies frameBuffer, `frameCount
      ensures Valid()
      ensures frameCount == CountAfter(old(frameCount), pics, frameBufferSize)
      ensures frameBuffer[..] == BufferAfter(old(frameBuffer[..]), pics)
    {
      var i := 0;
      assert pics[0..] == pics;
      while i < |pics|
        invariant 0 <= i <= |pics|
        invariant Valid()
        invariant CountAfter(frameCount, pics[i..], frameBufferSize)
                  == CountAfter(old(frameCount), pics, frameBufferSize)
        invariant BufferAfter(frameBuffer[..], pics[i..]) == BufferAfter(old(frameBuffer[..]), pics)
      {
        assert pics[i..][1..] == pics[i + 1..];
        var events := Step(pics[i]);
        i := i + 1;
      }
    }
  }
}
