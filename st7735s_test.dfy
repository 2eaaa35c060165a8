/**
 * The ST7735S panel colour test (main/st7735s_official_test.c): a 128x160
 * buffer is filled with one colour and drawn, first to the offset window the
 * panel usually needs and, if that draw fails, to the unoffset window; eight
 * colours are shown in turn, then five colours cycle for ever.
 */
module St7735sTest {
  import opened Esp

  const LCD_H_RES: nat := 128
  const LCD_V_RES: nat := 160
  const PIXEL_COUNT: nat := LCD_H_RES * LCD_V_RES
  const X_OFFSET: nat := 2
  const Y_OFFSET: nat := 1

  /** Red, green, blue, white, black, yellow, magenta, cyan in RGB565. */
  const TEST_COLORS: seq<bv16> := [0xF800, 0x07E0, 0x001F, 0xFFFF, 0x0000, 0xFFE0, 0xF81F, 0x07FF]
  /** Red, green, blue, white, black: the colours of the endless cycle. */
  const CYCLE_COLORS: seq<bv16> := [0xF800, 0x07E0, 0x001F, 0xFFFF, 0x0000]

  /** The panel window shifted by the ST7735S's usual (2, 1) offset. */
  function OffsetWindow(): (w: Window)
    ensures w.xStart == X_OFFSET && w.yStart == Y_OFFSET
    ensures w.xEnd - w.xStart == LCD_H_RES && w.yEnd - w.yStart == LCD_V_RES
  {
    Window(X_OFFSET, Y_OFFSET, X_OFFSET + LCD_H_RES, Y_OFFSET + LCD_V_RES)
  }

  /** The fallback window at the panel origin. */
  function PlainWindow(): (w: Window)
    ensures w.xStart == 0 && w.yStart == 0
    ensures w.xEnd - w.xStart == LCD_H_RES && w.yEnd - w.yStart == LCD_V_RES
  {
    Window(0, 0, LCD_H_RES, LCD_V_RES)
  }

  /**
   * What the platform answers during one fill_color: whether
   * heap_caps_malloc succeeds, and what each esp_lcd_panel_draw_bitmap returns.
   */
  datatype FillEnv = FillEnv(allocOk: bool, offsetDraw: EspErr, plainDraw: EspErr)

  /** One esp_lcd_panel_draw_bitmap call: the window and the buffer's contents. */
  datatype DrawCall = DrawCall(window: Window, pixels: seq<bv16>)

  /** A whole-panel buffer of one colour. */
  predicate Solid(pixels: seq<bv16>, color: bv16)
  {
    |pixels| == PIXEL_COUNT && forall i :: 0 <= i < |pixels| ==> pixels[i] == color
  }

  /**
   * The code fill_color returns: ESP_ERR_NO_MEM without a buffer, ESP_OK if
   * either draw succeeds, otherwise the second draw's error.
   */
  function FillOutcome(env: FillEnv): (r: EspErr)
    ensures !env.allocOk ==> r == ESP_ERR_NO_MEM
    ensures env.allocOk ==> (r == ESP_OK <==> env.offsetDraw == ESP_OK || env.plainDraw == ESP_OK)
    ensures env.allocOk && r != ESP_OK ==> r == env.plainDraw
  {
    if !env.allocOk then ESP_ERR_NO_MEM
    else if env.offsetDraw == ESP_OK then ESP_OK
    else env.plainDraw
  }

  /** The buffer fill_color fills: every one of the PIXEL_COUNT entries is color. */
  function SolidBuffer(color: bv16): (pixels: seq<bv16>)
    ensures Solid(pixels, color)
  {
    seq(PIXEL_COUNT, _ => color)
  }

  /**
   * The draws fill_color makes: none without a buffer, the offset draw, and
   * the unoffset draw only when the offset draw fails.
   */
  function FillDraws(color: bv16, env: FillEnv): (draws: seq<DrawCall>)
    ensures !env.allocOk ==> draws == []
    ensures env.allocOk ==> |draws| == (if env.offsetDraw == ESP_OK then 1 else 2)
    ensures |draws| >= 1 ==> draws[0].window == OffsetWindow()
    ensures |draws| == 2 ==> draws[1].window == PlainWindow()
    ensures forall k :: 0 <= k < |draws| ==> Solid(draws[k].pixels, color)
  {
    if !env.allocOk then []
    else if env.offsetDraw == ESP_OK then [DrawCall(OffsetWindow(), SolidBuffer(color))]
    else [DrawCall(OffsetWindow(), SolidBuffer(color)), DrawCall(PlainWindow(), SolidBuffer(color))]
  }

  /** fill_color: allocate, fill, draw with the offset, fall back to no offset. */
  method FillColor(color: bv16, env: FillEnv) returns (ret: EspErr, draws: seq<DrawCall>)
    ensures ret == FillOutcome(env)
    ensures draws == FillDraws(color, env)
  {
    var pixelCount := LCD_H_RES * LCD_V_RES;
    if !env.allocOk {
      return ESP_ERR_NO_MEM, [];
    }
    var pixelBuffer := new bv16[pixelCount];
    var i := 0;
    while i < pixelCount
      invariant 0 <= i <= pixelCount
      invariant forall j :: 0 <= j < i ==> pixelBuffer[j] == color
    {
      pixelBuffer[i] := color;
      i := i + 1;
    }
    assert pixelBuffer[..] == SolidBuffer(color);
    var xOffset, yOffset := 2, 1;
    draws := [DrawCall(Window(xOffset, yOffset, xOffset + LCD_H_RES, yOffset + LCD_V_RES), pixelBuffer[..])];
    ret := env.offsetDraw;
    if ret != ESP_OK {
      draws := draws + [DrawCall(Window(0, 0, LCD_H_RES, LCD_V_RES), pixelBuffer[..])];
      ret := env.plainDraw;
      if ret != ESP_OK {
        return ret, draws;
      }
    }
    ret := ESP_OK;
  }

  /**
   * run_color_display_test: the eight colours in order, stopping at the
   * first fill that fails.  envs[i] is the platform's behaviour during the
   * i-th fill; attempted lists the colours fill_color was called with.
   */
  method RunColorDisplayTest(envs: seq<FillEnv>) returns (ret: EspErr, attempted: seq<bv16>)
    requires |envs| == |TEST_COLORS|
    ensures ret == ESP_OK <==> forall j :: 0 <= j < |TEST_COLORS| ==> FillOutcome(envs[j]) == ESP_OK
    ensures ret == ESP_OK ==> attempted == TEST_COLORS
    ensures ret != ESP_OK ==>
              && 1 <= |attempted| <= |TEST_COLORS|
              && attempted == TEST_COLORS[..|attempted|]
              && ret == FillOutcome(envs[|attempted| - 1])
              && forall j :: 0 <= j < |attempted| - 1 ==> FillOutcome(envs[j]) == ESP_OK
  {
    assert |TEST_COLORS| == 8;
    attempted := [];
    var i := 0;
    while i < 8
      invariant 0 <= i <= 8
      invariant attempted == TEST_COLORS[..i]
      invariant forall j :: 0 <= j < i ==> FillOutcome(envs[j]) == ESP_OK
    {
      assert TEST_COLORS[..i + 1] == TEST_COLORS[..i] + [TEST_COLORS[i]];
      attempted := attempted + [TEST_COLORS[i]];
      var r, draws := FillColor(TEST_COLORS[i], envs[i]);
      if r != ESP_OK {
        return r, attempted;
      }
      i := i + 1;
    }
    assert TEST_COLORS[..8] == TEST_COLORS;
    ret := ESP_OK;
  }

  /** The colour index after one turn of the cycle. */
  function NextColorIndex(index: nat): (next: nat)
    requires index < |CYCLE_COLORS|
    ensures next < |CYCLE_COLORS|
    ensures next == if index == |CYCLE_COLORS| - 1 then 0 else index + 1
  {
    (index + 1) % 5
  }

  /** The colour index after n turns, starting from 0. */
  function ColorIndexAfter(n: nat): (index: nat)
    ensures index < |CYCLE_COLORS|
  {
    if n == 0 then 0 else NextColorIndex(ColorIndexAfter(n - 1))
  }

  /** The cycle visits 0, 1, 2, 3, 4, 0, ... : after n turns the index is n mod 5. */
  lemma {:induction false} ColorIndexAfterIsMod(n: nat)
    ensures ColorIndexAfter(n) == n % |CYCLE_COLORS|
  {
    if n > 0 {
      ColorIndexAfterIsMod(n - 1);
    }
  }

  /**
   * One turn of app_main's endless loop: fill with the current colour,
   * whose result is ignored, then advance the index.
   */
  method CycleStep(colorIndex: nat, env: FillEnv) returns (next: nat, draws: seq<DrawCall>)
    requires colorIndex < |CYCLE_COLORS|
    ensures next == NextColorIndex(colorIndex)
    ensures draws == FillDraws(CYCLE_COLORS[colorIndex], env)
  {
    var colors := [0xF800, 0x07E0, 0x001F, 0xFFFF, 0x0000];
    var ignored;
    ignored, draws := FillColor(colors[colorIndex], env);
    next := (colorIndex + 1) % 5;
  }

  /**
   * The first |envs| turns of the endless loop, starting from index 0:
   * turns[k] lists the draws of the k-th turn.
   */
  method RunCycle(envs: seq<FillEnv>) returns (colorIndex: nat, turns: seq<seq<DrawCall>>)
    ensures colorIndex == ColorIndexAfter(|envs|)
    ensures |turns| == |envs|
    ensures forall k :: 0 <= k < |envs| ==>
              turns[k] == FillDraws(CYCLE_COLORS[k % |CYCLE_COLORS|], envs[k])
  {
    colorIndex := 0;
    turns := [];
    var i := 0;
    while i < |envs|
      invariant 0 <= i <= |envs|
      invariant colorIndex == ColorIndexAfter(i)
      invariant |turns| == i
      invariant forall k :: 0 <= k < i ==>
                  turns[k] == FillDraws(CYCLE_COLORS[k % |CYCLE_COLORS|], envs[k])
    {
      ColorIndexAfterIsMod(i);
      var draws;
      colorIndex, draws := CycleStep(colorIndex, envs[i]);
      turns := turns + [draws];
      i := i + 1;
    }
  }
}
