/**
 * The parts of the ESP-IDF platform that the demos talk to: error codes,
 * the rectangle passed to esp_lcd_panel_draw_bitmap, and the externally
 * visible calls a step of a demo makes (draws, frame returns, log lines).
 */
module Esp {

  /** esp_err_t is a plain C int. */
  type EspErr = int

  const ESP_OK: EspErr := 0
  const ESP_ERR_NO_MEM: EspErr := 0x101

  /** uint32_t counters wrap modulo this. */
  const U32_MODULUS: nat := 0x1_0000_0000

  /**
   * The arguments of esp_lcd_panel_draw_bitmap(panel, x_start, y_start, x_end, y_end, data):
   * the end coordinates are exclusive.
   */
  datatype Window = Window(xStart: int, yStart: int, xEnd: int, yEnd: int)
  {
    function Width(): int { xEnd - xStart }
    function Height(): int { yEnd - yStart }
  }

  /** Calls into the vendor drivers that a demo step makes, in order. */
  datatype Event =
    | DrawBitmap(window: Window)   // esp_lcd_panel_draw_bitmap
    | FrameReturned                // esp_camera_fb_return
    | LogInfo                      // ESP_LOGI on a branch the model keeps
    | LogWarning                   // ESP_LOGW
    | LogError                     // ESP_LOGE
}
