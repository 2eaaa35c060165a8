# CameraInLCD — a verified model of the frame-handling core

CameraInLCD is a set of ESP32 demo programs that connect a DVP camera sensor to an SPI LCD panel. Almost all of each program is vendor driver calls. This project models the logic between those calls, in Dafny:

- **`DvpLcd`** (`main/dvp_lcd_main.c`) accepts only a 160x120 RGB565 camera frame. It crops the frame horizontally to 128 columns, starting at column 16. It stretches the 120 rows to 160 by nearest-neighbour row selection, `src_y = dst_y * 120 / 160`. The result goes into a 128x160 `uint16_t` display buffer, modelled as an `array<bv16>`. The model proves the following:
  - every read stays inside the source frame;
  - every write stays inside the buffer;
  - every one of the 20480 destination pixels has an exact formula;
  - a rejected frame leaves the buffer untouched.
- **`CameraTest`** (`main/camera_test.c`) runs a ten-frame capture test:
  - it counts black (0x0000) and white (0xFFFF) pixels;
  - it checks each frame against the expected 320x240, 153600-byte RGB565 shape;
  - it tallies successful and failed captures;
  - it classifies the run as PASSED, MOSTLY PASSED or FAILED.
- **`DvpIspDsi`** (`main/dvp_isp_dsi_main.c`) is a class that holds the byte display buffer and the accepted-frame counter:
  - the buffer is first cleared to 0xFF;
  - a frame is copied in (as `memcpy` does) only if it is RGB565 and no longer than the buffer;
  - a rejected frame changes nothing;
  - `frame_count` is a `uint32_t` that counts accepted frames and wraps at 2^32.
- **`St7735sTest`** (`main/st7735s_official_test.c`) covers three pieces:
  - `fill_color` fills a 128x160 buffer with one colour, draws it to the (2,1) offset window, and falls back to the unoffset window if that draw fails;
  - the eight-colour test stops at the first failed fill;
  - the colour index cycles modulo 5.
- Shared modules:
  - `Esp` holds `esp_err_t` codes, draw windows and the vendor calls a step makes;
  - `Camera` holds `camera_fb_t` as a `Frame` value and the little-endian `uint16_t` view of its bytes;
  - `Wrappers` holds `Option`, which stands for a pointer that may be NULL.

Calls into the vendor drivers are inputs or outputs of the model, never code:

- what `esp_camera_fb_get` returns is an `Option<Frame>`;
- whether `heap_caps_malloc` succeeds, and what each `esp_lcd_panel_draw_bitmap` returns, are parameters (`FillEnv`, `allocOk`);
- the draws, frame returns and selected log lines a step produces come back as an `Event` or `DrawCall` list. In `CameraTest` that list is one event per attempt: `esp_camera_fb_return` for a captured frame, or the capture-failure error log.

Each endless `while (1)` loop is modelled as one iteration (`PreviewStep`, `Display.Step`, `CycleStep`). `Display.Run` and `RunCycle` repeat the steps of the last two over a finite run, and are proved to end where the run functions say. For `Display.Run`, `CountAfter` gives the counter and `BufferAfter` the buffer. For `RunCycle`, `ColorIndexAfter` gives the index, and each turn's draws are `FillDraws` of the colour at that turn.

`dvp_lcd_main.c` resamples only 160x120 RGB565 frames (line 220); every other frame takes the warning branch.

## Model

| member | source | states |
|---|---|---|
| `DvpLcd.SourceRow` | main/dvp_lcd_main.c:230-232 | For every display row below 160, the sampled source row is below 120. It is the floor of dst_y*120/160: srcY*160 <= dstY*120 < (srcY+1)*160. |
| `DvpLcd.SourceRowMonotone` | main/dvp_lcd_main.c:230-232 | The row mapping never decreases as dst_y grows. |
| `DvpLcd.SourceColumn` | main/dvp_lcd_main.c:228-235 | The crop starts at (160-128)/2 = 16. Every source column 16+dst_x lies in [16,144), inside the 160-pixel row. |
| `DvpLcd.SourceIndex` | main/dvp_lcd_main.c:235-237 | The read index src_y*160+src_x is below 160*120 (the source pixel count). It names row SourceRow(dst_y), column 16+dst_x. |
| `DvpLcd.DestIndex` | main/dvp_lcd_main.c:233-236 | The write index dst_y*128+dst_x is below 128*160 (the buffer allocated at main/dvp_lcd_main.c:199-200). It decomposes back into (dst_y, dst_x). |
| `DvpLcd.Stretched` | main/dvp_lcd_main.c:230-239 | The display image built from a 160x120 source has exactly 20480 pixels. |
| `DvpLcd.StretchedAt` | main/dvp_lcd_main.c:230-239 | dst[y*128+x] == src[(y*120/160)*160 + 16 + x] for every display pixel. |
| `DvpLcd.DestIndexCovers` | main/dvp_lcd_main.c:230-236 | Every buffer index is written at some (dst_y, dst_x), so the loop overwrites the whole buffer. |
| `DvpLcd.Resample` | main/dvp_lcd_main.c:224-239 | After the nested loop, the buffer equals the stretched image, pixel by pixel. |
| `DvpLcd.AllocateFrameBuffer` | main/dvp_lcd_main.c:199-205 | A buffer exists exactly when the allocation succeeds. It is fresh and holds 128*160*2 bytes. |
| `DvpLcd.PreviewStep` | main/dvp_lcd_main.c:215-255 | A 160x120 RGB565 frame is resampled, drawn to (0,0)-(128,160) and returned to the camera. Any other frame leaves the buffer unchanged: a warning, then the frame is returned. A failed capture leaves the buffer unchanged and logs an error. |
| `CameraTest.Pixels` | main/camera_test.c:172-173 | The uint16_t view of the frame bytes: pixel i is the little-endian word at bytes 2i and 2i+1. |
| `CameraTest.CountPixel` | main/camera_test.c:176-181 | The count of pixels equal to a value never exceeds the number of pixels scanned. |
| `CameraTest.CountPixelIsCardinality` | main/camera_test.c:176-181 | The count equals the number of indices i < total_pixels whose pixel has that value. |
| `CameraTest.BlackWhiteBounded` | main/camera_test.c:178-181 | zero_pixels + max_pixels <= total_pixels. |
| `CameraTest.FrameAnalysis` | main/camera_test.c:171-188 | Analysis takes place exactly when len > 0, with total_pixels = len/2. It gives the black and white counts as index-set cardinalities and their bound. It samples the first min(4, total) pixels. |
| `CameraTest.AnalysePixels` | main/camera_test.c:171-189 | The counting loop gives exactly the statistics of FrameAnalysis. |
| `CameraTest.SampleGuardGap` | main/camera_test.c:171-188 | As written, the sample reads of pixels 0..3 stay inside the frame exactly when len >= 8. The len > 0 guard does not ensure this. |
| `CameraTest.SampleOverreadExample` | main/camera_test.c:171-188 | len = 2 passes the guard, yet the sample reads past the frame. |
| `CameraTest.ValidatedFrameSampleInBounds` | main/camera_test.c:171-188 | A frame of the shape that validation (lines 263-278) accepts is analysed as exactly 320*240 pixels, and the sample reads of pixels 0..3 stay inside it. |
| `CameraTest.ValidateFrame` | main/camera_test.c:259-282 | validation_passed holds iff format==RGB565, width==320, height==240 and len==320*240*2. Each failing check logs its own warning, and no warning is logged iff validation passes. |
| `CameraTest.ValidationWarnings` | main/camera_test.c:262-278 | No warning is logged exactly for the expected shape. At most three warnings are logged. |
| `CameraTest.DetailedFramesOfRun` | main/camera_test.c:252 | Of frames 1..10, detailed info is printed for exactly 1, 2, 3, 5 and 10. |
| `CameraTest.Report` | main/camera_test.c:247-288 | A frame is reported as captured iff esp_camera_fb_get returned one. Detailed analysis is attached iff frame_num <= 3 or frame_num % 5 == 0. |
| `CameraTest.FrameEvent` | main/camera_test.c:284-287 | A frame goes back to the driver iff the capture returned one. A failed capture is logged as an error instead. |
| `CameraTest.FrameEvents` | main/camera_test.c:241-292 | One event per attempt, in order. esp_camera_fb_return occurs exactly as many times as there are successful captures. |
| `CameraTest.CapturedCount` | main/camera_test.c:248-249 | The number of successful captures never exceeds the number of attempts. |
| `CameraTest.CapturedCountAll` | main/camera_test.c:302-303 | The success count equals the number of attempts iff every capture returned a frame. |
| `CameraTest.Classify` | main/camera_test.c:302-308 | PASSED iff successful == total. MOSTLY PASSED iff successful > 0.9*total but not equal. FAILED otherwise. |
| `CameraTest.TenFrameVerdict` | main/camera_test.c:302-308 | With total = 10 and successful <= 10, MOSTLY PASSED is unreachable, and FAILED holds iff a capture failed. |
| `CameraTest.TestFrame` | main/camera_test.c:247-288 | One loop body produces the frame's report, and either returns the frame to the driver or logs the failed capture. |
| `CameraTest.CaptureTest` | main/camera_test.c:235-308 | Before each iteration, successful + failed == frame_num - 1. At the end: the sum is 10; successful is the number of frames captured; each frame has its report; every captured frame is returned to the driver, so there are exactly `successful` returns; the verdict is PASSED iff all ten captures succeeded and is never MOSTLY PASSED. |
| `DvpIspDsi.FrameBufferSize` | main/dvp_isp_dsi_main.c:191 | H*V*16/8 equals the allocated H*V*sizeof(uint16_t) of main/dvp_isp_dsi_main.c:137. |
| `DvpIspDsi.NextFrameCount` | main/dvp_isp_dsi_main.c:223 | frame_count++ on a uint32_t adds exactly 1, except that 2^32-1 wraps to 0. |
| `DvpIspDsi.Copied` | main/dvp_isp_dsi_main.c:217 | After memcpy, the first len bytes are the frame's and every later byte keeps its old value. |
| `DvpIspDsi.CountAfter` | main/dvp_isp_dsi_main.c:210-238 | The counter stays a valid uint32_t over any run of the capture loop. |
| `DvpIspDsi.AcceptedCount` | main/dvp_isp_dsi_main.c:215 | The number of accepted frames never exceeds the number of capture results. |
| `DvpIspDsi.CountAfterIsAcceptedCount` | main/dvp_isp_dsi_main.c:210-226 | frame_count after a run equals the number of accepted frames modulo 2^32. |
| `DvpIspDsi.BufferAfter` | main/dvp_isp_dsi_main.c:210-238 | The buffer keeps its length over any run; each accepted frame is copied over it in turn. |
| `DvpIspDsi.BufferAfterNoneAccepted` | main/dvp_isp_dsi_main.c:215-217 | A run in which the guard accepts no frame leaves the buffer unchanged. |
| `DvpIspDsi.BufferAfterLastAccepted` | main/dvp_isp_dsi_main.c:215-217 | If the run's last result is an accepted frame, the buffer then starts with exactly that frame's bytes. |
| `DvpIspDsi.Display.PanelWindow` | main/dvp_isp_dsi_main.c:206 | The draw window starts at (0,0) and is exactly H_RES x V_RES. |
| `DvpIspDsi.Display.constructor` | main/dvp_isp_dsi_main.c:137-142 | A fresh buffer of frame_buffer_size bytes, with frame_count == 0. |
| `DvpIspDsi.Display.ClearToWhite` | main/dvp_isp_dsi_main.c:201-206 | Every buffer byte is 0xFF, and the white frame is drawn to the full panel. |
| `DvpIspDsi.Display.Step` | main/dvp_isp_dsi_main.c:211-238 | An RGB565 frame with len <= frame_buffer_size is copied into the buffer's first len bytes. frame_count then advances by one, wrapping at 2^32. The frame is drawn, an info log fires iff frame_count % 30 == 0, and the frame is returned. A rejected frame or a failed capture leaves the buffer and frame_count unchanged. |
| `DvpIspDsi.Display.Run` | main/dvp_isp_dsi_main.c:210-238 | Running the loop body once per capture result leaves frame_count at CountAfter of the old count, which is the old count plus the accepted frames, modulo 2^32. The buffer ends as BufferAfter of the old buffer: every accepted frame copied in, in order. |
| `St7735sTest.OffsetWindow` | main/st7735s_official_test.c:216-226 | The first draw window starts at (2,1) and spans exactly 128x160. |
| `St7735sTest.PlainWindow` | main/st7735s_official_test.c:230-233 | The fallback window starts at (0,0) and spans exactly 128x160. |
| `St7735sTest.FillOutcome` | main/st7735s_official_test.c:203-246 | Returns ESP_ERR_NO_MEM when allocation fails. Otherwise returns ESP_OK iff either draw succeeds, and the second draw's error when both fail. |
| `St7735sTest.SolidBuffer` | main/st7735s_official_test.c:200-212 | All pixel_count = 128*160 entries equal the colour. |
| `St7735sTest.FillDraws` | main/st7735s_official_test.c:215-242 | No draw without a buffer. Otherwise the offset draw, then the unoffset draw only if the first failed. Every draw is of a solid buffer of the colour. |
| `St7735sTest.FillColor` | main/st7735s_official_test.c:195-247 | The fill loop and the draws give exactly FillOutcome's code and FillDraws' calls. |
| `St7735sTest.RunColorDisplayTest` | main/st7735s_official_test.c:250-287 | ESP_OK iff all eight fills succeed, in which case the eight colours were filled in order. Otherwise the colours were tried in order up to the first failing fill, and its error is returned. |
| `St7735sTest.NextColorIndex` | main/st7735s_official_test.c:328 | color_index stays in [0,5) and moves to the next index, or from 4 back to 0. |
| `St7735sTest.ColorIndexAfter` | main/st7735s_official_test.c:322-328 | After any number of turns, the index is in [0,5). |
| `St7735sTest.ColorIndexAfterIsMod` | main/st7735s_official_test.c:322-328 | After n turns the index is n mod 5, so it visits 0,1,2,3,4,0,... in order. |
| `St7735sTest.CycleStep` | main/st7735s_official_test.c:324-330 | One turn fills with colors[color_index], ignores the result, and advances the index. |
| `St7735sTest.RunCycle` | main/st7735s_official_test.c:320-330 | After n turns from index 0, the index is ColorIndexAfter(n). Turn k makes exactly fill_color's draws for colors[k mod 5]: none if allocation fails, otherwise the offset draw plus the fallback when needed. |

## Findings

| source | as written | input that shows it | evidently intended | confidence | as-written member | corrected member |
|---|---|---|---|---|---|---|
| main/camera_test.c:171-188 | The guard `fb->len > 0` admits any non-empty frame, then the sample log reads `pixel_data[0..3]`. | len = 2: total_pixels = 1, but pixels 1, 2 and 3 lie past the frame's len bytes. | Log only pixels that exist: min(4, total_pixels) of them, or guard on len >= 8. | not executed; the driver's buffer is probably larger than len, so the read likely logs stale bytes | `CameraTest.SampleGuardGap`, `CameraTest.SampleOverreadExample` | `CameraTest.FrameAnalysis` |

## Left out

- Camera, SPI bus, panel IO, panel driver and GPIO/backlight initialisation (`camera_init`, `example_camera_init`, `init_lcd_panel`, `init_st7735s_lcd`, `example_spi_lcd_init`, `init_backlight`, `debug_gpio_status`): these are configuration structs and vendor calls whose code is not part of this model.
- Sensor setter calls, including the null-checked optional setters in `main/camera_test.c`: they only call or warn on foreign function pointers.
- `vTaskDelay` and all FreeRTOS timing and frame-rate pacing: the model has no clock.
- `esp_cache_msync`, DMA/PSRAM placement and `heap_caps_get_info` memory reporting: these are platform side effects, and the MB/KB and percentage printouts are floating point.
- The text of every `ESP_LOGx` line and the timestamp in `print_camera_frame_info`: only the branch that selects a log is kept, as an `Event` (a `LogInfo`, `LogWarning` or `LogError`) or a `Warning`.
- Endless repetition of each `while (1)` loop: one iteration is modelled, and `Display.Run` and `RunCycle` cover finite runs of any length, counter, buffer and draws included. `DvpLcd.PreviewStep` has no run method.
- `main/example_config.h`: only its `EXAMPLE_RGB565_BITS_PER_PIXEL` (16) is used. `EXAMPLE_LCD_H_RES` and `EXAMPLE_LCD_V_RES` are commented out there, so `DvpIspDsi.Display` takes the resolution as positive parameters.
- A NULL `buf` pointer in a returned frame is not representable: `Frame.buf` is a byte sequence whose length is `len`. The `fb->buf != NULL` half of the guard in `main/camera_test.c:171` therefore always holds in the model.
- `DvpLcd.PreviewStep` and `DvpLcd.Resample`: `dvp_lcd_main.c` checks width, height and format, but never `len`, before reading up to word 19183 of the 19200-word frame. The model requires that an accepted 160x120 RGB565 frame holds at least 160*120*2 bytes, which is the driver's guarantee. Rejected frames may have any length.
- `DvpIspDsi.Display.constructor`: if the buffer allocation in `example_spi_lcd_init` fails, `ESP_ERROR_CHECK` aborts the program. That abort is not modelled; the constructor models the successful allocation only.
- `CameraTest.Classify`: `successful > total * 0.9` is computed in C double precision, while the model uses exact reals. For total = 10 both sides give the same answer for every count 0..10. Other totals are not claimed to match the rounded comparison.
- `free(pixel_buffer)` in `fill_color` and the buffer lifetimes: memory release is not modelled.
- The early returns of `app_main` in `main/st7735s_official_test.c` (lines 307-316) when panel initialisation fails or the colour test fails: only the colour test's return code (`RunColorDisplayTest`) and the cycle are modelled.
- `debug_gpio_status` and the GPIO level reads: these are hardware reads whose values are only logged.
