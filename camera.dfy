/**
 * The camera driver's frame record (camera_fb_t) as a value.  The buffer is
 * the frame's bytes; its length is the record's len field.
 */
module Camera {

  /** PIXFORMAT_RGB565, or any other pixel format carried by its numeric code. */
  datatype PixelFormat = RGB565 | OtherFormat(code: int)

  datatype Frame = Frame(width: nat, height: nat, format: PixelFormat, buf: seq<bv8>)
  {
    /** camera_fb_t.len: the number of bytes in buf. */
    function Len(): nat { |buf| }
  }

  /**
   * The i-th pixel read through a uint16_t pointer on a little-endian
   * processor: byte 2i is the low half, byte 2i+1 the high half.
   */
  function PixelAt(buf: seq<bv8>, i: nat): bv16
    requires 2 * i + 1 < |buf|
  {
    ((buf[2 * i + 1] as bv16) << 8) | (buf[2 * i] as bv16)
  }
}
