/** The drawing surface as the renderer sees it: the 2D context is
    replaced by the sequence of drawing commands it receives, and
    `ctx.measureText(s).width` under the current font by a measure function
    the caller supplies. */
module Canvas {

  /** `ctx.measureText(text).width` with `ctx.font == font`. */
  type Measure = (string, string) -> real

  datatype Align = Left | Center

  datatype DrawCmd =
      /** `fillRect` with `fillStyle == color` */
    | FillRect(x: int, y: int, w: int, h: int, color: string)
      /** `fillText(text, x, y)` with the font, colour and alignment set before it */
    | Text(text: string, x: int, y: int, font: string, color: string, align: Align)
      /** a stroked `moveTo`/`lineTo` path */
    | Line(x1: int, y1: int, x2: int, y2: int, color: string, width: int)
      /** `roundRect` filled with `fill` and, when present, stroked with `stroke` */
    | RoundRect(x: int, y: int, w: int, h: int, radius: int, fill: string, stroke: string)
      /** a filled circle (`arc` over the full turn) */
    | Dot(cx: int, cy: int, r: int, color: string)
      /** `drawImage` of the product photo, clipped to its rounded box */
    | Photo(px: real, py: real, pw: real, ph: real)
      /** `drawImage` of the QR code that encodes `payload` */
    | QrCode(payload: string, x: int, y: int, size: int)
}
