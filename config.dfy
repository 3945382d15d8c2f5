/** The fixed configuration the generator reads (the CONFIG object of main.js).
    Only the entries the generation pipeline uses are modelled; lengths are in
    millimetres. JavaScript numbers are modelled as mathematical reals. */
module Config {

  /** Vertical distance between consecutive layers (1.5 inch). */
  const LAYER_SPACING: real := 38.1

  /** Circle radii are drawn from [MIN_RADIUS, MAX_RADIUS). */
  const MIN_RADIUS: real := 13.0
  const MAX_RADIUS: real := 61.0

  /** Number of anchor points in the shared triad. */
  const ANCHOR_POINTS: nat := 3

  /** The canvas is x in [-CANVAS_WIDTH/2, CANVAS_WIDTH/2], y in [0, CANVAS_HEIGHT]. */
  const CANVAS_WIDTH: real := 300.0
  const CANVAS_HEIGHT: real := 300.0

  /** Default buffer of the overlap test: a negative buffer lets two circles
      overlap by up to 5 mm. */
  const OVERLAP_BUFFER: real := -5.0

  /** Placement attempts per slot in one layer. */
  const ATTEMPTS: nat := 200

  /** Bounds of the requested per-layer circle count. */
  const MIN_CIRCLES: int := 8
  const MAX_CIRCLES: int := 15

  /** Number of layers in a composition. */
  const LAYER_COUNT: nat := 3

  /** Math.PI to 16 significant digits. */
  const PI: real := 3.141592653589793

  /** One palette entry: a name, an RGB value and an opacity. */
  datatype Color = Color(name: string, hex: int, opacity: real)

  const COLORS: seq<Color> := [
    Color("yellow", 0xFFEB3B, 0.6),
    Color("orange", 0xFF9800, 0.6),
    Color("pink", 0xF48FB1, 0.6),
    Color("blue", 0x64B5F6, 0.6),
    Color("purple", 0xBA68C8, 0.6),
    Color("gray", 0x9E9E9E, 0.6)
  ]
}
