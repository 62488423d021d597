/** The RGB triple every palette of the generators returns. */
module Colour {
  datatype Rgb = Rgb(r: int, g: int, b: int)
}
