/**
 * The Rust explorer's per-fractal view record (`FractalViewState` in
 * rust-allmodels/src/main.rs) and the two enums it refers to. Floating-point
 * fields are exact `real`s; `max_iterations` (a `u32`) is a `nat`.
 */
module FractalView {

  datatype FractalType = Mandelbrot | Julia | BurningShip | Tricorn | Celtic | Newton | Biomorph

  /** Every fractal type, as the application lists them when it builds its initial views. */
  const AllFractalTypes: set<FractalType> := {Mandelbrot, Julia, BurningShip, Tricorn, Celtic, Newton, Biomorph}

  lemma AllFractalTypesComplete(t: FractalType)
    ensures t in AllFractalTypes
  {
  }

  datatype PaletteType = Classic | Fire | Ice | Grayscale | Psychedelic

  datatype FractalViewState = FractalViewState(
    centerX: real,
    centerY: real,
    zoom: real,
    maxIterations: nat,
    fractalParams: map<string, real>,
    paletteType: PaletteType)

  /** `FractalType::default_center` */
  function DefaultCenter(t: FractalType): (real, real)
  {
    match t
    case Mandelbrot => (-0.5, 0.0)
    case BurningShip => (-0.5, -0.5)
    case _ => (0.0, 0.0)
  }

  /** `FractalViewState::default()` (derived: zeros, no parameters, the default palette). */
  function DefaultView(): FractalViewState
  {
    FractalViewState(0.0, 0.0, 0.0, 0, map[], Classic)
  }
}
