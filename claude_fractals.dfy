/**
 * The factory and the integer bookkeeping of
 * python-claude-opus-4.5/fractal_generator/fractals.py: the registry of
 * fractal classes with its cache of instances, the parameter clamps, and
 * the integer results the Newton, orbit-trap and Buddhabrot fractals return.
 *
 * Floating point is modelled as exact real arithmetic. The orbit
 * `z := z * z + c` of the orbit-trap and Buddhabrot fractals is computed
 * exactly. The complex powers and divisions of Newton's method are not
 * modelled: what one Newton iteration observes is the parameter `event(i)`.
 * The distance to an orbit trap (which takes square roots for most trap
 * shapes) is the parameter `dist(z_real, z_imag)`.
 */
module ClaudeFractalsModel {
  import opened Wrappers
  import opened Numeric

  // ---------------------------------------------------------------
  // `FractalFactory`
  // ---------------------------------------------------------------

  /** A fractal class; what the factory sees of it is the `name` its instances report. */
  datatype FractalKind = FractalKind(displayName: string)

  /** An instance handed out by `create`; its parameters are not modelled here. */
  class FractalObject {
    const kind: FractalKind

    constructor(kind: FractalKind)
      ensures this.kind == kind
    {
      this.kind := kind;
    }
  }

  /** The internal key `create` settles on: the name itself, or the first key whose class shows that name. */
  function ResolveFrom(keys: seq<string>, registry: map<string, FractalKind>, name: string, i: nat): (k: Option<string>)
    requires forall j :: 0 <= j < |keys| ==> keys[j] in registry
    requires i <= |keys|
    ensures k.Some? ==> k.value in registry && registry[k.value].displayName == name
    ensures k.Some? ==> exists j :: (i <= j < |keys| && keys[j] == k.value
      && forall j' :: i <= j' < j ==> registry[keys[j']].displayName != name)
    ensures k.None? <==> forall j :: i <= j < |keys| ==> registry[keys[j]].displayName != name
    decreases |keys| - i
  {
    if i == |keys| then None
    else if registry[keys[i]].displayName == name then Some(keys[i])
    else ResolveFrom(keys, registry, name, i + 1)
  }

  /** `create`'s choice of key: an exact key first, otherwise a display name in registration order. */
  function Resolve(keys: seq<string>, registry: map<string, FractalKind>, name: string): (k: Option<string>)
    requires forall j :: 0 <= j < |keys| ==> keys[j] in registry
    ensures name in registry ==> k == Some(name)
    ensures k.Some? ==> k.value in registry
    ensures k.None? <==> name !in registry && forall j :: 0 <= j < |keys| ==> registry[keys[j]].displayName != name
  {
    if name in registry then Some(name) else ResolveFrom(keys, registry, name, 0)
  }

  /** The built-in registrations, in the order the module makes them. */
  const BuiltinKeys: seq<string> := ["mandelbrot", "julia", "burning_ship", "tricorn", "celtic", "buffalo",
    "perpendicular", "lambda", "multibrot", "phoenix", "newton", "sine", "orbit_trap", "buddhabrot"]

  /** The factory holds exactly its registry and cache. */
  class FractalFactory {
    var keys: seq<string>
    var registry: map<string, FractalKind>
    var instances: map<string, FractalObject>

    predicate Valid()
      reads this
    {
      && (forall i, j :: 0 <= i < j < |keys| ==> keys[i] != keys[j])
      && (forall j :: 0 <= j < |keys| ==> keys[j] in registry)
      && (forall k :: k in registry ==> k in keys)
      && instances.Keys <= registry.Keys
    }

    /** An empty registry and cache. */
    constructor()
      ensures Valid() && keys == [] && registry == map[] && instances == map[]
    {
      keys := [];
      registry := map[];
      instances := map[];
    }

    /** `register(name, fractal_class)`: a dict assignment; a new key goes last. */
    method Register(name: string, kind: FractalKind)
      requires Valid()
      modifies this
      ensures Valid()
      ensures registry == old(registry)[name := kind]
      ensures keys == if name in old(registry) then old(keys) else old(keys) + [name]
      ensures instances == old(instances)
    {
      if name !in registry {
        keys := keys + [name];
      }
      registry := registry[name := kind];
    }

    /**
     * `create(name)`: `None` when neither a key nor a display name matches;
     * otherwise the cached instance for the key, made on first use.
     */
    method Create(name: string) returns (r: Option<FractalObject>)
      requires Valid()
      modifies this
      ensures Valid()
      ensures keys == old(keys) && registry == old(registry)
      ensures var k := Resolve(keys, registry, name);
        && (k.None? ==> r.None? && instances == old(instances))
        && (k.Some? && k.value in old(instances) ==> r == Some(old(instances)[k.value]) && instances == old(instances))
        && (k.Some? && k.value !in old(instances) ==>
              r.Some? && fresh(r.value) && r.value.kind == registry[k.value]
              && instances == old(instances)[k.value := r.value])
    {
      var key := name;
      if name !in registry {
        var i := 0;
        var found: Option<string> := None;
        while i < |keys| && found.None?
          invariant 0 <= i <= |keys|
          invariant found.None? ==> ResolveFrom(keys, registry, name, 0) == ResolveFrom(keys, registry, name, i)
          invariant found.Some? ==> found == ResolveFrom(keys, registry, name, 0)
        {
          if registry[keys[i]].displayName == name {
            found := Some(keys[i]);
          }
          i := i + 1;
        }
        if found.None? {
          return None;
        }
        key := found.value;
      }
      if key !in instances {
        var made := new FractalObject(registry[key]);
        instances := instances[key := made];
      }
      r := Some(instances[key]);
    }

    /** `get_available()`: each key with the display name of its class. */
    function GetAvailable(): (m: map<string, string>)
      reads this
      ensures m.Keys == registry.Keys
      ensures forall k :: k in m ==> m[k] == registry[k].displayName
    {
      map k | k in registry :: registry[k].displayName
    }

    /** `reset_instance(name)`: drop the cached instance, if any. */
    method ResetInstance(name: string)
      requires Valid()
      modifies this
      ensures Valid()
      ensures keys == old(keys) && registry == old(registry)
      ensures instances == old(instances) - {name}
    {
      if name in instances {
        instances := instances - {name};
      }
    }
  }

  /** Two `create` calls with the same name hand out the same instance. */
  method CreateTwice(f: FractalFactory, name: string) returns (a: Option<FractalObject>, b: Option<FractalObject>)
    requires f.Valid()
    modifies f
    ensures f.Valid()
    ensures a == b
    ensures a.None? <==> Resolve(f.keys, f.registry, name).None?
  {
    a := f.Create(name);
    b := f.Create(name);
  }

  /** After `reset_instance`, the next `create` makes a new instance. */
  method ResetThenCreate(f: FractalFactory, name: string) returns (r: Option<FractalObject>)
    requires f.Valid() && name in f.registry
    modifies f
    ensures f.Valid() && f.registry == old(f.registry)
    ensures r.Some? && fresh(r.value) && r.value.kind == f.registry[name]
  {
    f.ResetInstance(name);
    r := f.Create(name);
  }

  /** The fourteen `register` calls the module makes, in order, as `(key, class)` pairs applied to `registry`. */
  function BuiltinRegistrations(registry: map<string, FractalKind>): map<string, FractalKind>
  {
    registry["mandelbrot" := FractalKind("Mandelbrot")]["julia" := FractalKind("Julia")]
      ["burning_ship" := FractalKind("Burning Ship")]["tricorn" := FractalKind("Tricorn")]
      ["celtic" := FractalKind("Celtic")]["buffalo" := FractalKind("Buffalo")]
      ["perpendicular" := FractalKind("Perpendicular")]["lambda" := FractalKind("Lambda")]
      ["multibrot" := FractalKind("Multibrot")]["phoenix" := FractalKind("Phoenix")]
      ["newton" := FractalKind("Newton z\U{B3}-1")]["sine" := FractalKind("Sine")]
      ["orbit_trap" := FractalKind("Orbit Trap")]["buddhabrot" := FractalKind("Buddhabrot")]
  }

  /** The factory as the module leaves it after its fourteen `register` calls. */
  method BuiltinFactory() returns (f: FractalFactory)
    ensures f.Valid() && fresh(f)
    ensures f.registry == BuiltinRegistrations(map[])
    ensures f.instances == map[]
  {
    f := new FractalFactory();
    f.Register("mandelbrot", FractalKind("Mandelbrot"));
    f.Register("julia", FractalKind("Julia"));
    f.Register("burning_ship", FractalKind("Burning Ship"));
    f.Register("tricorn", FractalKind("Tricorn"));
    f.Register("celtic", FractalKind("Celtic"));
    f.Register("buffalo", FractalKind("Buffalo"));
    f.Register("perpendicular", FractalKind("Perpendicular"));
    f.Register("lambda", FractalKind("Lambda"));
    f.Register("multibrot", FractalKind("Multibrot"));
    f.Register("phoenix", FractalKind("Phoenix"));
    f.Register("newton", FractalKind("Newton z\U{B3}-1"));
    f.Register("sine", FractalKind("Sine"));
    f.Register("orbit_trap", FractalKind("Orbit Trap"));
    f.Register("buddhabrot", FractalKind("Buddhabrot"));
  }

  /** Every built-in key is registered, whatever the registry held before. */
  lemma BuiltinKeysRegistered(registry: map<string, FractalKind>)
    ensures forall i :: 0 <= i < |BuiltinKeys| ==> BuiltinKeys[i] in BuiltinRegistrations(registry)
  {
    var m := BuiltinRegistrations(registry);
    assert "mandelbrot" in m && "julia" in m && "burning_ship" in m && "tricorn" in m;
    assert "celtic" in m && "buffalo" in m && "perpendicular" in m && "lambda" in m;
    assert "multibrot" in m && "phoenix" in m && "newton" in m && "sine" in m;
    assert "orbit_trap" in m && "buddhabrot" in m;
    BuiltinKeysIn(m);
  }

  /** A registry holding the fourteen built-in keys, written out, holds every entry of `BuiltinKeys`. */
  lemma BuiltinKeysIn(registry: map<string, FractalKind>)
    requires "mandelbrot" in registry && "julia" in registry && "burning_ship" in registry
    requires "tricorn" in registry && "celtic" in registry && "buffalo" in registry
    requires "perpendicular" in registry && "lambda" in registry && "multibrot" in registry
    requires "phoenix" in registry && "newton" in registry && "sine" in registry
    requires "orbit_trap" in registry && "buddhabrot" in registry
    ensures forall i :: 0 <= i < |BuiltinKeys| ==> BuiltinKeys[i] in registry
  {
    forall i | 0 <= i < |BuiltinKeys|
      ensures BuiltinKeys[i] in registry
    {
      var keys := BuiltinKeys;
      if i < 7 {
        if i == 0 { assert keys[i] == "mandelbrot"; }
        else if i == 1 { assert keys[i] == "julia"; }
        else if i == 2 { assert keys[i] == "burning_ship"; }
        else if i == 3 { assert keys[i] == "tricorn"; }
        else if i == 4 { assert keys[i] == "celtic"; }
        else if i == 5 { assert keys[i] == "buffalo"; }
        else { assert keys[i] == "perpendicular"; }
      } else {
        if i == 7 { assert keys[i] == "lambda"; }
        else if i == 8 { assert keys[i] == "multibrot"; }
        else if i == 9 { assert keys[i] == "phoenix"; }
        else if i == 10 { assert keys[i] == "newton"; }
        else if i == 11 { assert keys[i] == "sine"; }
        else if i == 12 { assert keys[i] == "orbit_trap"; }
        else { assert keys[i] == "buddhabrot"; }
      }
    }
  }

  // ---------------------------------------------------------------
  // Parameter clamps
  // ---------------------------------------------------------------

  /** `NewtonFractal`'s exponent; `set_parameter` keeps it at least 2. */
  class NewtonFractal {
    var power: int

    predicate Valid() reads this { power >= 2 }

    constructor()
      ensures Valid() && power == 3
    {
      power := 3;
    }

    /** `set_parameter('power', v)` stores `max(2, int(v))`; other names are ignored. */
    method SetParameter(name: string, value: real)
      modifies this
      ensures Valid()
      ensures name == "power" ==> power == Max(2, Trunc(value))
      ensures name != "power" ==> power == old(power)
      requires Valid()
    {
      if name == "power" {
        power := Max(2, Trunc(value));
      }
    }
  }

  /** `BuddhabrotFractal`'s settings; `set_parameter` keeps both at least 1. */
  class BuddhabrotFractal {
    var minIter: int
    var sampleDensity: int

    predicate Valid() reads this { minIter >= 1 && sampleDensity >= 1 }

    constructor()
      ensures Valid() && minIter == 20 && sampleDensity == 1
    {
      minIter := 20;
      sampleDensity := 1;
    }

    /** `set_parameter`: `min_iter` and `sample_density` store `max(1, int(v))`. */
    method SetParameter(name: string, value: real)
      requires Valid()
      modifies this
      ensures Valid()
      ensures name == "min_iter" ==> minIter == Max(1, Trunc(value)) && sampleDensity == old(sampleDensity)
      ensures name == "sample_density" ==> sampleDensity == Max(1, Trunc(value)) && minIter == old(minIter)
      ensures name != "min_iter" && name != "sample_density" ==> minIter == old(minIter) && sampleDensity == old(sampleDensity)
    {
      if name == "min_iter" {
        minIter := Max(1, Trunc(value));
      } else if name == "sample_density" {
        sampleDensity := Max(1, Trunc(value));
      }
    }

    /**
     * `calculate(x, y, max_iter)`: the first iteration at which the orbit of
     * `c = x + iy` leaves the radius-2 disc, when that is after `min_iter`;
     * `0` otherwise.
     */
    method Calculate(x: real, y: real, maxIter: int) returns (r: int)
      requires Valid()
      ensures r == BuddhabrotScore(FirstEscape(x, y, Max(0, maxIter)), minIter)
    {
      var z := Point(0.0, 0.0);
      var i := 0;
      while i < maxIter
        invariant 0 <= i <= Max(0, maxIter)
        invariant z == Orbit(x, y, i)
        invariant FirstEscape(x, y, Max(0, maxIter)) == FirstEscapeFrom(x, y, i, Max(0, maxIter))
      {
        FirstEscapeStep(x, y, i, Max(0, maxIter));
        if NormSq(z) > 4.0 {
          if i > minIter {
            return i;
          } else {
            return 0;
          }
        }
        z := Iterate(z, x, y);
        i := i + 1;
      }
      return 0;
    }
  }

  // ---------------------------------------------------------------
  // The escape-time orbit
  // ---------------------------------------------------------------

  /** A point of the complex plane. */
  datatype Point = Point(re: real, im: real)

  /** `z_i` for `z_0 = 0`, `z_{i+1} = z_i * z_i + c`. */
  function Orbit(cr: real, ci: real, i: nat): Point
  {
    if i == 0 then Point(0.0, 0.0) else Iterate(Orbit(cr, ci, i - 1), cr, ci)
  }

  /** `z * z + c`. */
  function Iterate(z: Point, cr: real, ci: real): Point
  {
    Point(z.re * z.re - z.im * z.im + cr, 2.0 * z.re * z.im + ci)
  }

  /** `|z|^2`. */
  function NormSq(z: Point): real
  {
    z.re * z.re + z.im * z.im
  }

  /** `z_i` lies outside the radius-2 disc. */
  predicate Escaped(cr: real, ci: real, i: nat)
  {
    NormSq(Orbit(cr, ci, i)) > 4.0
  }

  /** The first `i` in `from .. n - 1` with `z_i` outside the disc. */
  function FirstEscapeFrom(cr: real, ci: real, from: nat, n: nat): (e: Option<nat>)
    requires from <= n
    ensures e.Some? ==> from <= e.value < n && Escaped(cr, ci, e.value)
    ensures e.Some? ==> forall j :: from <= j < e.value ==> !Escaped(cr, ci, j)
    ensures e.None? ==> forall j :: from <= j < n ==> !Escaped(cr, ci, j)
    decreases n - from
  {
    if from == n then None
    else if Escaped(cr, ci, from) then Some(from)
    else FirstEscapeFrom(cr, ci, from + 1, n)
  }

  /** The first of the `n` iterations at which the orbit has escaped; the orbit never escapes at step 0. */
  function FirstEscape(cr: real, ci: real, n: nat): Option<nat>
  {
    FirstEscapeFrom(cr, ci, 0, n)
  }

  /** One step of the search for the first escape. */
  lemma FirstEscapeStep(cr: real, ci: real, i: nat, n: nat)
    requires i < n
    ensures Escaped(cr, ci, i) ==> FirstEscapeFrom(cr, ci, i, n) == Some(i)
    ensures !Escaped(cr, ci, i) ==> FirstEscapeFrom(cr, ci, i, n) == FirstEscapeFrom(cr, ci, i + 1, n)
  {
  }

  /** `z_0 = 0` lies inside the disc, so the first escape, if any, is at step 1 or later. */
  lemma FirstEscapePositive(cr: real, ci: real, n: nat)
    ensures FirstEscape(cr, ci, n).Some? ==> FirstEscape(cr, ci, n).value >= 1
  {
    assert NormSq(Orbit(cr, ci, 0)) == 0.0;
  }

  /** Buddhabrot's integer result for a given first escape. */
  function BuddhabrotScore(escape: Option<nat>, minIter: int): (r: int)
    ensures r == 0 || (escape.Some? && r == escape.value && r > minIter)
    ensures escape.Some? && escape.value > minIter ==> r == escape.value
  {
    if escape.Some? && escape.value > minIter then escape.value else 0
  }

  /** The score of an escape found among `n` iterations. */
  lemma ScoreOf(e: Option<nat>, n: nat, minIter: int)
    requires minIter >= 1
    requires e.Some? ==> e.value < n
    ensures 0 <= BuddhabrotScore(e, minIter) < Max(1, n)
    ensures BuddhabrotScore(e, minIter) != 0 ==> e.Some? && BuddhabrotScore(e, minIter) == e.value > minIter
  {
  }

  /** Buddhabrot returns 0 unless the orbit escapes after more than `min_iter` steps, and never reaches `max_iter`. */
  lemma BuddhabrotBounds(x: real, y: real, maxIter: int, minIter: int)
    requires minIter >= 1
    ensures 0 <= BuddhabrotScore(FirstEscape(x, y, Max(0, maxIter)), minIter) < Max(1, maxIter)
    ensures BuddhabrotScore(FirstEscape(x, y, Max(0, maxIter)), minIter) != 0 ==>
      minIter < BuddhabrotScore(FirstEscape(x, y, Max(0, maxIter)), minIter)
    ensures BuddhabrotScore(FirstEscape(x, y, Max(0, maxIter)), minIter) != 0 ==>
      Escaped(x, y, BuddhabrotScore(FirstEscape(x, y, Max(0, maxIter)), minIter))
  {
    var n := Max(0, maxIter);
    ScoreOf(FirstEscapeFrom(x, y, 0, n), n, minIter);
  }

  // ---------------------------------------------------------------
  // Orbit trap
  // ---------------------------------------------------------------

  /** The least trap distance over `z_0 .. z_{n-1}`. */
  function MinDistance(dist: (real, real) -> real, cr: real, ci: real, n: nat): (d: real)
    requires n >= 1
    ensures forall j :: 0 <= j < n ==> d <= dist(Orbit(cr, ci, j).re, Orbit(cr, ci, j).im)
    ensures exists j :: 0 <= j < n && d == dist(Orbit(cr, ci, j).re, Orbit(cr, ci, j).im)
  {
    var z := Orbit(cr, ci, n - 1);
    if n == 1 then dist(z.re, z.im)
    else
      var rest := MinDistance(dist, cr, ci, n - 1);
      if dist(z.re, z.im) < rest then dist(z.re, z.im) else rest
  }

  /** `min(int(min_distance * max_iter * 2), cap)`. */
  function TrapScore(minDistance: real, maxIter: int, cap: int): int
  {
    Min(Trunc(minDistance * maxIter as real * 2.0), cap)
  }

  /**
   * The result of `OrbitTrapFractal.calculate`: the least distance from the
   * orbit to the trap, scaled by `2 * max_iter`; on escape it is taken over
   * the steps before the escape and capped at `max_iter - 1`, otherwise over
   * all `max_iter` steps and capped at `max_iter`.
   */
  function OrbitTrapScore(dist: (real, real) -> real, x: real, y: real, maxIter: int): int
    requires maxIter >= 1
  {
    var e := FirstEscape(x, y, maxIter);
    FirstEscapePositive(x, y, maxIter);
    if e.Some? then TrapScore(MinDistance(dist, x, y, e.value), maxIter, maxIter - 1)
    else TrapScore(MinDistance(dist, x, y, maxIter), maxIter, maxIter)
  }

  /**
   * `OrbitTrapFractal.calculate`. For `max_iter <= 0` the source converts an
   * infinite or undefined distance to `int` and raises.
   */
  method OrbitTrapCalculate(dist: (real, real) -> real, x: real, y: real, maxIter: int) returns (r: int)
    requires maxIter >= 1
    ensures r == OrbitTrapScore(dist, x, y, maxIter)
  {
    var z := Point(0.0, 0.0);
    var minDistance: Option<real> := None;
    var i := 0;
    while i < maxIter
      invariant 0 <= i <= maxIter
      invariant z == Orbit(x, y, i)
      invariant FirstEscape(x, y, maxIter) == FirstEscapeFrom(x, y, i, maxIter)
      invariant i == 0 <==> minDistance.None?
      invariant i >= 1 ==> minDistance == Some(MinDistance(dist, x, y, i))
    {
      FirstEscapeStep(x, y, i, maxIter);
      FirstEscapePositive(x, y, maxIter);
      if NormSq(z) > 4.0 {
        return TrapScore(minDistance.value, maxIter, maxIter - 1);
      }
      var d := dist(z.re, z.im);
      minDistance := if minDistance.None? || d < minDistance.value then Some(d) else minDistance;
      z := Iterate(z, x, y);
      i := i + 1;
    }
    r := TrapScore(minDistance.value, maxIter, maxIter);
  }

  /** With a non-negative trap distance the score lies in `0 .. max_iter`, and below `max_iter` on escape. */
  lemma OrbitTrapBounds(dist: (real, real) -> real, x: real, y: real, maxIter: int)
    requires maxIter >= 1
    requires forall a: real, b: real :: dist(a, b) >= 0.0
    ensures 0 <= OrbitTrapScore(dist, x, y, maxIter) <= maxIter
    ensures FirstEscape(x, y, maxIter).Some? ==> OrbitTrapScore(dist, x, y, maxIter) <= maxIter - 1
  {
    var e := FirstEscape(x, y, maxIter);
    FirstEscapePositive(x, y, maxIter);
    if e.Some? {
      TrapScoreBounds(MinDistance(dist, x, y, e.value), maxIter, maxIter - 1);
    } else {
      TrapScoreBounds(MinDistance(dist, x, y, maxIter), maxIter, maxIter);
    }
  }

  /** A non-negative distance scores between 0 and the cap. */
  lemma TrapScoreBounds(minDistance: real, maxIter: int, cap: int)
    requires minDistance >= 0.0 && maxIter >= 1 && cap >= 0
    ensures 0 <= TrapScore(minDistance, maxIter, cap) <= cap
  {
    assert minDistance * maxIter as real * 2.0 >= 0.0;
  }

  // ---------------------------------------------------------------
  // Newton
  // ---------------------------------------------------------------

  /** What iteration `i` of Newton's method observes. */
  datatype NewtonEvent =
    | Diverging    // `r_sq > 1e10`
    | Degenerate   // `r_sq < 1e-12`, or the derivative is below `1e-12`
    | Converged    // the step is below the tolerance
    | Continue

  /** `(i * max_iter) // max_newton_iter`: a converged iteration spread over the palette. */
  function ConvergedScore(i: int, maxIter: int, newtonIters: int): int
    requires newtonIters >= 1
  {
    (i * maxIter) / newtonIters
  }

  /** A converged iteration scores below `max_iter`, and never below zero. */
  lemma ConvergedScoreBounds(i: int, maxIter: int)
    requires maxIter >= 1 && 0 <= i < Min(maxIter, 64)
    ensures 0 <= ConvergedScore(i, maxIter, Min(maxIter, 64)) < maxIter
  {
    var m := Min(maxIter, 64);
    MulLessRight(i, m, maxIter);
    assert m * maxIter == maxIter * m;
    DivLess(i * maxIter, m, maxIter);
  }

  /** Newton's result from iteration `i` on. */
  function NewtonFrom(event: int -> NewtonEvent, maxIter: int, i: int): int
    requires 0 <= i <= Max(0, Min(maxIter, 64))
    decreases Min(maxIter, 64) - i
  {
    if i >= Min(maxIter, 64) then maxIter
    else match event(i)
      case Diverging => i
      case Degenerate => maxIter
      case Converged => ConvergedScore(i, maxIter, Min(maxIter, 64))
      case Continue => NewtonFrom(event, maxIter, i + 1)
  }

  /**
   * `NewtonFractal.calculate`: at most `min(max_iter, 64)` iterations; a
   * diverging point scores its iteration, a degenerate one and one that
   * never settles score `max_iter`, a converged one its scaled iteration.
   */
  method NewtonCalculate(event: int -> NewtonEvent, maxIter: int) returns (r: int)
    ensures r == NewtonFrom(event, maxIter, 0)
  {
    var maxNewtonIter := Min(maxIter, 64);
    var i := 0;
    while i < maxNewtonIter
      invariant 0 <= i <= Max(0, maxNewtonIter)
      invariant NewtonFrom(event, maxIter, 0) == NewtonFrom(event, maxIter, i)
    {
      match event(i)
      case Diverging => return i;
      case Degenerate => return maxIter;
      case Converged => return (i * maxIter) / maxNewtonIter;
      case Continue =>
      i := i + 1;
    }
    return maxIter;
  }

  /** Every Newton result lies in `0 .. max_iter`. */
  lemma {:induction false} NewtonBounds(event: int -> NewtonEvent, maxIter: int, i: int)
    requires maxIter >= 1 && 0 <= i <= Min(maxIter, 64)
    ensures 0 <= NewtonFrom(event, maxIter, i) <= maxIter
    decreases Min(maxIter, 64) - i
  {
    if i < Min(maxIter, 64) {
      match event(i)
      case Diverging =>
      case Degenerate =>
      case Converged => ConvergedScoreBounds(i, maxIter);
      case Continue => NewtonBounds(event, maxIter, i + 1);
    }
  }
}
