/**
 * The fractal factory of the Tkinter generator
 * (python-minimax-v2.1/fractal_gen_tk/fractals.py): a table from internal
 * keys to fractal classes, a table from display names to internal keys (in
 * insertion order, which is the order `list_types` shows), lookup that
 * accepts either spelling and falls back to Mandelbrot, and registration.
 *
 * `register` reads the display name with `getattr(fractal_class, 'name', ...)`
 * on the class itself. Every fractal class declares `name` as a property, so
 * on the class that yields the property object rather than a string;
 * `RegisterAsWrittenStep` models this with the `NameProperty` display key and
 * `RegisterAsWrittenListsNoName` exhibits the effect. `RegisterStep`, which
 * the class uses, registers the display name the docstring promises.
 */
module TkFractalFactoryModel {
  import opened Text
  import opened Wrappers

  /** A fractal class, identified by its Python class name. */
  datatype FractalClass = FractalClass(className: string)

  /** A key of `_display_to_key`: a display string, or the `name` property object of a class. */
  datatype DisplayKey = Named(text: string) | NameProperty(owner: FractalClass)

  /** `_fractals`, `_display_to_key`, and the insertion order of the latter. */
  datatype Registry = Registry(fractals: map<string, FractalClass>,
                               displayToKey: map<DisplayKey, string>,
                               displayOrder: seq<DisplayKey>)

  /** The fallback class is always registered; the display order lists each display key once. */
  predicate WellFormed(r: Registry)
  {
    && "mandelbrot" in r.fractals
    && r.displayToKey.Keys == (set k | k in r.displayOrder)
    && (forall i, j :: 0 <= i < j < |r.displayOrder| ==> r.displayOrder[i] != r.displayOrder[j])
  }

  const MandelbrotClass := FractalClass("Mandelbrot")

  /** The built-in display names, in the order `_display_to_key` lists them. */
  const BuiltinNames: seq<string> := ["Mandelbrot", "Julia", "Julia³", "Burning Ship", "Collatz", "Multibrot", "Phoenix"]

  /** The built-in internal keys, position for position with `BuiltinNames`. */
  const BuiltinKeys: seq<string> := ["mandelbrot", "julia", "julia3", "burning_ship", "collatz", "multibrot", "phoenix"]

  /** The class-level tables as the module defines them. */
  function Builtin(): (r: Registry)
    ensures WellFormed(r)
    ensures |r.displayOrder| == 7
  {
    var r := Registry(
      map["mandelbrot" := MandelbrotClass, "julia" := FractalClass("Julia"),
          "julia3" := FractalClass("Julia3"), "burning_ship" := FractalClass("BurningShip"),
          "collatz" := FractalClass("Collatz"), "multibrot" := FractalClass("Multibrot"),
          "phoenix" := FractalClass("Phoenix")],
      map[Named("Mandelbrot") := "mandelbrot", Named("Julia") := "julia", Named("Julia³") := "julia3",
          Named("Burning Ship") := "burning_ship", Named("Collatz") := "collatz",
          Named("Multibrot") := "multibrot", Named("Phoenix") := "phoenix"],
      [Named("Mandelbrot"), Named("Julia"), Named("Julia³"), Named("Burning Ship"), Named("Collatz"),
       Named("Multibrot"), Named("Phoenix")]);
    r
  }

  /** What `_normalize_name` does to one character: lower-case it, then map "³" to "3" and space to "_". */
  function NormalizeChar(c: char): (r: char)
    ensures !IsUpper(r) && r != ' ' && r != '³'
  {
    if c == ' ' then '_' else if c == '³' then '3' else LowerChar(c)
  }

  /**
   * `_normalize_name`: `lower()`, then `replace("³", "3")`, then
   * `replace(" ", "_")`. All three work character by character, so their
   * composition is `NormalizeChar` applied to every character
   * (`NormalizeIsLowerThenReplace`).
   */
  function NormalizeName(name: string): (r: string)
    ensures |r| == |name|
    ensures forall i :: 0 <= i < |name| ==> r[i] == NormalizeChar(name[i])
  {
    seq(|name|, i requires 0 <= i < |name| => NormalizeChar(name[i]))
  }

  /** The character-wise definition agrees with the three string operations chained as in the source. */
  lemma {:induction false} NormalizeIsLowerThenReplace(name: string)
    ensures NormalizeName(name) == ReplaceChar(ReplaceChar(Lower(name), '³', '3'), ' ', '_')
  {
  }

  /** A normalised name normalises to itself. */
  lemma NormalizeIdempotent(name: string)
    ensures NormalizeName(NormalizeName(name)) == NormalizeName(name)
  {
    var n := NormalizeName(name);
    assert forall i | 0 <= i < |n| :: NormalizeName(n)[i] == n[i];
  }

  /** Names that differ only in letter case normalise to the same key. */
  lemma NormalizeIgnoresCase(a: string, b: string)
    requires EqualIgnoringCase(a, b)
    ensures NormalizeName(a) == NormalizeName(b)
  {
    assert |a| == |Lower(a)| == |Lower(b)| == |b|;
    forall i | 0 <= i < |a|
      ensures NormalizeName(a)[i] == NormalizeName(b)[i]
    {
      assert Lower(a)[i] == Lower(b)[i];
    }
  }

  /** Every built-in display name normalises to its own internal key. */
  lemma BuiltinDisplayNamesNormalizeToKeys()
    ensures forall i | 0 <= i < 7 :: NormalizeName(BuiltinNames[i]) == BuiltinKeys[i]
  {
    assert NormalizeName("Mandelbrot") == "mandelbrot";
    assert NormalizeName("Julia") == "julia";
    assert NormalizeName("Julia³") == "julia3";
    assert NormalizeName("Burning Ship") == "burning_ship";
    assert NormalizeName("Collatz") == "collatz";
    assert NormalizeName("Multibrot") == "multibrot";
    assert NormalizeName("Phoenix") == "phoenix";
  }

  /** The internal key `create` looks up: the display mapping if it gives a non-empty key, else the normalised name. */
  function LookupKey(r: Registry, name: string): (key: string)
    ensures Named(name) in r.displayToKey && r.displayToKey[Named(name)] != "" ==> key == r.displayToKey[Named(name)]
    ensures !(Named(name) in r.displayToKey && r.displayToKey[Named(name)] != "") ==> key == NormalizeName(name)
  {
    if Named(name) in r.displayToKey && r.displayToKey[Named(name)] != "" then r.displayToKey[Named(name)]
    else NormalizeName(name)
  }

  /** `create(name)`: the class for the key, Mandelbrot's for no name or an unknown one. */
  function CreateIn(r: Registry, name: Option<string>): (c: FractalClass)
    requires WellFormed(r)
    ensures name.None? ==> c == r.fractals["mandelbrot"]
    ensures name.Some? && LookupKey(r, name.value) in r.fractals ==> c == r.fractals[LookupKey(r, name.value)]
    ensures name.Some? && LookupKey(r, name.value) !in r.fractals ==> c == r.fractals["mandelbrot"]
    ensures c in r.fractals.Values
  {
    if name.None? then r.fractals["mandelbrot"]
    else
      var key := LookupKey(r, name.value);
      if key in r.fractals then r.fractals[key] else r.fractals["mandelbrot"]
  }

  /** The built-in internal keys are already normalised. */
  lemma BuiltinKeysAreNormalized()
    ensures forall i | 0 <= i < 7 :: NormalizeName(BuiltinKeys[i]) == BuiltinKeys[i]
  {
    assert NormalizeName("mandelbrot") == "mandelbrot";
    assert NormalizeName("julia") == "julia";
    assert NormalizeName("julia3") == "julia3";
    assert NormalizeName("burning_ship") == "burning_ship";
    assert NormalizeName("collatz") == "collatz";
    assert NormalizeName("multibrot") == "multibrot";
    assert NormalizeName("phoenix") == "phoenix";
  }

  /** The built-in tables pair `BuiltinNames[i]` with `BuiltinKeys[i]`, and no key is also a display name. */
  lemma BuiltinTables(i: int)
    requires 0 <= i < 7
    ensures var b := Builtin();
      && Named(BuiltinNames[i]) in b.displayToKey && b.displayToKey[Named(BuiltinNames[i])] == BuiltinKeys[i]
      && BuiltinKeys[i] in b.fractals && Named(BuiltinKeys[i]) !in b.displayToKey
  {
  }

  /** With the built-in tables, a display name and its internal key create the same class. */
  lemma {:induction false} DisplayNameAndKeyAgree(i: int)
    requires 0 <= i < 7
    ensures var b := Builtin();
      && CreateIn(b, Some(BuiltinNames[i])) == b.fractals[BuiltinKeys[i]]
      && CreateIn(b, Some(BuiltinKeys[i])) == b.fractals[BuiltinKeys[i]]
  {
    BuiltinTables(i);
    BuiltinKeysAreNormalized();
    var b := Builtin();
    assert LookupKey(b, BuiltinNames[i]) == BuiltinKeys[i];
    assert LookupKey(b, BuiltinKeys[i]) == BuiltinKeys[i];
  }

  /** In the built-in tables, a name found in `_display_to_key` is one of `BuiltinNames`, mapped to its key. */
  lemma BuiltinDisplayLookup(name: string)
    requires Named(name) in Builtin().displayToKey
    ensures exists j :: 0 <= j < 7 && name == BuiltinNames[j] && Builtin().displayToKey[Named(name)] == BuiltinKeys[j]
  {
    if name == "Mandelbrot" { assert name == BuiltinNames[0]; }
    else if name == "Julia" { assert name == BuiltinNames[1]; }
    else if name == "Julia³" { assert name == BuiltinNames[2]; }
    else if name == "Burning Ship" { assert name == BuiltinNames[3]; }
    else if name == "Collatz" { assert name == BuiltinNames[4]; }
    else if name == "Multibrot" { assert name == BuiltinNames[5]; }
    else { assert name == BuiltinNames[6]; }
  }

  /** With the built-in tables, the key `create` looks up for a name is the name's normalised form. */
  lemma {:induction false} BuiltinLookupIsNormalized(name: string)
    ensures LookupKey(Builtin(), name) == NormalizeName(name)
  {
    if Named(name) in Builtin().displayToKey {
      BuiltinDisplayLookup(name);
      BuiltinDisplayNamesNormalizeToKeys();
      var j :| 0 <= j < 7 && name == BuiltinNames[j] && Builtin().displayToKey[Named(name)] == BuiltinKeys[j];
      assert NormalizeName(name) == BuiltinKeys[j];
    }
  }

  /**
   * With the built-in tables, `create` ignores letter case: any spelling of a
   * display name or of an internal key creates that entry's class.
   */
  lemma {:induction false} CreateIgnoresCase(name: string, i: int)
    requires 0 <= i < 7
    requires EqualIgnoringCase(name, BuiltinNames[i]) || EqualIgnoringCase(name, BuiltinKeys[i])
    ensures CreateIn(Builtin(), Some(name)) == Builtin().fractals[BuiltinKeys[i]]
  {
    BuiltinTables(i);
    BuiltinKeysAreNormalized();
    BuiltinDisplayNamesNormalizeToKeys();
    if EqualIgnoringCase(name, BuiltinNames[i]) {
      NormalizeIgnoresCase(name, BuiltinNames[i]);
    } else {
      NormalizeIgnoresCase(name, BuiltinKeys[i]);
    }
    BuiltinLookupIsNormalized(name);
  }

  /** Unknown names, including the empty one, fall back to Mandelbrot. */
  lemma UnknownNameGivesMandelbrot(name: string)
    requires Named(name) !in Builtin().displayToKey && NormalizeName(name) !in Builtin().fractals
    ensures CreateIn(Builtin(), Some(name)) == MandelbrotClass
  {
  }

  /** `list_types`: the display keys in insertion order. */
  function ListTypesIn(r: Registry): (names: seq<DisplayKey>)
    requires WellFormed(r)
    ensures forall k :: k in names <==> k in r.displayToKey
    ensures forall i, j :: 0 <= i < j < |names| ==> names[i] != names[j]
  {
    r.displayOrder
  }

  /** Add a display key for `key` unless that display key is already mapped. */
  function AddDisplay(r: Registry, d: DisplayKey, key: string): (s: Registry)
    requires WellFormed(r)
    ensures WellFormed(s) && s.fractals == r.fractals
    ensures d in r.displayToKey ==> s == r
    ensures d !in r.displayToKey ==>
      s.displayToKey == r.displayToKey[d := key] && s.displayOrder == r.displayOrder + [d]
  {
    if d in r.displayToKey then r
    else Registry(r.fractals, r.displayToKey[d := key], r.displayOrder + [d])
  }

  /** `register(name, fractal_class)` registering the display name `displayName`. */
  function RegisterStep(r: Registry, name: string, cls: FractalClass, displayName: string): (s: Registry)
    requires WellFormed(r)
    ensures WellFormed(s)
    ensures s.fractals == r.fractals[NormalizeName(name) := cls]
    ensures Named(displayName) in r.displayToKey ==> s.displayToKey == r.displayToKey && s.displayOrder == r.displayOrder
    ensures Named(displayName) !in r.displayToKey ==>
      && s.displayToKey == r.displayToKey[Named(displayName) := NormalizeName(name)]
      && s.displayOrder == r.displayOrder + [Named(displayName)]
  {
    AddDisplay(r.(fractals := r.fractals[NormalizeName(name) := cls]), Named(displayName), NormalizeName(name))
  }

  /** `register` as written: the display key is whatever `getattr(cls, 'name')` gives on the class, its property. */
  function RegisterAsWrittenStep(r: Registry, name: string, cls: FractalClass): (s: Registry)
    requires WellFormed(r)
    ensures WellFormed(s)
    ensures s.fractals == r.fractals[NormalizeName(name) := cls]
  {
    AddDisplay(r.(fractals := r.fractals[NormalizeName(name) := cls]), NameProperty(cls), NormalizeName(name))
  }

  /** After `register`, `create` of the registered name gives the registered class. */
  lemma {:induction false} CreateAfterRegister(r: Registry, name: string, cls: FractalClass, displayName: string)
    requires WellFormed(r)
    requires Named(name) !in r.displayToKey && name != displayName
    ensures CreateIn(RegisterStep(r, name, cls, displayName), Some(name)) == cls
  {
    var s := RegisterStep(r, name, cls, displayName);
    assert Named(name) !in s.displayToKey;
    assert LookupKey(s, name) == NormalizeName(name);
  }

  /** After `register`, the display name is listed and `create` of it gives the registered class. */
  lemma {:induction false} DisplayNameListedAfterRegister(r: Registry, name: string, cls: FractalClass, displayName: string)
    requires WellFormed(r) && Named(displayName) !in r.displayToKey && NormalizeName(name) != ""
    ensures Named(displayName) in ListTypesIn(RegisterStep(r, name, cls, displayName))
    ensures CreateIn(RegisterStep(r, name, cls, displayName), Some(displayName)) == cls
  {
    var s := RegisterStep(r, name, cls, displayName);
    assert s.displayOrder[|s.displayOrder| - 1] == Named(displayName);
    assert LookupKey(s, displayName) == NormalizeName(name);
  }

  /**
   * As written, registering a new fractal lists the class's `name` property
   * object among the types and never its display name.
   */
  lemma RegisterAsWrittenListsNoName()
    ensures var s := RegisterAsWrittenStep(Builtin(), "spiral", FractalClass("Spiral"));
      && NameProperty(FractalClass("Spiral")) in ListTypesIn(s)
      && Named("Spiral") !in ListTypesIn(s)
  {
    var s := RegisterAsWrittenStep(Builtin(), "spiral", FractalClass("Spiral"));
    assert s.displayOrder == Builtin().displayOrder + [NameProperty(FractalClass("Spiral"))];
    assert s.displayOrder[7] == NameProperty(FractalClass("Spiral"));
    assert Named("Spiral") !in Builtin().displayToKey;
  }

  /** `FractalFactory`: its class-level tables, updated by `register`. */
  class FractalFactory {
    var fractals: map<string, FractalClass>
    var displayToKey: map<DisplayKey, string>
    var displayOrder: seq<DisplayKey>

    predicate Valid()
      reads this
    {
      WellFormed(Model())
    }

    function Model(): Registry
      reads this
    {
      Registry(fractals, displayToKey, displayOrder)
    }

    /** The tables as the module defines them. */
    constructor ()
      ensures Valid() && Model() == Builtin()
    {
      var b := Builtin();
      fractals := b.fractals;
      displayToKey := b.displayToKey;
      displayOrder := b.displayOrder;
    }

    /** `list_types` */
    function ListTypes(): (names: seq<DisplayKey>)
      reads this
      requires Valid()
      ensures names == ListTypesIn(Model())
    {
      displayOrder
    }

    /** `create` */
    method Create(name: Option<string>) returns (c: FractalClass)
      requires Valid()
      ensures c == CreateIn(Model(), name)
    {
      if name.None? {
        return fractals["mandelbrot"];
      }
      var key := if Named(name.value) in displayToKey && displayToKey[Named(name.value)] != ""
        then displayToKey[Named(name.value)] else NormalizeName(name.value);
      if key in fractals {
        c := fractals[key];
      } else {
        c := fractals["mandelbrot"];
      }
    }

    /** `register`, with the display name the class reports. */
    method Register(name: string, cls: FractalClass, displayName: string)
      requires Valid()
      modifies this
      ensures Valid() && Model() == RegisterStep(old(Model()), name, cls, displayName)
    {
      var normalized := NormalizeName(name);
      fractals := fractals[normalized := cls];
      if Named(displayName) !in displayToKey {
        displayToKey := displayToKey[Named(displayName) := normalized];
        displayOrder := displayOrder + [Named(displayName)];
      }
    }
  }
}
