/**
 * `FractalRegistry`, the `register_fractal` decorator and
 * `parse_complex_string` of python-kimi-k2.5-opencode/fractals/__init__.py.
 *
 * The registry is a class-level dict from names to fractal classes. Python
 * dicts remember insertion order, so the value model keeps the key order
 * beside the map; `list_fractals` sorts the keys, so the order never shows.
 *
 * `parse_complex_string` hands its cleaned-up string to the built-in
 * `complex()`, which is not part of this model. `complex()` reads a
 * trailing `j` as the imaginary unit, a string without one as a real
 * number, and rejects an `i`. The model computes the string handed to
 * `complex()`. As written, the code strips the unit from an unsigned
 * imaginary number and replaces `i` before lowering the case
 * (`PrepareComplexAsWritten`); `PrepareComplex` is the corrected version.
 */
module KimiFractalRegistryModel {
  import opened Wrappers
  import opened Text
  import opened StringOrder

  /**
   * A Python class handed to the registry: whether it derives from
   * `FractalBase`, and its `name` attribute, which the decorator overwrites.
   */
  class FractalClass {
    const derivesFromBase: bool
    var name: string

    constructor(derivesFromBase: bool, name: string)
      ensures this.derivesFromBase == derivesFromBase && this.name == name
    {
      this.derivesFromBase := derivesFromBase;
      this.name := name;
    }
  }

  /** The `ValueError`s the registry raises. */
  datatype RegistryError = NotAFractal(cls: FractalClass) | UnknownFractal(name: string)

  /** `fractal_class(**params)`. */
  datatype Instance<P> = Instance(cls: FractalClass, params: P)

  /** `_fractals`: its keys in insertion order and the classes they map to. */
  datatype Table = Table(keys: seq<string>, classes: map<string, FractalClass>)

  predicate WellFormed(t: Table)
  {
    && Distinct(t.keys)
    && t.classes.Keys == (set k | k in t.keys)
  }

  const Empty := Table([], map[])

  /** `_fractals[name] = cls`: a new key goes last, an existing one keeps its place. */
  function Assign(t: Table, name: string, cls: FractalClass): (r: Table)
    requires WellFormed(t)
    ensures WellFormed(r)
    ensures r.classes == t.classes[name := cls]
    ensures name in t.classes ==> r.keys == t.keys
    ensures name !in t.classes ==> r.keys == t.keys + [name]
  {
    if name in t.classes then Table(t.keys, t.classes[name := cls])
    else Table(t.keys + [name], t.classes[name := cls])
  }

  /** `register`: reject a class not derived from `FractalBase`, otherwise assign. */
  function RegisterStep(t: Table, name: string, cls: FractalClass): (r: Result<Table, RegistryError>)
    requires WellFormed(t)
    ensures r.Ok? <==> cls.derivesFromBase
    ensures r.Err? ==> r.error == NotAFractal(cls)
    ensures r.Ok? ==> WellFormed(r.value) && r.value.classes == t.classes[name := cls]
  {
    if !cls.derivesFromBase then Err(NotAFractal(cls)) else Ok(Assign(t, name, cls))
  }

  /** `get`: the class registered under exactly this name, or `None`. */
  function GetIn(t: Table, name: string): (r: Option<FractalClass>)
    ensures r.Some? <==> name in t.classes
    ensures r.Some? ==> r.value == t.classes[name]
  {
    if name in t.classes then Some(t.classes[name]) else None
  }

  /** `list_fractals`: every registered name once, in sorted order. */
  function ListIn(t: Table): (names: seq<string>)
    requires WellFormed(t)
    ensures StrictlySorted(names)
    ensures forall k :: k in names <==> k in t.classes
    ensures |names| == |t.keys|
  {
    Sort(t.keys)
  }

  /** `create`: an instance of the registered class, or `ValueError` for an unknown name. */
  function CreateIn<P>(t: Table, name: string, params: P): (r: Result<Instance<P>, RegistryError>)
    ensures r.Ok? <==> name in t.classes
    ensures r.Ok? ==> r.value == Instance(t.classes[name], params)
    ensures r.Err? ==> r.error == UnknownFractal(name)
  {
    match GetIn(t, name)
    case None => Err(UnknownFractal(name))
    case Some(c) => Ok(Instance(c, params))
  }

  /** After registering a class, `get` finds it under that name and every other name is as before. */
  lemma RegisterThenGet(t: Table, name: string, cls: FractalClass, other: string)
    requires WellFormed(t) && cls.derivesFromBase
    ensures RegisterStep(t, name, cls).Ok?
    ensures GetIn(RegisterStep(t, name, cls).value, name) == Some(cls)
    ensures other != name ==> GetIn(RegisterStep(t, name, cls).value, other) == GetIn(t, other)
  {
  }

  /** Registering adds the name to the listing and keeps the others. */
  lemma RegisterThenList(t: Table, name: string, cls: FractalClass)
    requires WellFormed(t) && cls.derivesFromBase
    ensures var names := ListIn(RegisterStep(t, name, cls).value);
      forall k :: k in names <==> k == name || k in ListIn(t)
  {
  }

  /** The listing depends only on which names are registered, not on the order they came in. */
  lemma ListIgnoresRegistrationOrder(t1: Table, t2: Table)
    requires WellFormed(t1) && WellFormed(t2)
    requires t1.classes.Keys == t2.classes.Keys
    ensures ListIn(t1) == ListIn(t2)
  {
    forall y
      ensures y in t1.keys <==> y in t2.keys
    {
      assert y in t1.keys <==> y in (set k | k in t1.keys);
      assert y in t2.keys <==> y in (set k | k in t2.keys);
      assert y in t1.classes.Keys <==> y in t2.classes.Keys;
    }
    SortIgnoresOrder(t1.keys, t2.keys);
  }

  /** Registering the same names in either order lists them the same way. */
  lemma RegistrationOrderInvisible(a: string, b: string, ca: FractalClass, cb: FractalClass)
    requires ca.derivesFromBase && cb.derivesFromBase
    ensures var ab := Assign(Assign(Empty, a, ca), b, cb);
      var ba := Assign(Assign(Empty, b, cb), a, ca);
      ListIn(ab) == ListIn(ba)
  {
    var ab := Assign(Assign(Empty, a, ca), b, cb);
    var ba := Assign(Assign(Empty, b, cb), a, ca);
    assert ab.classes.Keys == ba.classes.Keys == {a, b};
    ListIgnoresRegistrationOrder(ab, ba);
  }

  /** `create` succeeds exactly for the names `list_fractals` shows. */
  lemma CreateListed<P>(t: Table, name: string, params: P)
    requires WellFormed(t)
    ensures CreateIn(t, name, params).Ok? <==> name in ListIn(t)
  {
  }

  /** The class-level registry. */
  class FractalRegistry {
    var keys: seq<string>
    var classes: map<string, FractalClass>

    function Model(): Table
      reads this
    {
      Table(keys, classes)
    }

    predicate Valid()
      reads this
    {
      WellFormed(Model())
    }

    constructor()
      ensures Valid() && Model() == Empty
    {
      keys := [];
      classes := map[];
    }

    /** `register(name, fractal_class)`. */
    method Register(name: string, cls: FractalClass) returns (r: Result<(), RegistryError>)
      requires Valid()
      modifies this
      ensures Valid()
      ensures var step := RegisterStep(old(Model()), name, cls);
        (step.Ok? ==> r.Ok? && Model() == step.value) && (step.Err? ==> r == Err(step.error) && Model() == old(Model()))
    {
      if !cls.derivesFromBase {
        return Err(NotAFractal(cls));
      }
      if name !in classes {
        keys := keys + [name];
      }
      classes := classes[name := cls];
      r := Ok(());
    }

    /** `get(name)`. */
    function Get(name: string): (r: Option<FractalClass>)
      reads this
      ensures r == GetIn(Model(), name)
    {
      if name in classes then Some(classes[name]) else None
    }

    /** `list_fractals()`. */
    function ListFractals(): (names: seq<string>)
      requires Valid()
      reads this
      ensures names == ListIn(Model())
    {
      Sort(keys)
    }

    /** `create(name, **params)`. */
    method Create<P>(name: string, params: P) returns (r: Result<Instance<P>, RegistryError>)
      ensures r == CreateIn(Model(), name, params)
    {
      var c := Get(name);
      if c.None? {
        return Err(UnknownFractal(name));
      }
      r := Ok(Instance(c.value, params));
    }
  }

  /**
   * `register_fractal(name)` applied to `cls`: register it, then set its
   * `name` attribute. When registration raises, the attribute is left alone.
   */
  method RegisterFractal(registry: FractalRegistry, name: string, cls: FractalClass)
    returns (r: Result<FractalClass, RegistryError>)
    requires registry.Valid()
    modifies registry, cls
    ensures registry.Valid()
    ensures var step := RegisterStep(old(registry.Model()), name, cls);
      && (step.Ok? ==> r == Ok(cls) && registry.Model() == step.value && cls.name == name)
      && (step.Err? ==> r == Err(step.error) && registry.Model() == old(registry.Model()) && cls.name == old(cls.name))
  {
    var reg := registry.Register(name, cls);
    if reg.Err? {
      return Err(reg.error);
    }
    cls.name := name;
    r := Ok(cls);
  }

  // ---------------------------------------------------------------
  // `parse_complex_string`
  // ---------------------------------------------------------------

  /** `s.replace(c, "")`. */
  function RemoveChar(s: string, c: char): (r: string)
    ensures !Contains(r, c)
    ensures forall d :: d != c ==> (Contains(r, d) <==> Contains(s, d))
    ensures !Contains(s, c) ==> r == s
  {
    if s == [] then []
    else
      var rest := RemoveChar(s[1..], c);
      assert forall d :: Contains(s, d) <==> s[0] == d || Contains(s[1..], d) by {
        forall d ensures Contains(s, d) <==> s[0] == d || Contains(s[1..], d) {
          if Contains(s, d) && s[0] != d {
            var i :| 0 <= i < |s| && s[i] == d;
            assert s[1..][i - 1] == d;
          }
          if Contains(s[1..], d) {
            var i :| 0 <= i < |s[1..]| && s[1..][i] == d;
            assert s[i + 1] == d;
          }
        }
      }
      if s[0] == c then rest
      else
        assert forall d :: Contains([s[0]] + rest, d) <==> s[0] == d || Contains(rest, d) by {
          forall d ensures Contains([s[0]] + rest, d) <==> s[0] == d || Contains(rest, d) {
            if s[0] == d {
              assert ([s[0]] + rest)[0] == d;
            }
            if Contains(rest, d) {
              var i :| 0 <= i < |rest| && rest[i] == d;
              assert ([s[0]] + rest)[i + 1] == d;
            }
            if Contains([s[0]] + rest, d) && s[0] != d {
              var i :| 0 <= i < |[s[0]] + rest| && ([s[0]] + rest)[i] == d;
              assert rest[i - 1] == d;
            }
          }
        }
        [s[0]] + rest
  }

  /** A string the `complex()` built-in reads as having an imaginary part. */
  predicate EndsWithUnit(t: string)
  {
    |t| > 0 && t[|t| - 1] == 'j'
  }

  /** `any(c in s for c in "+-")`. */
  predicate HasSign(t: string)
  {
    Contains(t, '+') || Contains(t, '-')
  }

  /**
   * The string `parse_complex_string` passes to `complex()`, as written:
   * spaces dropped, `i` replaced by `j`, then lowered; a trailing `j` with
   * no sign anywhere is cut off.
   */
  function PrepareComplexAsWritten(s: string): (t: string)
  {
    var u := Lower(ReplaceChar(RemoveChar(s, ' '), 'i', 'j'));
    if EndsWithUnit(u) && !HasSign(u) then u[..|u| - 1] else u
  }

  /**
   * The corrected preparation: drop spaces, lower the case, then write the
   * imaginary unit as `j`.
   */
  function PrepareComplex(s: string): (t: string)
    ensures |t| <= |s|
    ensures !Contains(t, ' ') && !Contains(t, 'i')
    ensures forall k :: 0 <= k < |t| ==> !IsUpper(t[k])
  {
    var u := ReplaceChar(Lower(RemoveChar(s, ' ')), 'i', 'j');
    RemoveCharShorter(s, ' ');
    assert !Contains(u, ' ') by {
      forall k | 0 <= k < |u| ensures u[k] != ' ' {
        var v := RemoveChar(s, ' ');
        assert v[k] != ' ';
      }
    }
    u
  }

  lemma {:induction false} RemoveCharShorter(s: string, c: char)
    ensures |RemoveChar(s, c)| <= |s|
  {
    if s != [] {
      RemoveCharShorter(s[1..], c);
    }
  }

  /** An unsigned imaginary number loses its unit: `"2i"` becomes the real `"2"`, while `"-2i"` stays imaginary. */
  lemma PrepareComplexAsWrittenDropsUnit()
    ensures PrepareComplexAsWritten("2i") == "2" && !EndsWithUnit(PrepareComplexAsWritten("2i"))
    ensures PrepareComplexAsWritten("-2i") == "-2j" && EndsWithUnit(PrepareComplexAsWritten("-2i"))
  {
    assert RemoveChar("2i", ' ') == "2i";
    assert RemoveChar("-2i", ' ') == "-2i";
    assert ReplaceChar("2i", 'i', 'j') == "2j";
    assert ReplaceChar("-2i", 'i', 'j') == "-2j";
    assert Lower("2j") == "2j";
    assert Lower("-2j") == "-2j";
    assert Contains("-2j", '-');
  }

  /** A capital `I` is replaced only after it would have matched, so `"2I"` hands `complex()` an `i`. */
  lemma PrepareComplexAsWrittenKeepsCapitalI()
    ensures PrepareComplexAsWritten("2I") == "2i"
  {
    assert RemoveChar("2I", ' ') == "2I";
    assert ReplaceChar("2I", 'i', 'j') == "2I";
    assert Lower("2I") == "2i";
  }

  /** The corrected preparation keeps the imaginary unit whenever the input ends with one. */
  lemma {:induction false} PrepareComplexKeepsUnit(s: string)
    ensures var v := RemoveChar(s, ' ');
      EndsWithUnit(PrepareComplex(s)) <==> |v| > 0 && (v[|v| - 1] == 'i' || v[|v| - 1] == 'I' || v[|v| - 1] == 'j' || v[|v| - 1] == 'J')
  {
    var v := RemoveChar(s, ' ');
    if |v| > 0 {
      assert Lower(v)[|v| - 1] == LowerChar(v[|v| - 1]);
    }
  }

  /** Preparing a prepared string changes nothing. */
  lemma PrepareComplexIdempotent(s: string)
    ensures PrepareComplex(PrepareComplex(s)) == PrepareComplex(s)
  {
    var t := PrepareComplex(s);
    assert RemoveChar(t, ' ') == t;
    assert Lower(t) == t by {
      forall k | 0 <= k < |t| ensures Lower(t)[k] == t[k] {
        assert !IsUpper(t[k]);
      }
    }
    assert ReplaceChar(t, 'i', 'j') == t;
  }

  /** The corrected preparation reads both unsigned examples as imaginary numbers. */
  lemma PrepareComplexExamples()
    ensures PrepareComplex("2i") == "2j" && PrepareComplex("2I") == "2j"
  {
    assert RemoveChar("2i", ' ') == "2i";
    assert RemoveChar("2I", ' ') == "2I";
    assert Lower("2i") == "2i" && Lower("2I") == "2i";
    assert ReplaceChar("2i", 'i', 'j') == "2j";
  }

  /**
   * The two versions agree on every input with a sign somewhere and no
   * capital `I`: only unsigned imaginary numbers and capital units differ.
   */
  lemma PrepareAgreesWithSign(s: string)
    requires !Contains(s, 'I')
    requires HasSign(s)
    ensures PrepareComplexAsWritten(s) == PrepareComplex(s)
  {
    var v := RemoveChar(s, ' ');
    var a := Lower(ReplaceChar(v, 'i', 'j'));
    var b := ReplaceChar(Lower(v), 'i', 'j');
    assert !Contains(v, 'I');
    assert a == b by {
      forall k | 0 <= k < |v| ensures a[k] == b[k] {
        assert v[k] != 'I';
      }
    }
    assert HasSign(v);
    assert HasSign(a) by {
      if Contains(v, '+') {
        var k :| 0 <= k < |v| && v[k] == '+';
        assert a[k] == '+';
      } else {
        var k :| 0 <= k < |v| && v[k] == '-';
        assert a[k] == '-';
      }
    }
  }
}
