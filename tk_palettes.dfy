/**
 * The palette table of the Tkinter generator
 * (python-minimax-v2.1/fractal_gen_tk/palettes.py): the integer-valued
 * palettes `grayscale` and `retro`, and `PaletteFactory`, which looks names
 * up without regard to case, falls back to "Rainbow", and registers new
 * palettes under a normalised key after dropping any entry whose key differs
 * from the new name only in case.
 *
 * `PALETTES` is an insertion-ordered dictionary; it is modelled as the list
 * of its keys in insertion order plus a map from key to palette.
 */
module TkPalettesModel {
  import opened Text
  import opened Wrappers
  import opened Colour
  import opened Numeric

  /** `grayscale`: black for a point that did not escape, otherwise a grey proportional to the escape time. */
  function Grayscale(iterCount: int, maxIter: int): (c: Rgb)
    requires iterCount == maxIter || maxIter != 0
    ensures iterCount == maxIter ==> c == Rgb(0, 0, 0)
  {
    if iterCount == maxIter then Rgb(0, 0, 0)
    else
      var t := iterCount as real / maxIter as real;
      var gray := Trunc(255.0 * t);
      Rgb(gray, gray, gray)
  }

  /** For escape times in range the three channels are equal and stay in 0..254. */
  lemma GrayscaleChannels(iterCount: int, maxIter: int)
    requires 0 <= iterCount < maxIter
    ensures var c := Grayscale(iterCount, maxIter);
      && c.r == c.g == c.b
      && 0 <= c.r <= 254
  {
    var t := iterCount as real / maxIter as real;
    assert 0.0 <= t < 1.0;
    assert 0.0 <= 255.0 * t < 255.0;
  }

  /** A point that escapes later is never drawn darker. */
  lemma GrayscaleMonotone(i: int, j: int, maxIter: int)
    requires 0 <= i <= j < maxIter
    ensures Grayscale(i, maxIter).r <= Grayscale(j, maxIter).r
  {
    var ti := i as real / maxIter as real;
    var tj := j as real / maxIter as real;
    assert ti <= tj;
    assert 0.0 <= 255.0 * ti <= 255.0 * tj;
  }

  /** `retro`: dark brown for a point that did not escape, otherwise a sepia ramp capped at 255. */
  function Retro(iterCount: int, maxIter: int): (c: Rgb)
    requires iterCount == maxIter || maxIter != 0
    ensures iterCount == maxIter ==> c == Rgb(15, 10, 5)
    ensures iterCount != maxIter ==> c.r <= 255 && c.g <= 255 && c.b <= 255
  {
    if iterCount == maxIter then Rgb(15, 10, 5)
    else
      var t := iterCount as real / maxIter as real;
      Rgb(Min(255, Trunc(200.0 * t + 50.0)),
          Min(255, Trunc(180.0 * t + 30.0)),
          Min(255, Trunc(130.0 * t + 20.0)))
  }

  /**
   * For escape times in range every channel starts at its base value and
   * stays below 255, so an escaping point is never drawn in the dark brown
   * that marks the set itself.
   */
  lemma RetroRamp(iterCount: int, maxIter: int)
    requires 0 <= iterCount < maxIter
    ensures var c := Retro(iterCount, maxIter);
      && 50 <= c.r <= 249 && 30 <= c.g <= 209 && 20 <= c.b <= 149
      && c != Retro(maxIter, maxIter)
  {
    var t := iterCount as real / maxIter as real;
    assert 0.0 <= t < 1.0;
    assert 50.0 <= 200.0 * t + 50.0 < 250.0;
    assert 30.0 <= 180.0 * t + 30.0 < 210.0;
    assert 20.0 <= 130.0 * t + 20.0 < 150.0;
  }

  /** A palette function, by identity: the nine built-in ones and any registered later. */
  datatype PaletteFunc =
    | GrayscalePalette | PlasmaPalette | RainbowPalette | CoolPalette | ElectricPalette
    | RetroPalette | SunsetPalette | OceanPalette | AlienPalette
    | UserPalette(id: nat)

  /** `PALETTES`: keys in insertion order, and the palette stored under each. */
  datatype Palettes = Palettes(keys: seq<string>, table: map<string, PaletteFunc>)

  /** The dictionary invariant: the key list lists each key of the table exactly once. */
  predicate WellFormed(p: Palettes)
  {
    && p.table.Keys == (set k | k in p.keys)
    && (forall i, j :: 0 <= i < j < |p.keys| ==> p.keys[i] != p.keys[j])
  }

  /** No two keys differ only in case; `register` keeps this so. */
  predicate NoCaseDuplicates(keys: seq<string>)
  {
    forall i, j :: 0 <= i < j < |keys| ==> Lower(keys[i]) != Lower(keys[j])
  }

  /** The built-in palette names, in registration order. */
  const BuiltinNames := ["Grayscale", "Plasma", "Rainbow", "Cool", "Electric", "Retro", "Sunset", "Ocean", "Alien"]

  /** The table as the module defines it. */
  function Builtin(): (p: Palettes)
    ensures WellFormed(p)
    ensures |p.keys| == 9 && "Rainbow" in p.table
  {
    Palettes(
      BuiltinNames,
      map["Grayscale" := GrayscalePalette, "Plasma" := PlasmaPalette, "Rainbow" := RainbowPalette,
          "Cool" := CoolPalette, "Electric" := ElectricPalette, "Retro" := RetroPalette,
          "Sunset" := SunsetPalette, "Ocean" := OceanPalette, "Alien" := AlienPalette])
  }

  /** Keys whose first two letters differ ignoring case differ ignoring case. */
  lemma {:induction false} PrefixDiffers(a: string, b: string)
    requires |a| >= 2 && |b| >= 2
    requires LowerChar(a[0]) != LowerChar(b[0]) || LowerChar(a[1]) != LowerChar(b[1])
    ensures Lower(a) != Lower(b)
  {
    assert Lower(a)[0] == LowerChar(a[0]) && Lower(b)[0] == LowerChar(b[0]);
    assert Lower(a)[1] == LowerChar(a[1]) && Lower(b)[1] == LowerChar(b[1]);
  }

  /** The first letters, lowered, of the built-in keys in order. */
  const FirstLetters := "gprcersoa"

  /** The second letters, lowered, of the built-in keys in order. */
  const SecondLetters := "rlaoleucl"

  /** Each built-in key starts with the two letters listed for it. */
  lemma BuiltinPrefixes(i: int)
    requires 0 <= i < 9
    ensures |BuiltinNames| == 9 && |BuiltinNames[i]| >= 2
    ensures LowerChar(BuiltinNames[i][0]) == FirstLetters[i]
    ensures LowerChar(BuiltinNames[i][1]) == SecondLetters[i]
  {
    var keys, f, t := BuiltinNames, FirstLetters, SecondLetters;
    if i == 0 { assert keys[i] == "Grayscale" && f[i] == 'g' && t[i] == 'r'; }
    else if i == 1 { assert keys[i] == "Plasma" && f[i] == 'p' && t[i] == 'l'; }
    else if i == 2 { assert keys[i] == "Rainbow" && f[i] == 'r' && t[i] == 'a'; }
    else if i == 3 { assert keys[i] == "Cool" && f[i] == 'c' && t[i] == 'o'; }
    else if i == 4 { assert keys[i] == "Electric" && f[i] == 'e' && t[i] == 'l'; }
    else if i == 5 { assert keys[i] == "Retro" && f[i] == 'r' && t[i] == 'e'; }
    else if i == 6 { assert keys[i] == "Sunset" && f[i] == 's' && t[i] == 'u'; }
    else if i == 7 { assert keys[i] == "Ocean" && f[i] == 'o' && t[i] == 'c'; }
    else { assert i == 8; assert keys[i] == "Alien" && f[i] == 'a' && t[i] == 'l'; }
  }

  /** No two built-in keys share their first two letters. */
  lemma PrefixesDistinct(i: int, j: int)
    requires 0 <= i < j < 9
    ensures FirstLetters[i] != FirstLetters[j] || SecondLetters[i] != SecondLetters[j]
  {
    var f, t := FirstLetters, SecondLetters;
    assert f[0] == 'g' && f[1] == 'p' && f[2] == 'r' && f[3] == 'c' && f[4] == 'e';
    assert f[5] == 'r' && f[6] == 's' && f[7] == 'o' && f[8] == 'a';
    assert t[0] == 'r' && t[5] == 'e';
  }

  /** The built-in keys already differ ignoring case. */
  lemma BuiltinHasNoCaseDuplicates()
    ensures NoCaseDuplicates(Builtin().keys)
  {
    var keys := BuiltinNames;
    forall i, j | 0 <= i < j < |keys|
      ensures Lower(keys[i]) != Lower(keys[j])
    {
      BuiltinPrefixes(i);
      BuiltinPrefixes(j);
      PrefixesDistinct(i, j);
      PrefixDiffers(keys[i], keys[j]);
    }
  }

  /** The position of the first key equal to `low` ignoring case, as the loop in `get` finds it. */
  function FirstMatch(keys: seq<string>, low: string): (r: Option<nat>)
    ensures r.Some? ==> r.value < |keys| && Lower(keys[r.value]) == low
    ensures r.Some? ==> forall j :: 0 <= j < r.value ==> Lower(keys[j]) != low
    ensures r.None? ==> forall j :: 0 <= j < |keys| ==> Lower(keys[j]) != low
  {
    if keys == [] then None
    else if Lower(keys[0]) == low then Some(0)
    else match FirstMatch(keys[1..], low)
      case None => None
      case Some(k) => Some(k + 1)
  }

  /** The key at `i` is the first one equal to `low` ignoring case. */
  lemma {:induction false} FirstMatchIs(keys: seq<string>, low: string, i: nat)
    requires i < |keys| && Lower(keys[i]) == low
    requires forall j :: 0 <= j < i ==> Lower(keys[j]) != low
    ensures FirstMatch(keys, low) == Some(i)
  {
  }

  /**
   * `get`: the palette of the first key equal to `name` ignoring case, else
   * the "Rainbow" palette, else (once "Rainbow" has been replaced by a
   * differently spelled key) the `KeyError` the lookup raises, as `None`.
   */
  function GetIn(p: Palettes, name: string): (r: Option<PaletteFunc>)
    requires WellFormed(p)
  {
    match FirstMatch(p.keys, Lower(name))
    case Some(i) => Some(p.table[p.keys[i]])
    case None => if "Rainbow" in p.table then Some(p.table["Rainbow"]) else None
  }

  /** Two spellings of a name that differ only in case find the same palette. */
  lemma GetIgnoresCase(p: Palettes, a: string, b: string)
    requires WellFormed(p)
    requires EqualIgnoringCase(a, b)
    ensures GetIn(p, a) == GetIn(p, b)
  {
  }

  /** A name stored in the table finds its own palette in any spelling, provided no other key clashes with it. */
  lemma GetFindsKey(p: Palettes, key: string, name: string)
    requires WellFormed(p) && NoCaseDuplicates(p.keys)
    requires key in p.table && EqualIgnoringCase(key, name)
    ensures GetIn(p, name) == Some(p.table[key])
  {
    var i :| 0 <= i < |p.keys| && p.keys[i] == key;
    assert forall j :: 0 <= j < i ==> Lower(p.keys[j]) != Lower(p.keys[i]);
    FirstMatchIs(p.keys, Lower(name), i);
  }

  /** A name that matches no key, in any case, falls back to the "Rainbow" palette. */
  lemma UnknownNameGivesRainbow(p: Palettes, name: string)
    requires WellFormed(p) && "Rainbow" in p.table
    requires forall k :: k in p.table ==> !EqualIgnoringCase(k, name)
    ensures GetIn(p, name) == Some(p.table["Rainbow"])
  {
    forall j | 0 <= j < |p.keys|
      ensures Lower(p.keys[j]) != Lower(name)
    {
      assert p.keys[j] in p.table;
    }
  }

  // ---------------------------------------------------------------
  // Key normalisation: `"_".join(seg.title() for seg in name.split("_"))`
  // ---------------------------------------------------------------

  /** `s.split("_")`: the maximal runs between underscores, always at least one. */
  function Split(s: string): (segs: seq<string>)
    ensures |segs| >= 1
  {
    if s == [] then [[]]
    else
      var rest := Split(s[1..]);
      if s[0] == '_' then [[]] + rest else [[s[0]] + rest[0]] + rest[1..]
  }

  /** `"_".join(segs)` */
  function Join(segs: seq<string>): string
    requires |segs| >= 1
  {
    if |segs| == 1 then segs[0] else segs[0] + "_" + Join(segs[1..])
  }

  /**
   * `str.title()` continuing after a character that was (`prevCased`) or
   * was not a letter: a letter after a letter is lowered, a letter after
   * anything else is raised, and other characters stay.
   */
  function TitleFrom(s: string, prevCased: bool): (r: string)
    ensures |r| == |s|
  {
    if s == [] then []
    else [if prevCased then LowerChar(s[0]) else UpperChar(s[0])] + TitleFrom(s[1..], IsLetter(s[0]))
  }

  /** `s.title()` */
  function Title(s: string): string { TitleFrom(s, false) }

  /** `seg.title()` for every segment. */
  function TitleAll(segs: seq<string>): (r: seq<string>)
    ensures |r| == |segs|
    ensures forall i :: 0 <= i < |segs| ==> r[i] == Title(segs[i])
  {
    if segs == [] then [] else [Title(segs[0])] + TitleAll(segs[1..])
  }

  /** The key `register` stores a non-empty name under. */
  function NormalizeKey(name: string): string
  {
    if Contains(name, '_') then Join(TitleAll(Split(name))) else name
  }

  lemma {:induction false} LowerTitleFrom(s: string, prevCased: bool)
    ensures Lower(TitleFrom(s, prevCased)) == Lower(s)
  {
    if s != [] {
      LowerTitleFrom(s[1..], IsLetter(s[0]));
      var c := if prevCased then LowerChar(s[0]) else UpperChar(s[0]);
      assert LowerChar(c) == LowerChar(s[0]);
      LowerConcat([c], TitleFrom(s[1..], IsLetter(s[0])));
      LowerConcat([s[0]], s[1..]);
      assert [s[0]] + s[1..] == s;
    }
  }

  lemma {:induction false} LowerJoinTitle(segs: seq<string>)
    requires |segs| >= 1
    ensures Lower(Join(TitleAll(segs))) == Lower(Join(segs))
  {
    LowerTitleFrom(segs[0], false);
    if |segs| > 1 {
      LowerJoinTitle(segs[1..]);
      assert TitleAll(segs)[1..] == TitleAll(segs[1..]);
      LowerConcat(Title(segs[0]) + "_", Join(TitleAll(segs[1..])));
      LowerConcat(Title(segs[0]), "_");
      LowerConcat(segs[0] + "_", Join(segs[1..]));
      LowerConcat(segs[0], "_");
    }
  }

  /** Joining the pieces of a split gives back the string. */
  lemma {:induction false} JoinSplit(s: string)
    ensures Join(Split(s)) == s
  {
    if s != [] {
      var rest := Split(s[1..]);
      JoinSplit(s[1..]);
      assert s == [s[0]] + s[1..];
      if s[0] == '_' {
        JoinEmptyHead(rest);
      } else {
        JoinExtendHead(s[0], rest);
      }
    }
  }

  /** A leading empty segment joins as a leading underscore. */
  lemma {:induction false} JoinEmptyHead(rest: seq<string>)
    requires |rest| >= 1
    ensures Join([[]] + rest) == "_" + Join(rest)
  {
    var segs := [[]] + rest;
    assert segs[1..] == rest;
  }

  /** A character put in front of the first segment ends up in front of the join. */
  lemma {:induction false} JoinExtendHead(c: char, rest: seq<string>)
    requires |rest| >= 1
    ensures Join([[c] + rest[0]] + rest[1..]) == [c] + Join(rest)
  {
    var segs := [[c] + rest[0]] + rest[1..];
    if |rest| > 1 {
      assert segs[1..] == rest[1..];
      assert Join(segs) == ([c] + rest[0]) + "_" + Join(rest[1..]);
      assert Join(rest) == rest[0] + "_" + Join(rest[1..]);
      assert ([c] + rest[0]) + "_" + Join(rest[1..]) == [c] + (rest[0] + "_" + Join(rest[1..]));
    }
  }

  lemma NoUnderscoreInTail(a: string)
    requires a != [] && !Contains(a, '_')
    ensures !Contains(a[1..], '_')
  {
    forall i | 0 <= i < |a[1..]|
      ensures a[1..][i] != '_'
    {
      assert a[1..][i] == a[i + 1];
    }
  }

  /** A string without underscores splits into itself alone. */
  lemma {:induction false} SplitPlain(a: string)
    requires !Contains(a, '_')
    ensures Split(a) == [a]
  {
    if a != [] {
      NoUnderscoreInTail(a);
      SplitPlain(a[1..]);
      assert [a[0]] + a[1..] == a;
    }
  }

  /** Splitting at the first underscore gives the part before it, then the split of the rest. */
  lemma {:induction false} SplitAt(a: string, b: string)
    requires !Contains(a, '_')
    ensures Split(a + "_" + b) == [a] + Split(b)
  {
    if a == [] {
      assert ([] + "_" + b)[1..] == b;
    } else {
      NoUnderscoreInTail(a);
      SplitAt(a[1..], b);
      assert (a + "_" + b)[1..] == a[1..] + "_" + b;
      assert [a[0]] + a[1..] == a;
    }
  }

  /** Normalisation changes only the case of letters, so the normalised key is the name ignoring case. */
  lemma NormalizeKeyIgnoringCase(name: string)
    ensures EqualIgnoringCase(NormalizeKey(name), name)
  {
    if Contains(name, '_') {
      LowerJoinTitle(Split(name));
      JoinSplit(name);
    }
  }

  /** A name without underscores keeps its capitalisation. */
  lemma NormalizeKeyKeepsPlainName()
    ensures NormalizeKey("CustomGray") == "CustomGray"
  {
    assert !Contains("CustomGray", '_') by {
      var s := "CustomGray";
      assert forall i :: 0 <= i < |s| ==> s[i] != '_';
    }
  }

  /** A name with underscores is title-cased segment by segment. */
  lemma NormalizeKeyTitlesSegments()
    ensures NormalizeKey("my_test") == "My_Test"
  {
    var name := "my_test";
    assert name[2] == '_';
    assert Contains(name, '_');
    SplitMyTest();
    TitleMyTest();
    assert TitleAll(["my", "test"]) == ["My", "Test"];
    assert Join(["My", "Test"]) == "My" + "_" + "Test" == "My_Test";
  }

  lemma SplitMyTest()
    ensures Split("my_test") == ["my", "test"]
  {
    assert !Contains("my", '_') by { var s := "my"; assert forall i :: 0 <= i < |s| ==> s[i] != '_'; }
    assert !Contains("test", '_') by { var s := "test"; assert forall i :: 0 <= i < |s| ==> s[i] != '_'; }
    assert "my" + "_" + "test" == "my_test";
    SplitAt("my", "test");
    SplitPlain("test");
  }

  lemma TitleMyTest()
    ensures Title("my") == "My" && Title("test") == "Test"
  {
    assert TitleFrom("y", true) == "y";
    assert TitleFrom("t", true) == "t";
    assert TitleFrom("st", true) == "st";
    assert TitleFrom("est", true) == "est";
  }

  // ---------------------------------------------------------------
  // Dictionary updates and `register`
  // ---------------------------------------------------------------

  /** `del PALETTES[keys[i]]` */
  function Delete(p: Palettes, i: nat): (r: Palettes)
    requires WellFormed(p) && i < |p.keys|
    ensures WellFormed(r)
    ensures r.keys == p.keys[..i] + p.keys[i + 1..]
    ensures r.table == p.table - {p.keys[i]}
  {
    var k := p.keys[i];
    var r := Palettes(p.keys[..i] + p.keys[i + 1..], p.table - {k});
    assert forall x :: x in r.keys ==> x in p.keys && x != k;
    assert forall x :: x in p.keys && x != k ==> x in r.keys;
    r
  }

  /** `PALETTES[key] = f`: an existing key keeps its position, a new one goes last. */
  function Assign(p: Palettes, key: string, f: PaletteFunc): (r: Palettes)
    requires WellFormed(p)
    ensures WellFormed(r)
    ensures r.table == p.table[key := f]
    ensures key in p.table ==> r.keys == p.keys
    ensures key !in p.table ==> r.keys == p.keys + [key]
  {
    if key in p.table then Palettes(p.keys, p.table[key := f])
    else Palettes(p.keys + [key], p.table[key := f])
  }

  /** The duplicate-removal loop of `register`: delete the first key equal to `name` ignoring case, if any. */
  function DropCaseDuplicate(p: Palettes, name: string): (r: Palettes)
    requires WellFormed(p)
    ensures WellFormed(r)
  {
    match FirstMatch(p.keys, Lower(name))
    case Some(i) => Delete(p, i)
    case None => p
  }

  /**
   * `register(name, f)`: an empty name is assigned directly; otherwise the
   * first key equal to the name ignoring case is deleted and `f` is stored
   * under `NormalizeKey(name)`.
   */
  function RegisterStep(p: Palettes, name: string, f: PaletteFunc): (r: Palettes)
    requires WellFormed(p)
    ensures WellFormed(r)
  {
    if name == [] then Assign(p, name, f)
    else Assign(DropCaseDuplicate(p, name), NormalizeKey(name), f)
  }

  /**
   * Without case duplicates to begin with, dropping the first match leaves
   * no key equal to `name` ignoring case, still no case duplicates, and one
   * key fewer exactly when there was a match.
   */
  lemma {:induction false} DropCaseDuplicateEffect(p: Palettes, name: string)
    requires WellFormed(p) && NoCaseDuplicates(p.keys)
    ensures var r := DropCaseDuplicate(p, name);
      && (forall k :: k in r.keys ==> Lower(k) != Lower(name))
      && NoCaseDuplicates(r.keys)
      && |r.keys| == (if FirstMatch(p.keys, Lower(name)).Some? then |p.keys| - 1 else |p.keys|)
  {
    match FirstMatch(p.keys, Lower(name))
    case None =>
    case Some(m) =>
      RemoveKeepsNoCaseDuplicates(p.keys, m);
  }

  /** Removing one key from a list without case duplicates leaves none, and none equal to it ignoring case. */
  lemma RemoveKeepsNoCaseDuplicates(keys: seq<string>, m: nat)
    requires NoCaseDuplicates(keys) && m < |keys|
    ensures var r := keys[..m] + keys[m + 1..];
      && NoCaseDuplicates(r)
      && forall k :: k in r ==> Lower(k) != Lower(keys[m])
  {
    var r := keys[..m] + keys[m + 1..];
    assert forall j :: 0 <= j < |r| ==> r[j] == keys[if j < m then j else j + 1];
    forall k | k in r
      ensures Lower(k) != Lower(keys[m])
    {
      var j :| 0 <= j < |r| && r[j] == k;
      assert k == keys[if j < m then j else j + 1];
    }
  }

  /** Storing under a key that clashes with no other key ignoring case keeps the table free of case duplicates. */
  lemma {:induction false} AssignKeepsNoCaseDuplicates(p: Palettes, key: string, f: PaletteFunc)
    requires WellFormed(p) && NoCaseDuplicates(p.keys)
    requires forall k :: k in p.keys && k != key ==> Lower(k) != Lower(key)
    ensures NoCaseDuplicates(Assign(p, key, f).keys)
    ensures forall k :: k in Assign(p, key, f).keys && Lower(k) == Lower(key) ==> k == key
  {
    var r := Assign(p, key, f);
    if key !in p.table {
      forall i, j | 0 <= i < j < |r.keys|
        ensures Lower(r.keys[i]) != Lower(r.keys[j])
      {
        if j == |p.keys| {
          assert r.keys[i] in p.keys;
        }
      }
    }
  }

  /** The only key that lowers to the empty string is the empty string. */
  lemma {:induction false} OnlyEmptyLowersToEmpty(k: string)
    ensures Lower(k) == [] ==> k == []
  {
  }

  /**
   * After `register(name, f)`, the key just written holds `f`, it is the only
   * key equal to `name` ignoring case, and the table still has no case
   * duplicates.
   */
  lemma RegisterEffect(p: Palettes, name: string, f: PaletteFunc)
    requires WellFormed(p) && NoCaseDuplicates(p.keys)
    ensures var r := RegisterStep(p, name, f);
      var key := if name == [] then name else NormalizeKey(name);
      && r.table == (if name == [] then p.table else DropCaseDuplicate(p, name).table)[key := f]
      && (forall k :: k in r.keys && EqualIgnoringCase(k, name) ==> k == key)
      && NoCaseDuplicates(r.keys)
  {
    var key := if name == [] then name else NormalizeKey(name);
    NormalizeKeyIgnoringCase(name);
    if name == [] {
      forall k | k in p.keys && k != key
        ensures Lower(k) != Lower(key)
      {
        OnlyEmptyLowersToEmpty(k);
      }
      AssignKeepsNoCaseDuplicates(p, key, f);
    } else {
      DropCaseDuplicateEffect(p, name);
      AssignKeepsNoCaseDuplicates(DropCaseDuplicate(p, name), key, f);
    }
  }

  /** A registered name is found again by `get` in any capitalisation. */
  lemma RegisterThenGet(p: Palettes, name: string, f: PaletteFunc, query: string)
    requires WellFormed(p) && NoCaseDuplicates(p.keys)
    requires EqualIgnoringCase(query, name)
    ensures GetIn(RegisterStep(p, name, f), query) == Some(f)
  {
    RegisterEffect(p, name, f);
    var key := if name == [] then name else NormalizeKey(name);
    NormalizeKeyIgnoringCase(name);
    GetFindsKey(RegisterStep(p, name, f), key, query);
  }

  /**
   * Registering a name that differs from an existing key only in case keeps
   * the palette count; registering a new name adds one.
   */
  lemma RegisterCount(p: Palettes, name: string, f: PaletteFunc)
    requires WellFormed(p) && NoCaseDuplicates(p.keys) && name != []
    ensures |RegisterStep(p, name, f).keys|
      == if exists k :: k in p.table && EqualIgnoringCase(k, name) then |p.keys| else |p.keys| + 1
  {
    DropCaseDuplicateEffect(p, name);
    NormalizeKeyIgnoringCase(name);
    var q := DropCaseDuplicate(p, name);
    assert NormalizeKey(name) !in q.keys;
    if exists k :: k in p.table && EqualIgnoringCase(k, name) {
      var k :| k in p.table && EqualIgnoringCase(k, name);
      var i :| 0 <= i < |p.keys| && p.keys[i] == k;
      assert FirstMatch(p.keys, Lower(name)).Some?;
    } else if FirstMatch(p.keys, Lower(name)).Some? {
      assert p.keys[FirstMatch(p.keys, Lower(name)).value] in p.table;
    }
  }

  /** `PaletteFactory` acting on the module-level `PALETTES`. */
  class PaletteFactory {
    var keys: seq<string>
    var table: map<string, PaletteFunc>

    function Model(): Palettes
      reads this
    {
      Palettes(keys, table)
    }

    predicate Valid()
      reads this
    {
      WellFormed(Model()) && NoCaseDuplicates(keys)
    }

    /** The table as the module defines it. */
    constructor ()
      ensures Valid() && Model() == Builtin()
    {
      keys := Builtin().keys;
      table := Builtin().table;
      BuiltinHasNoCaseDuplicates();
    }

    /** `list_names`: every key once, in insertion order. */
    function ListNames(): (names: seq<string>)
      reads this
      requires Valid()
      ensures forall k :: k in table <==> k in names
      ensures forall i, j :: 0 <= i < j < |names| ==> names[i] != names[j]
    {
      keys
    }

    /** `get` */
    method Get(name: string) returns (r: Option<PaletteFunc>)
      requires Valid()
      ensures r == GetIn(Model(), name)
    {
      var low := Lower(name);
      var i := 0;
      while i < |keys|
        invariant 0 <= i <= |keys|
        invariant forall j :: 0 <= j < i ==> Lower(keys[j]) != low
      {
        if Lower(keys[i]) == low {
          FirstMatchIs(keys, low, i);
          return Some(table[keys[i]]);
        }
        i := i + 1;
      }
      if "Rainbow" in table {
        r := Some(table["Rainbow"]);
      } else {
        r := None;
      }
    }

    /** `register` */
    method Register(name: string, f: PaletteFunc)
      requires Valid()
      modifies this
      ensures Valid() && Model() == RegisterStep(old(Model()), name, f)
    {
      ghost var p := Model();
      RegisterEffect(p, name, f);
      if name == [] {
        if name !in table {
          keys := keys + [name];
        }
        table := table[name := f];
        assert Model() == Assign(p, name, f);
        return;
      }
      var low := Lower(name);
      var i := 0;
      while i < |keys|
        invariant 0 <= i <= |keys|
        invariant keys == p.keys && table == p.table
        invariant forall j :: 0 <= j < i ==> Lower(keys[j]) != low
      {
        if Lower(keys[i]) == low {
          FirstMatchIs(keys, low, i);
          table := table - {keys[i]};
          keys := keys[..i] + keys[i + 1..];
          break;
        }
        i := i + 1;
      }
      assert Model() == DropCaseDuplicate(p, name);
      var normalized := if Contains(name, '_') then Join(TitleAll(Split(name))) else name;
      if normalized !in table {
        keys := keys + [normalized];
      }
      table := table[normalized := f];
      assert Model() == Assign(DropCaseDuplicate(p, name), NormalizeKey(name), f);
    }
  }
}
