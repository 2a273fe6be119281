/** Dune's view of a project: which file is which logical library. */
module Layout {
  import opened Outcomes

  type Path = seq<string>
  type Library = seq<string>

  /** A source as Dune reports it, with the logical prefix it was matched to and its build target. */
  datatype Source = Source(path: Path, prefix: Library, target: string)

  datatype Mapping = Mapping(directory: Path, prefix: Library)

  /** The file system and the naming rules, as far as the layout asks. */
  datatype Files = Files(canonical: Path -> Option<Path>, stem: string -> Option<string>, valid: string -> bool)

  datatype View = View(byLibrary: map<Library, Path>, byFile: map<Path, Library>, targets: map<Path, string>)

  datatype Entry = Entry(file: Path, library: Library, target: string)

  /** The logical name of a file below a mapped directory: its directories, then its stem. */
  function Components(files: Files, relative: Path): (r: Result<Library, ErrorKind>)
    ensures r.Ok? ==> Spells(files, relative, r.value)
    ensures r.Err? ==> r.error == InvalidConfiguration && forall names :: !Spells(files, relative, names)
  {
    if relative == [] then Ok([])
    else
      var name := if |relative| == 1 then files.stem(relative[0]) else Some(relative[0]);
      if name.None? || !files.valid(name.value) then
        assert forall names :: Spells(files, relative, names) ==> SpellsAt(files, relative, names, 0);
        Err(InvalidConfiguration)
      else
        SpellsOn(files, relative);
        match Components(files, relative[1..])
        case Err(e) => Err(e)
        case Ok(rest) => Ok([name.value] + rest)
  }

  /** A name is spelled part by part: the first part, and the rest below it. */
  lemma SpellsOn(files: Files, relative: Path)
    requires relative != []
    ensures forall names :: Spells(files, relative, names) ==> Spells(files, relative[1..], names[1..])
    ensures forall first, rest :: Spells(files, relative[1..], rest) && SpellsAt(files, relative, [first] + rest, 0) ==>
                                  Spells(files, relative, [first] + rest)
  {
    forall names | Spells(files, relative, names) ensures Spells(files, relative[1..], names[1..]) {
      forall i | 0 <= i < |relative| - 1 ensures SpellsAt(files, relative[1..], names[1..], i) {
        assert SpellsAt(files, relative, names, i + 1);
      }
    }
    forall first, rest | Spells(files, relative[1..], rest) && SpellsAt(files, relative, [first] + rest, 0)
      ensures Spells(files, relative, [first] + rest)
    {
      forall i | 0 < i < |relative| ensures SpellsAt(files, relative, [first] + rest, i) {
        assert SpellsAt(files, relative[1..], rest, i - 1);
      }
    }
  }

  /** Part `i` of the name is part `i` of the path, or, for the last one, its stem. */
  ghost predicate SpellsAt(files: Files, relative: Path, names: Library, i: nat) {
    && i < |relative| == |names| && files.valid(names[i])
    && if i + 1 < |relative| then names[i] == relative[i] else files.stem(relative[i]) == Some(names[i])
  }

  /** One part for each part of the path, in order. */
  ghost predicate Spells(files: Files, relative: Path, names: Library) {
    |names| == |relative| && forall i :: 0 <= i < |relative| ==> SpellsAt(files, relative, names, i)
  }

  /**
   * What one source becomes: its canonical file, inside the project and below the mapped directory, under
   * the mapped prefix followed by the directories in between and the file's stem.
   */
  ghost predicate Becomes(files: Files, root: Path, mapping: Mapping, source: Source, e: Entry) {
    && files.canonical(source.path) == Some(e.file) && root <= e.file && mapping.directory <= e.file
    && e.target == source.target && mapping.prefix <= e.library
    && Spells(files, e.file[|mapping.directory|..], e.library[|mapping.prefix|..])
  }

  function EntryFor(files: Files, root: Path, mapping: Mapping, source: Source): (r: Result<Entry, ErrorKind>)
    ensures r.Ok? ==> Becomes(files, root, mapping, source, r.value)
    ensures r.Err? ==> r.error == InvalidConfiguration && forall e :: !Becomes(files, root, mapping, source, e)
  {
    match files.canonical(source.path)
    case None => Err(InvalidConfiguration)
    case Some(file) =>
      if !(root <= file) || !(mapping.directory <= file) then Err(InvalidConfiguration)
      else match Components(files, file[|mapping.directory|..])
        case Err(e) => Err(e)
        case Ok(names) =>
          assert (mapping.prefix + names)[|mapping.prefix|..] == names;
          Ok(Entry(file, mapping.prefix + names, source.target))
  }

  /** There is only one. */
  lemma BecomesOne(files: Files, root: Path, mapping: Mapping, source: Source, a: Entry, b: Entry)
    requires Becomes(files, root, mapping, source, a) && Becomes(files, root, mapping, source, b)
    ensures a == b
  {
    var below, m, n := a.file[|mapping.directory|..], a.library[|mapping.prefix|..], b.library[|mapping.prefix|..];
    forall i | 0 <= i < |below| ensures m[i] == n[i] {
      assert SpellsAt(files, below, m, i) && SpellsAt(files, below, n, i);
    }
    assert a.library == mapping.prefix + m && b.library == mapping.prefix + n;
  }

  predicate Matches(mapping: Mapping, source: Source) {
    mapping.directory <= source.path && mapping.prefix == source.prefix
  }

  /** The compilation units, in the order the program meets them. */
  function UnitsOf(mapping: Mapping, sources: seq<Source>): seq<(Mapping, Source)> {
    if sources == [] then []
    else UnitsOf(mapping, sources[..|sources| - 1])
         + (if Matches(mapping, sources[|sources| - 1]) then [(mapping, sources[|sources| - 1])] else [])
  }

  function Units(mappings: seq<Mapping>, sources: seq<Source>): seq<(Mapping, Source)> {
    if mappings == [] then [] else Units(mappings[..|mappings| - 1], sources) + UnitsOf(mappings[|mappings| - 1], sources)
  }

  /** How often a pair occurs: once for each pair of occurrences, if the directory is above the source and the prefixes agree. */
  lemma {:induction false} UnitsAre(mappings: seq<Mapping>, sources: seq<Source>, m: Mapping, s: Source)
    ensures multiset(Units(mappings, sources))[(m, s)]
            == if m.directory <= s.path && m.prefix == s.prefix then multiset(mappings)[m] * multiset(sources)[s] else 0
    decreases |mappings|
  {
    if mappings != [] {
      var init := mappings[..|mappings| - 1];
      UnitsAre(init, sources, m, s);
      UnitsGrow(mappings, sources, m, s);
      OneMore(multiset(init)[m], multiset(sources)[s], m == mappings[|mappings| - 1]);
    }
  }

  /** What the last mapping adds. */
  lemma UnitsGrow(mappings: seq<Mapping>, sources: seq<Source>, m: Mapping, s: Source)
    requires mappings != []
    ensures var init, last := mappings[..|mappings| - 1], mappings[|mappings| - 1];
            && multiset(mappings)[m] == multiset(init)[m] + (if m == last then 1 else 0)
            && multiset(Units(mappings, sources))[(m, s)]
               == multiset(Units(init, sources))[(m, s)] + (if m == last && Matches(m, s) then multiset(sources)[s] else 0)
  {
    var init, last := mappings[..|mappings| - 1], mappings[|mappings| - 1];
    assert mappings == init + [last];
    UnitsOfAre(last, sources, m, s);
  }

  lemma OneMore(n: nat, k: nat, more: bool)
    ensures (n + if more then 1 else 0) * k == n * k + if more then k else 0
  {
  }

  lemma UnitsMeet(mappings: seq<Mapping>, sources: seq<Source>, m: Mapping, s: Source)
    ensures (m, s) in Units(mappings, sources) <==> m in mappings && s in sources && m.directory <= s.path && m.prefix == s.prefix
  {
    UnitsAre(mappings, sources, m, s);
    assert m in mappings <==> multiset(mappings)[m] > 0;
    assert s in sources <==> multiset(sources)[s] > 0;
    assert (m, s) in Units(mappings, sources) <==> multiset(Units(mappings, sources))[(m, s)] > 0;
  }

  lemma {:induction false} UnitsOfAre(mapping: Mapping, sources: seq<Source>, m: Mapping, s: Source)
    ensures multiset(UnitsOf(mapping, sources))[(m, s)] == if m == mapping && Matches(m, s) then multiset(sources)[s] else 0
    ensures (m, s) in UnitsOf(mapping, sources) <==> m == mapping && s in sources && Matches(m, s)
    decreases |sources|
  {
    if sources != [] {
      var init, last := sources[..|sources| - 1], sources[|sources| - 1];
      assert sources == init + [last];
      UnitsOfAre(mapping, init, m, s);
    }
  }

  /** Insert one entry into all three maps; any key already present makes the layout ambiguous. */
  function Insert(view: View, e: Entry): Option<View> {
    if e.library in view.byLibrary || e.file in view.byFile || e.file in view.targets then None
    else Some(View(view.byLibrary[e.library := e.file], view.byFile[e.file := e.library], view.targets[e.file := e.target]))
  }

  // ---------------------------------------------------------------- what a layout is

  /** The two maps undo each other, and build targets are known for the same files. */
  ghost predicate Inverse(view: View) {
    && (forall l :: l in view.byLibrary ==> view.byLibrary[l] in view.byFile && view.byFile[view.byLibrary[l]] == l)
    && (forall f :: f in view.byFile ==> view.byFile[f] in view.byLibrary && view.byLibrary[view.byFile[f]] == f)
    && view.targets.Keys == view.byFile.Keys
  }

  /** Exactly these entries, no two of them sharing a file or a library. */
  ghost predicate Holds(view: View, entries: seq<Entry>) {
    && view.byFile.Keys == FilesOf(entries)
    && (forall i :: 0 <= i < |entries| ==>
          && entries[i].file in view.byFile && view.byFile[entries[i].file] == entries[i].library
          && entries[i].file in view.targets && view.targets[entries[i].file] == entries[i].target)
    && Unambiguous(entries)
  }

  function FilesOf(entries: seq<Entry>): set<Path> {
    set i | 0 <= i < |entries| :: entries[i].file
  }

  ghost predicate Unambiguous(entries: seq<Entry>) {
    forall i, j :: 0 <= i < j < |entries| ==> entries[i].file != entries[j].file && entries[i].library != entries[j].library
  }

  lemma InsertKeeps(view: View, entries: seq<Entry>, e: Entry)
    requires Inverse(view) && Holds(view, entries)
    ensures Insert(view, e).Some? ==> Inverse(Insert(view, e).value) && Holds(Insert(view, e).value, entries + [e])
    ensures Insert(view, e).None? ==> !Unambiguous(entries + [e])
  {
    var all := entries + [e];
    assert all[|entries|] == e;
    if Insert(view, e).Some? {
      InsertHolds(view, entries, e);
    } else {
      var f := if e.library in view.byLibrary then view.byLibrary[e.library] else e.file;
      assert f in FilesOf(entries);
      var i :| 0 <= i < |entries| && entries[i].file == f;
      assert all[i] == entries[i];
    }
  }

  lemma InsertHolds(view: View, entries: seq<Entry>, e: Entry)
    requires Inverse(view) && Holds(view, entries) && Insert(view, e).Some?
    ensures Holds(Insert(view, e).value, entries + [e])
  {
    var now, all := Insert(view, e).value, entries + [e];
    FilesGrow(entries, e);
    forall i | 0 <= i < |entries| ensures all[i] == entries[i] && all[i].file != e.file && all[i].library != e.library {
      assert entries[i].file in view.byFile;
    }
  }

  lemma FilesGrow(entries: seq<Entry>, e: Entry)
    ensures FilesOf(entries + [e]) == FilesOf(entries) + {e.file}
  {
    var all := entries + [e];
    assert all[|entries|] == e;
    forall f | f in FilesOf(entries) ensures f in FilesOf(all) {
      var i :| 0 <= i < |entries| && entries[i].file == f;
      assert all[i].file == f;
    }
  }

  /** All units resolved, in order. */
  ghost function Resolved(files: Files, root: Path, units: seq<(Mapping, Source)>): Option<seq<Entry>> {
    if units == [] then Some([])
    else match Resolved(files, root, units[..|units| - 1])
      case None => None
      case Some(entries) =>
        match EntryFor(files, root, units[|units| - 1].0, units[|units| - 1].1)
        case Err(_) => None
        case Ok(e) => Some(entries + [e])
  }

  /** One entry for each unit, each what its unit becomes. */
  ghost predicate Lists(files: Files, root: Path, units: seq<(Mapping, Source)>, entries: seq<Entry>) {
    |entries| == |units| && forall i :: 0 <= i < |units| ==> Becomes(files, root, units[i].0, units[i].1, entries[i])
  }

  lemma {:induction false} ResolvedLists(files: Files, root: Path, units: seq<(Mapping, Source)>)
    ensures Resolved(files, root, units).Some? ==> Lists(files, root, units, Resolved(files, root, units).value)
    ensures forall entries :: Lists(files, root, units, entries) ==> Resolved(files, root, units) == Some(entries)
    decreases |units|
  {
    if units != [] {
      var n := |units| - 1;
      ResolvedLists(files, root, units[..n]);
      forall entries | Lists(files, root, units, entries) ensures Resolved(files, root, units) == Some(entries) {
        assert Lists(files, root, units[..n], entries[..n]);
        BecomesOne(files, root, units[n].0, units[n].1, EntryFor(files, root, units[n].0, units[n].1).value, entries[n]);
        assert entries == entries[..n] + [entries[n]];
      }
    }
  }

  // ---------------------------------------------------------------- loading

  /** Some beginning of the units resolves to entries that share a file or a library. */
  ghost predicate Clashes(files: Files, root: Path, units: seq<(Mapping, Source)>, i: nat) {
    i <= |units| && Resolved(files, root, units[..i]).Some? && !Unambiguous(Resolved(files, root, units[..i]).value)
  }

  /**
   * Build the maps unit by unit. It succeeds exactly when every unit resolves and no two share a
   * file or a library, and then the maps are mutually inverse and hold exactly those units.
   */
  method LoadUnits(files: Files, root: Path, units: seq<(Mapping, Source)>) returns (r: Result<View, ErrorKind>)
    ensures r.Ok? <==> exists entries :: Lists(files, root, units, entries) && Unambiguous(entries)
    ensures r.Ok? ==> exists entries :: Lists(files, root, units, entries) && Inverse(r.value) && Holds(r.value, entries)
    ensures r == Err(Ambiguous) <==> exists i :: Clashes(files, root, units, i)
    ensures r.Err? ==> r.error == InvalidConfiguration || r.error == Ambiguous
  {
    var view := View(map[], map[], map[]);
    ghost var entries: seq<Entry> := [];
    ResolvedLists(files, root, units);
    for i := 0 to |units|
      invariant Resolved(files, root, units[..i]) == Some(entries)
      invariant Inverse(view) && Holds(view, entries)
    {
      assert units[..i + 1][..i] == units[..i];
      var e := EntryFor(files, root, units[i].0, units[i].1);
      if e.Err? {
        NeverResolved(files, root, units, i + 1);
        NoClash(files, root, units, i);
        return Err(e.error);
      }
      InsertKeeps(view, entries, e.value);
      var next := Insert(view, e.value);
      if next.None? {
        StaysAmbiguous(files, root, units, i + 1);
        assert Clashes(files, root, units, i + 1);
        return Err(Ambiguous);
      }
      view, entries := next.value, entries + [e.value];
    }
    assert units[..|units|] == units;
    NoClash(files, root, units, |units|);
    r := Ok(view);
  }

  /** As long as nothing clashed, nothing did before; and past a unit that does not resolve nothing resolves. */
  lemma NoClash(files: Files, root: Path, units: seq<(Mapping, Source)>, i: nat)
    requires i <= |units| && Resolved(files, root, units[..i]).Some? && Unambiguous(Resolved(files, root, units[..i]).value)
    requires i < |units| ==> Resolved(files, root, units[..i + 1]).None?
    ensures forall j :: !Clashes(files, root, units, j)
  {
    forall j: nat | Clashes(files, root, units, j) ensures false {
      if j <= i {
        assert units[..i][..j] == units[..j];
        StaysAmbiguous(files, root, units[..i], j);
      } else {
        assert units[..j][..i + 1] == units[..i + 1];
        NeverResolved(files, root, units[..j], i + 1);
      }
    }
  }

  lemma {:induction false} NeverResolved(files: Files, root: Path, units: seq<(Mapping, Source)>, i: nat)
    requires i <= |units| && Resolved(files, root, units[..i]).None?
    ensures Resolved(files, root, units).None?
    decreases |units| - i
  {
    if i == |units| {
      assert units[..i] == units;
    } else {
      assert units[..i + 1][..i] == units[..i];
      NeverResolved(files, root, units, i + 1);
    }
  }

  lemma {:induction false} StaysAmbiguous(files: Files, root: Path, units: seq<(Mapping, Source)>, i: nat)
    requires i <= |units| && Resolved(files, root, units[..i]).Some? && !Unambiguous(Resolved(files, root, units[..i]).value)
    ensures Resolved(files, root, units).Some? ==> !Unambiguous(Resolved(files, root, units).value)
    decreases |units| - i
  {
    if i == |units| {
      assert units[..i] == units;
    } else {
      assert units[..i + 1][..i] == units[..i];
      if Resolved(files, root, units[..i + 1]).Some? {
        var few, more := Resolved(files, root, units[..i]).value, Resolved(files, root, units[..i + 1]).value;
        var j, k :| 0 <= j < k < |few| && !(few[j].file != few[k].file && few[j].library != few[k].library);
        assert more[j] == few[j] && more[k] == few[k];
        StaysAmbiguous(files, root, units, i + 1);
      } else {
        NeverResolved(files, root, units, i + 1);
      }
    }
  }

  /** The view holds this entry. */
  ghost predicate Shows(view: View, e: Entry) {
    && e.file in view.byFile && view.byFile[e.file] == e.library
    && e.library in view.byLibrary && view.byLibrary[e.library] == e.file
    && e.file in view.targets && view.targets[e.file] == e.target
  }

  /** What the view says, in terms of what Dune listed: every source below a mapping of its prefix, and nothing else. */
  ghost predicate Covers(files: Files, root: Path, mappings: seq<Mapping>, sources: seq<Source>, view: View) {
    && (forall m, s :: m in mappings && s in sources && Matches(m, s) ==> exists e :: Becomes(files, root, m, s, e) && Shows(view, e))
    && (forall f :: f in view.byFile ==> exists m, s, e :: m in mappings && s in sources && Matches(m, s)
                                                          && Becomes(files, root, m, s, e) && Shows(view, e) && e.file == f)
  }

  lemma HoldsCovers(files: Files, root: Path, mappings: seq<Mapping>, sources: seq<Source>, view: View, entries: seq<Entry>)
    requires Lists(files, root, Units(mappings, sources), entries) && Inverse(view) && Holds(view, entries)
    ensures Covers(files, root, mappings, sources, view)
  {
    hide Becomes, Units;
    var units := Units(mappings, sources);
    forall m, s | m in mappings && s in sources && Matches(m, s) ensures exists e :: Becomes(files, root, m, s, e) && Shows(view, e) {
      UnitsMeet(mappings, sources, m, s);
      var i :| 0 <= i < |units| && units[i] == (m, s);
      assert Becomes(files, root, m, s, entries[i]) && Shows(view, entries[i]);
    }
    forall f | f in view.byFile
      ensures exists m, s, e :: m in mappings && s in sources && Matches(m, s)
                                && Becomes(files, root, m, s, e) && Shows(view, e) && e.file == f
    {
      var i :| 0 <= i < |entries| && entries[i].file == f;
      UnitsMeet(mappings, sources, units[i].0, units[i].1);
      assert units[i] in units && Becomes(files, root, units[i].0, units[i].1, entries[i]) && Shows(view, entries[i]);
    }
  }

  /**
   * Load the whole view. It succeeds exactly when every source below a mapping of its prefix has a place
   * and a name and no two share either; then its maps undo each other, and say of each of those sources,
   * and of nothing else, its file, its name and its target.
   */
  method Load(files: Files, root: Path, mappings: seq<Mapping>, sources: seq<Source>) returns (r: Result<View, ErrorKind>)
    ensures r.Ok? <==> exists entries :: Lists(files, root, Units(mappings, sources), entries) && Unambiguous(entries)
    ensures r.Ok? ==> Inverse(r.value) && Covers(files, root, mappings, sources, r.value)
    ensures r == Err(Ambiguous) <==> exists i :: Clashes(files, root, Units(mappings, sources), i)
    ensures r.Err? ==> r.error == InvalidConfiguration || r.error == Ambiguous
  {
    var units: seq<(Mapping, Source)> := [];
    for i := 0 to |mappings|
      invariant units == Units(mappings[..i], sources)
    {
      assert mappings[..i + 1][..i] == mappings[..i];
      units := units + UnitsOf(mappings[i], sources);
    }
    assert mappings[..|mappings|] == mappings;
    r := LoadUnits(files, root, units);
    if r.Ok? {
      ghost var entries :| Lists(files, root, units, entries) && Inverse(r.value) && Holds(r.value, entries);
      HoldsCovers(files, root, mappings, sources, r.value, entries);
    }
  }

  // ---------------------------------------------------------------- looking up a constant

  /** A library that can define the constant: a proper prefix of its path. */
  predicate Defines(library: Library, parts: seq<string>) {
    |library| < |parts| && library <= parts
  }

  /** The longest one. Prefixes of one path of equal length are equal, so there is at most one. */
  ghost predicate Longest(byLibrary: map<Library, Path>, parts: seq<string>, library: Library) {
    && library in byLibrary && Defines(library, parts)
    && forall l :: l in byLibrary && Defines(l, parts) && l != library ==> |l| < |library|
  }

  lemma LongestIsUnique(byLibrary: map<Library, Path>, parts: seq<string>, a: Library, b: Library)
    requires Longest(byLibrary, parts, a) && Longest(byLibrary, parts, b)
    ensures a == b
  {
  }

  /** Whatever order the map is walked in, the answer is the file of the unique longest proper prefix. */
  method SourceForConstant(byLibrary: map<Library, Path>, parts: seq<string>) returns (r: Option<Path>)
    ensures r.None? <==> forall l :: l in byLibrary ==> !Defines(l, parts)
    ensures r.Some? ==> exists l :: Longest(byLibrary, parts, l) && r.value == byLibrary[l]
  {
    var todo, best := byLibrary.Keys, None;
    while todo != {}
      invariant todo <= byLibrary.Keys
      invariant best.None? ==> forall l :: l in byLibrary && l !in todo ==> !Defines(l, parts)
      invariant best.Some? ==> best.value in byLibrary && Defines(best.value, parts)
      invariant best.Some? ==> forall l :: l in byLibrary && l !in todo && Defines(l, parts) && l != best.value ==> |l| < |best.value|
      decreases |todo|
    {
      var l :| l in todo;
      if Defines(l, parts) && (best.None? || |best.value| <= |l|) {
        if best.Some? && |best.value| == |l| {
          SameLengthPrefixes(best.value, l, parts);
        }
        best := Some(l);
      } else if Defines(l, parts) {
        assert |l| < |best.value|;
      }
      todo := todo - {l};
    }
    if best.None? { return None; }
    assert Longest(byLibrary, parts, best.value);
    r := Some(byLibrary[best.value]);
  }

  lemma SameLengthPrefixes(a: Library, b: Library, parts: seq<string>)
    requires Defines(a, parts) && Defines(b, parts) && |a| == |b|
    ensures a == b
  {
    assert a == parts[..|a|] && b == parts[..|b|];
  }
}
