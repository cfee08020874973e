/**
  * The two name-file readers: the `models` block of `mfsim.nam`
  * (`get_model_names_from_mfsim`) and the `packages` block of a GWF name
  * file (`get_package_names_from_gwfname`). A file is a `seq<string>` of
  * lines without terminators; reading past the last line is end of file.
  * Only the first block of each kind is read.
  */
module NameFiles {
  import opened Wrappers
  import opened PyText
  import opened Decimal

  /** Why a name file could not be read; each kind is one `raise` (or an `IndexError`) of the readers. */
  datatype NamError =
    | EofBeforeBlock          // EOF when looking for the block
    | EofInBlock              // EOF when reading the block
    | DuplicateModel(name: string)
    | MissingItem             // a token read from a line that has too few (IndexError)
    | WrongItemCount          // a package line with fewer than two items

  /** `line.strip().lower().startswith("begin") and word in line.lower()` */
  predicate Opens(line: string, word: string) {
    StartsWith(Lower(Strip(line)), "begin") && Contains(Lower(line), word)
  }

  /** `line.strip().lower().startswith("end") and word in line.lower()` */
  predicate Closes(line: string, word: string) {
    StartsWith(Lower(Strip(line)), "end") && Contains(Lower(line), word)
  }

  // ----- the models block of mfsim.nam -----

  /** Model name to model type, and model name to name file. */
  datatype ModelTables = ModelTables(types: map<string, string>, namFiles: map<string, string>)

  /**
    * One line of the `models` block, from its tokens: the duplicate test
    * looks at the last token, the entry is keyed by the third.
    */
  function ModelLine(t: ModelTables, raw: seq<string>): Result<ModelTables, NamError> {
    if raw == [] then Failure(MissingItem)
    else if raw[|raw| - 1] in t.types then Failure(DuplicateModel(raw[|raw| - 1]))
    else if |raw| < 3 then Failure(MissingItem)
    else Success(ModelTables(t.types[raw[2] := raw[0]], t.namFiles[raw[2] := raw[1]]))
  }

  /**
    * A line as the models reader tests it: whether it opens a models block,
    * whether it closes one, and its `strip().lower().split()` items.
    */
  datatype ModelsView = ModelsView(opens: bool, closes: bool, raw: seq<string>)

  function ModelsViewOf(line: string): ModelsView {
    ModelsView(Opens(line, "models"), Closes(line, "models"), LowTokens(line))
  }

  /** The view of every line of `mfsim.nam`, in order. */
  function ModelsViews(lines: seq<string>): (r: seq<ModelsView>)
    ensures |r| == |lines|
  {
    if lines == [] then [] else [ModelsViewOf(lines[0])] + ModelsViews(lines[1..])
  }

  lemma {:induction false} ModelsViewsAt(lines: seq<string>, k: nat)
    requires k < |lines|
    ensures ModelsViews(lines)[k] == ModelsViewOf(lines[k])
  {
    if k > 0 {
      ModelsViewsAt(lines[1..], k - 1);
    }
  }

  /** The `models` block from line `i` on, up to its `end` line. */
  function ScanModelsBlock(ms: seq<ModelsView>, i: nat, t: ModelTables): Result<ModelTables, NamError>
    requires i <= |ms|
    decreases |ms| - i
  {
    if i == |ms| then Failure(EofInBlock)
    else if ms[i].closes then Success(t)
    else
      match ModelLine(t, ms[i].raw)
      case Failure(e) => Failure(e)
      case Success(t') => ScanModelsBlock(ms, i + 1, t')
  }

  /** The lines before the first `begin ... models` line are passed over. */
  function ScanModels(ms: seq<ModelsView>, i: nat): Result<ModelTables, NamError>
    requires i <= |ms|
    decreases |ms| - i
  {
    if i == |ms| then Failure(EofBeforeBlock)
    else if ms[i].opens then ScanModelsBlock(ms, i + 1, ModelTables(map[], map[]))
    else ScanModels(ms, i + 1)
  }

  /** `f.readline()` in the models reader: line `pos`, as the reader tests it. */
  method ReadModelsLine(lines: seq<string>, ghost ms: seq<ModelsView>, pos: nat) returns (v: ModelsView)
    requires ms == ModelsViews(lines) && pos < |lines|
    ensures v == ms[pos]
  {
    v := ModelsViewOf(lines[pos]);
    ModelsViewsAt(lines, pos);
  }

  /** `get_model_names_from_mfsim` on the lines of `mfsim.nam`. */
  method GetModelNamesFromMfsim(lines: seq<string>) returns (r: Result<ModelTables, NamError>)
    ensures r == ScanModels(ModelsViews(lines), 0)
  {
    ghost var ms := ModelsViews(lines);
    ghost var outcome := ScanModels(ms, 0);
    var modelDict: map<string, string> := map[];
    var namfileDict: map<string, string> := map[];
    var pos := 0;
    while true
      invariant pos <= |lines| && ScanModels(ms, pos) == outcome
      decreases |lines| - pos
    {
      if pos == |lines| {
        return Failure(EofBeforeBlock);
      }
      var view := ReadModelsLine(lines, ms, pos);
      pos := pos + 1;
      if view.opens {
        while true
          invariant pos <= |lines|
          invariant ScanModelsBlock(ms, pos, ModelTables(modelDict, namfileDict)) == outcome
          decreases |lines| - pos
        {
          if pos == |lines| {
            return Failure(EofInBlock);
          }
          var view2 := ReadModelsLine(lines, ms, pos);
          pos := pos + 1;
          if view2.closes {
            break;
          }
          var raw := view2.raw;
          if raw == [] {
            return Failure(MissingItem);
          }
          if raw[|raw| - 1] in modelDict {
            return Failure(DuplicateModel(raw[|raw| - 1]));
          }
          if |raw| < 3 {
            return Failure(MissingItem);
          }
          modelDict := modelDict[raw[2] := raw[0]];
          namfileDict := namfileDict[raw[2] := raw[1]];
        }
        return Success(ModelTables(modelDict, namfileDict));
      }
    }
  }

  // ----- the packages block of a GWF name file -----

  /** One package line: its type, its file, and its explicit name if it has a third item. */
  datatype PackageDecl = PackageDecl(ptype: string, fname: string, tag: Option<string>)

  /**
    * One line of the `packages` block: a line whose first token starts with
    * `#` is passed over; otherwise an inline comment is cut off, and at least
    * two items must remain.
    */
  function PackageLine(line2: string): Result<Option<PackageDecl>, NamError> {
    var raw := LowTokens(line2);
    if raw == [] then Failure(MissingItem)
    else if StartsWith(raw[0], "#") then Success(None)
    else
      var items := if Contains(line2, "#") then Split(Lower(BeforeFirst(line2, '#'))) else raw;
      if |items| < 2 then Failure(WrongItemCount)
      else Success(Some(PackageDecl(items[0], items[1], if |items| > 2 then Some(items[2]) else None)))
  }

  /** A blank package line has no first item, which the reader reports as a missing item. */
  lemma PackageLineBlank(line2: string)
    ensures PackageLine(line2) == Failure(MissingItem) <==> Strip(line2) == []
  {
    StripLower(line2);
    if Strip(line2) != [] {
      StripSplitFirst(Lower(line2));
    }
  }

  /** A package line is passed over exactly when its stripped text starts with `#`. */
  lemma PackageLineComment(line2: string)
    ensures PackageLine(line2) == Success(None) <==> Strip(line2) != [] && Strip(line2)[0] == '#'
  {
    StripLower(line2);
    if Strip(line2) != [] {
      StripSplitFirst(Lower(line2));
      assert LowTokens(line2)[0][0] == LowerChar(Strip(line2)[0]);
    }
  }

  /**
    * Any other package line is read from the lower-cased words of its text
    * before the first `#`: fewer than two is an error, and otherwise the
    * first is the type, the second the file and a third, if present, the name.
    */
  lemma PackageLineItems(line2: string)
    requires !IsBlankOrComment(line2)
    ensures var items := Split(Lower(BeforeFirst(line2, '#')));
      (PackageLine(line2) == Failure(WrongItemCount) <==> |items| < 2) &&
      (|items| >= 2 ==>
         PackageLine(line2) ==
           Success(Some(PackageDecl(items[0], items[1], if |items| > 2 then Some(items[2]) else None))))
  {
    PackageLineComment(line2);
    PackageLineBlank(line2);
    if !Contains(line2, "#") {
      BeforeFirstAbsent(line2, '#');
      StripLower(line2);
      SplitStrip(Lower(line2));
    }
  }

  /** The package lines of the `packages` block from line `i` on, after those in `ds`, up to its `end` line. */
  function ScanPackagesBlock(lines: seq<string>, i: nat, ds: seq<PackageDecl>): Result<seq<PackageDecl>, NamError>
    requires i <= |lines|
    decreases |lines| - i
  {
    if i == |lines| then Failure(EofInBlock)
    else if Closes(lines[i], "packages") then Success(ds)
    else
      match PackageLine(lines[i])
      case Failure(e) => Failure(e)
      case Success(None) => ScanPackagesBlock(lines, i + 1, ds)
      case Success(Some(d)) => ScanPackagesBlock(lines, i + 1, ds + [d])
  }

  /** The package lines of the first `packages` block, in file order. */
  function ScanPackages(lines: seq<string>, i: nat): Result<seq<PackageDecl>, NamError>
    requires i <= |lines|
    decreases |lines| - i
  {
    if i == |lines| then Failure(EofBeforeBlock)
    else if Opens(lines[i], "packages") then ScanPackagesBlock(lines, i + 1, [])
    else ScanPackages(lines, i + 1)
  }

  /** The name given to the `ordinal`-th package of a type that has no explicit name: `wel6` gives `wel-1`, `wel-2`, ... */
  function AutoName(ptype: string, ordinal: nat): string {
    RemoveChar(ptype, '6') + "-" + Digits(ordinal)
  }

  /** `count_dict` (the next ordinal of each type) and `package_dict` (the names of each type). */
  datatype Registry = Registry(counts: map<string, nat>, packages: map<string, seq<string>>)

  /** Recording one package line. */
  function Register(reg: Registry, d: PackageDecl): Registry {
    var counts := if d.ptype in reg.counts then reg.counts else reg.counts[d.ptype := 1];
    var packages := if d.ptype in reg.packages then reg.packages else reg.packages[d.ptype := []];
    var name := if d.tag.Some? then d.tag.value else AutoName(d.ptype, counts[d.ptype]);
    Registry(counts[d.ptype := counts[d.ptype] + 1], packages[d.ptype := packages[d.ptype] + [name]])
  }

  /** Recording package lines in order, from an empty registry. */
  function RegisterAll(ds: seq<PackageDecl>): Registry {
    if ds == [] then Registry(map[], map[]) else Register(RegisterAll(ds[..|ds| - 1]), ds[|ds| - 1])
  }

  /** What `get_package_names_from_gwfname` returns for the lines of a GWF name file. */
  function PackageNames(lines: seq<string>): Result<map<string, seq<string>>, NamError> {
    match ScanPackages(lines, 0)
    case Failure(e) => Failure(e)
    case Success(ds) => Success(RegisterAll(ds).packages)
  }

  /** `get_package_names_from_gwfname` on the lines of a GWF name file. */
  method GetPackageNamesFromGwfname(lines: seq<string>) returns (r: Result<map<string, seq<string>>, NamError>)
    ensures r == PackageNames(lines)
  {
    var pos := 0;
    while true
      invariant pos <= |lines| && ScanPackages(lines, pos) == ScanPackages(lines, 0)
      decreases |lines| - pos
    {
      if pos == |lines| {
        return Failure(EofBeforeBlock);
      }
      var line := lines[pos];
      pos := pos + 1;
      if Opens(line, "packages") {
        r := ReadPackagesBlock(lines, pos);
        return;
      }
    }
  }

  /** The inner loop of `get_package_names_from_gwfname`: the lines after `begin packages`. */
  method ReadPackagesBlock(lines: seq<string>, start: nat) returns (r: Result<map<string, seq<string>>, NamError>)
    requires start <= |lines|
    ensures r == match ScanPackagesBlock(lines, start, [])
                 case Failure(e) => Failure(e)
                 case Success(ds) => Success(RegisterAll(ds).packages)
  {
    var packageDict: map<string, seq<string>> := map[];
    var countDict: map<string, nat> := map[];
    var pos := start;
    ghost var ds: seq<PackageDecl> := [];
    while true
      invariant start <= pos <= |lines|
      invariant ScanPackagesBlock(lines, pos, ds) == ScanPackagesBlock(lines, start, [])
      invariant Registry(countDict, packageDict) == RegisterAll(ds)
      decreases |lines| - pos
    {
      if pos == |lines| {
        return Failure(EofInBlock);
      }
      var line2 := lines[pos];
      pos := pos + 1;
      if Closes(line2, "packages") {
        break;
      }
      var parsed := ReadPackageLine(line2);
      if parsed.Failure? {
        return Failure(parsed.error);
      }
      if parsed.value.None? {
        continue;
      }
      var d := parsed.value.value;
      ghost var before := Registry(countDict, packageDict);
      countDict, packageDict := RecordPackage(countDict, packageDict, d);
      RegisterStep(ds, d, before, Registry(countDict, packageDict));
      ds := ds + [d];
    }
    return Success(packageDict);
  }

  /** The tokens of one line of the `packages` block, with the comment and item-count checks. */
  method ReadPackageLine(line2: string) returns (r: Result<Option<PackageDecl>, NamError>)
    ensures r == PackageLine(line2)
  {
    var raw := LowTokens(line2);
    if raw == [] {
      return Failure(MissingItem);
    }
    if StartsWith(raw[0], "#") {
      return Success(None);
    }
    if Contains(line2, "#") {
      raw := Split(Lower(BeforeFirst(line2, '#')));
    }
    if |raw| < 2 {
      return Failure(WrongItemCount);
    }
    var tagName: Option<string> := None;
    if |raw| > 2 {
      tagName := Some(raw[2]);
    }
    var packageType := raw[0];
    var filename := raw[1];
    return Success(Some(PackageDecl(packageType, filename, tagName)));
  }

  /** The `count_dict` and `package_dict` updates for one package line. */
  method RecordPackage(countDict: map<string, nat>, packageDict: map<string, seq<string>>, d: PackageDecl)
    returns (counts: map<string, nat>, packages: map<string, seq<string>>)
    ensures Registry(counts, packages) == Register(Registry(countDict, packageDict), d)
  {
    counts, packages := countDict, packageDict;
    var packageType, tagName := d.ptype, d.tag;
    if packageType !in counts {
      counts := counts[packageType := 1];
    }
    if packageType !in packages {
      packages := packages[packageType := []];
    }
    var name := if tagName.Some? then tagName.value else AutoName(packageType, counts[packageType]);
    packages := packages[packageType := packages[packageType] + [name]];
    counts := counts[packageType := counts[packageType] + 1];
  }

  /** Registering one more declaration is one `Register` step. */
  lemma RegisterStep(ds: seq<PackageDecl>, d: PackageDecl, before: Registry, after: Registry)
    requires before == RegisterAll(ds)
    requires after == Register(before, d)
    ensures after == RegisterAll(ds + [d])
  {
    assert (ds + [d])[..|ds + [d]| - 1] == ds;
  }

  // ----- lemmas -----

  /** The package lines of type `t`, in file order. */
  function OfType(ds: seq<PackageDecl>, t: string): (r: seq<PackageDecl>)
    ensures |r| <= |ds|
  {
    if ds == [] then []
    else OfType(ds[..|ds| - 1], t) + (if ds[|ds| - 1].ptype == t then [ds[|ds| - 1]] else [])
  }

  /** The name of a package line that is the `ordinal`-th of its type. */
  function NameOf(d: PackageDecl, ordinal: nat): string {
    if d.tag.Some? then d.tag.value else AutoName(d.ptype, ordinal)
  }

  /**
    * After a block of package lines, a type is registered exactly when some
    * line declares it; its names are those of its lines, in file order, the
    * m-th unnamed one being auto-named with ordinal m + 1; and its counter
    * is one past the number of its lines.
    */
  lemma {:induction false} RegistryByType(ds: seq<PackageDecl>, t: string)
    ensures t in RegisterAll(ds).packages <==> OfType(ds, t) != []
    ensures t in RegisterAll(ds).counts <==> OfType(ds, t) != []
    ensures t in RegisterAll(ds).packages && t in RegisterAll(ds).counts ==>
      var names, ts := RegisterAll(ds).packages[t], OfType(ds, t);
      RegisterAll(ds).counts[t] == |ts| + 1 &&
      |names| == |ts| &&
      forall m :: 0 <= m < |ts| ==> names[m] == NameOf(ts[m], m + 1)
  {
    TypeHoldsAll(ds, t);
  }

  /** The registry's entry for type `t` is the one its lines `ts` give. */
  ghost predicate TypeHolds(reg: Registry, t: string, ts: seq<PackageDecl>) {
    (t in reg.packages <==> ts != []) &&
    (t in reg.counts <==> ts != []) &&
    (t in reg.packages && t in reg.counts ==>
       reg.counts[t] == |ts| + 1 &&
       |reg.packages[t]| == |ts| &&
       forall m :: 0 <= m < |ts| ==> reg.packages[t][m] == NameOf(ts[m], m + 1))
  }

  lemma {:induction false} TypeHoldsAll(ds: seq<PackageDecl>, t: string)
    ensures TypeHolds(RegisterAll(ds), t, OfType(ds, t))
  {
    if ds != [] {
      var front, last := ds[..|ds| - 1], ds[|ds| - 1];
      TypeHoldsAll(front, t);
      if last.ptype == t {
        RegisterSameType(RegisterAll(front), t, OfType(front, t), last);
      } else {
        RegisterOtherType(RegisterAll(front), t, OfType(front, t), last);
      }
    }
  }

  /** A line of type `t` appends its name to `t`'s names and bumps `t`'s counter. */
  lemma RegisterSameType(reg: Registry, t: string, ts: seq<PackageDecl>, d: PackageDecl)
    requires TypeHolds(reg, t, ts) && d.ptype == t
    ensures TypeHolds(Register(reg, d), t, ts + [d])
  {
    var reg' := Register(reg, d);
    if ts == [] {
      assert reg'.counts[t] == 2;
      assert reg'.packages[t] == [NameOf(d, 1)];
    } else {
      assert reg'.packages[t] == reg.packages[t] + [NameOf(d, |ts| + 1)];
    }
  }

  /** A line of another type leaves `t`'s entry alone. */
  lemma RegisterOtherType(reg: Registry, t: string, ts: seq<PackageDecl>, d: PackageDecl)
    requires TypeHolds(reg, t, ts) && d.ptype != t
    ensures TypeHolds(Register(reg, d), t, ts)
  {
  }

  /** The digits of a non-negative number, read back, give the number. */
  lemma DigitsInjective(a: nat, b: nat)
    requires Digits(a) == Digits(b)
    ensures a == b
  {
    ValueOfDigits(a);
    ValueOfDigits(b);
  }

  /** Two auto-names of one package type are equal only for the same ordinal. */
  lemma AutoNameInjective(ptype: string, a: nat, b: nat)
    ensures AutoName(ptype, a) == AutoName(ptype, b) <==> a == b
  {
    if AutoName(ptype, a) == AutoName(ptype, b) {
      var n := |RemoveChar(ptype, '6') + "-"|;
      assert Digits(a) == AutoName(ptype, a)[n..];
      assert Digits(b) == AutoName(ptype, b)[n..];
      DigitsInjective(a, b);
    }
  }

  /**
    * Two unnamed package lines of the same type get different names, so no
    * auto-named package of a type is lost among that type's names.
    */
  lemma AutoNamesDistinct(ds: seq<PackageDecl>, t: string, m: nat, m': nat)
    requires m < m' < |OfType(ds, t)|
    requires OfType(ds, t)[m].tag.None? && OfType(ds, t)[m'].tag.None?
    ensures t in RegisterAll(ds).packages && |RegisterAll(ds).packages[t]| == |OfType(ds, t)|
    ensures RegisterAll(ds).packages[t][m] != RegisterAll(ds).packages[t][m']
  {
    RegistryByType(ds, t);
    OfTypeOfType(ds, t, m);
    OfTypeOfType(ds, t, m');
    AutoNameInjective(t, m + 1, m' + 1);
  }

  /** Every line picked out for a type has that type. */
  lemma {:induction false} OfTypeOfType(ds: seq<PackageDecl>, t: string, m: nat)
    requires m < |OfType(ds, t)|
    ensures OfType(ds, t)[m].ptype == t
  {
    var front := ds[..|ds| - 1];
    if m < |OfType(front, t)| {
      OfTypeOfType(front, t, m);
    }
  }

  /**
    * A models line adds its third item as a model, with the same key in
    * both tables; a line of exactly three items never replaces a model
    * already read.
    */
  lemma ModelLineKeys(t: ModelTables, raw: seq<string>)
    requires t.types.Keys == t.namFiles.Keys
    requires ModelLine(t, raw).Success?
    ensures |raw| >= 3
    ensures ModelLine(t, raw).value.types.Keys == ModelLine(t, raw).value.namFiles.Keys == t.types.Keys + {raw[2]}
    ensures |raw| == 3 ==> raw[2] !in t.types && |ModelLine(t, raw).value.types| == |t.types| + 1
  {
  }

  /** The rest of a models block keeps the two tables keyed alike, and only adds models. */
  lemma {:induction false} ModelsBlockKeys(ms: seq<ModelsView>, i: nat, t: ModelTables)
    requires i <= |ms|
    requires t.types.Keys == t.namFiles.Keys
    requires ScanModelsBlock(ms, i, t).Success?
    ensures ScanModelsBlock(ms, i, t).value.types.Keys == ScanModelsBlock(ms, i, t).value.namFiles.Keys
    ensures t.types.Keys <= ScanModelsBlock(ms, i, t).value.types.Keys
    decreases |ms| - i
  {
    if !ms[i].closes {
      ModelLineKeys(t, ms[i].raw);
      ModelsBlockKeys(ms, i + 1, ModelLine(t, ms[i].raw).value);
    }
  }

  /** Every model read from `mfsim.nam` has both a type and a name file. */
  lemma {:induction false} ModelTablesAgree(ms: seq<ModelsView>, i: nat)
    requires i <= |ms|
    requires ScanModels(ms, i).Success?
    ensures ScanModels(ms, i).value.types.Keys == ScanModels(ms, i).value.namFiles.Keys
    decreases |ms| - i
  {
    if ms[i].opens {
      ModelsBlockKeys(ms, i + 1, ModelTables(map[], map[]));
    } else {
      ModelTablesAgree(ms, i + 1);
    }
  }


  // ----- what the models block holds -----

  /** A line whose items name the model `name` in third place. */
  ghost predicate NamesModel(raw: seq<string>, name: string) {
    |raw| >= 3 && raw[2] == name
  }

  /** The model names, the third items, of lines `i` to `j - 1`. */
  ghost function ModelNames(ms: seq<ModelsView>, i: nat, j: nat): set<string>
    requires i <= j <= |ms|
    decreases j - i
  {
    if i == j then {}
    else
      var raw := ms[j - 1].raw;
      ModelNames(ms, i, j - 1) + (if |raw| >= 3 then {raw[2]} else {})
  }

  /** The tables `t` once lines `i` to `j - 1` are entered into them, without the reader's checks. */
  ghost function Entered(ms: seq<ModelsView>, i: nat, j: nat, t: ModelTables): ModelTables
    requires i <= j <= |ms|
    decreases j - i
  {
    if i == j then t
    else
      var t' := Entered(ms, i, j - 1, t);
      var raw := ms[j - 1].raw;
      if |raw| >= 3 then ModelTables(t'.types[raw[2] := raw[0]], t'.namFiles[raw[2] := raw[1]]) else t'
  }

  /**
    * Line `k` of a models block whose lines start at `i` is read without
    * error: it is not the `end` line, it has at least three items, and its
    * last item names no model read before it.
    */
  ghost predicate ModelLineOk(ms: seq<ModelsView>, i: nat, k: nat, t: ModelTables)
    requires i <= k < |ms|
  {
    var raw := ms[k].raw;
    !ms[k].closes && |raw| >= 3 && raw[|raw| - 1] !in t.types && raw[|raw| - 1] !in ModelNames(ms, i, k)
  }

  /** Lines `i` to `j - 1` of a models block whose lines start at `i` are all read without error. */
  ghost predicate BlockLinesOk(ms: seq<ModelsView>, i: nat, j: nat, t: ModelTables) {
    j <= |ms| && forall k :: i <= k < j ==> ModelLineOk(ms, i, k, t)
  }

  /** No line before `o` opens a models block. */
  ghost predicate NoOpenBefore(ms: seq<ModelsView>, o: nat) {
    o <= |ms| && forall k :: 0 <= k < o ==> !ms[k].opens
  }

  /**
    * The first `begin ... models` line of the file is at `o`, the next
    * `end ... models` line at `c`, and every line between is read without
    * error.
    */
  ghost predicate ModelsBlockAt(ms: seq<ModelsView>, o: nat, c: nat) {
    o < c < |ms| && ms[o].opens && NoOpenBefore(ms, o) && ms[c].closes &&
    BlockLinesOk(ms, o + 1, c, ModelTables(map[], map[]))
  }

  /**
    * Line `k` of the models block opened at `o` stops the reader with a
    * duplicate: the lines before it are read without error, and its last
    * item `name` is the model name of one of them.
    */
  ghost predicate DuplicateAt(ms: seq<ModelsView>, o: nat, k: nat, name: string) {
    o < k < |ms| && ms[o].opens && NoOpenBefore(ms, o) &&
    BlockLinesOk(ms, o + 1, k, ModelTables(map[], map[])) && !ms[k].closes &&
    var raw := ms[k].raw;
    raw != [] && raw[|raw| - 1] == name && name in ModelNames(ms, o + 1, k)
  }

  /** A name is a model name of some lines exactly when one of them names it. */
  lemma {:induction false} ModelNamesHas(ms: seq<ModelsView>, i: nat, j: nat, name: string)
    requires i <= j <= |ms|
    ensures name in ModelNames(ms, i, j) <==> exists k :: i <= k < j && NamesModel(ms[k].raw, name)
    decreases j - i
  {
    if i < j {
      ModelNamesHas(ms, i, j - 1, name);
      if NamesModel(ms[j - 1].raw, name) {
        assert name in ModelNames(ms, i, j);
      }
    }
  }

  /** Entering lines adds exactly their model names as keys of both tables. */
  lemma {:induction false} EnteredKeys(ms: seq<ModelsView>, i: nat, j: nat, t: ModelTables)
    requires i <= j <= |ms|
    ensures Entered(ms, i, j, t).types.Keys == t.types.Keys + ModelNames(ms, i, j)
    ensures Entered(ms, i, j, t).namFiles.Keys == t.namFiles.Keys + ModelNames(ms, i, j)
    decreases j - i
  {
    if i < j {
      EnteredKeys(ms, i, j - 1, t);
    }
  }

  /** Line `k` has a model name, and none of the lines after it up to `j - 1` names that model again. */
  ghost predicate LastNaming(ms: seq<ModelsView>, k: nat, j: nat)
    requires k < |ms|
  {
    var raw := ms[k].raw;
    |raw| >= 3 && j <= |ms| && forall m :: k < m < j ==> !NamesModel(ms[m].raw, raw[2])
  }

  /**
    * A line that no later line renames keeps its entry: the model has the
    * line's first item as its type and its second item as its name file.
    */
  lemma {:induction false} EnteredValues(ms: seq<ModelsView>, i: nat, j: nat, t: ModelTables, k: nat)
    requires i <= k < j <= |ms|
    requires LastNaming(ms, k, j)
    ensures var raw := ms[k].raw; var e := Entered(ms, i, j, t);
      raw[2] in e.types && e.types[raw[2]] == raw[0] && raw[2] in e.namFiles && e.namFiles[raw[2]] == raw[1]
    decreases j - i
  {
    if k < j - 1 {
      assert !NamesModel(ms[j - 1].raw, ms[k].raw[2]);
      EnteredValues(ms, i, j - 1, t, k);
    }
  }

  /** A line read without error is entered as it stands. */
  lemma ModelLineStep(ms: seq<ModelsView>, i: nat, k: nat, t: ModelTables)
    requires i <= k < |ms| && ModelLineOk(ms, i, k, t)
    ensures ScanModelsBlock(ms, k, Entered(ms, i, k, t)) == ScanModelsBlock(ms, k + 1, Entered(ms, i, k + 1, t))
  {
    EnteredKeys(ms, i, k, t);
  }

  /** Lines read without error lead the block reader to the next line with all of them entered. */
  lemma {:induction false} BlockFrom(ms: seq<ModelsView>, i: nat, j: nat, t: ModelTables)
    requires i <= j && BlockLinesOk(ms, i, j, t)
    ensures ScanModelsBlock(ms, i, t) == ScanModelsBlock(ms, j, Entered(ms, i, j, t))
    decreases j - i
  {
    if i < j {
      BlockFrom(ms, i, j - 1, t);
      ModelLineStep(ms, i, j - 1, t);
    }
  }

  /** The first line of a block that is not read without error, or the end of the file. */
  lemma BlockStop(ms: seq<ModelsView>, i: nat, t: ModelTables) returns (c: nat)
    requires i <= |ms|
    ensures i <= c <= |ms| && BlockLinesOk(ms, i, c, t)
    ensures c < |ms| ==> !ModelLineOk(ms, i, c, t)
    ensures ScanModelsBlock(ms, i, t) ==
      if c == |ms| then Failure(EofInBlock) else ScanModelsBlock(ms, c, Entered(ms, i, c, t))
  {
    c := i;
    while c < |ms| && ModelLineOk(ms, i, c, t)
      invariant i <= c <= |ms| && BlockLinesOk(ms, i, c, t)
      decreases |ms| - c
    {
      c := c + 1;
    }
    BlockFrom(ms, i, c, t);
  }

  /** Lines that open no models block are passed over. */
  lemma {:induction false} ModelsSkip(ms: seq<ModelsView>, i: nat, j: nat)
    requires i <= j <= |ms|
    requires forall k :: i <= k < j ==> !ms[k].opens
    ensures ScanModels(ms, i) == ScanModels(ms, j)
    decreases j - i
  {
    if i < j {
      ModelsSkip(ms, i + 1, j);
    }
  }

  /** The first line that opens a models block, or the end of the file. */
  lemma FirstOpen(ms: seq<ModelsView>) returns (o: nat)
    ensures NoOpenBefore(ms, o) && (o < |ms| ==> ms[o].opens)
    ensures ScanModels(ms, 0) ==
      if o == |ms| then Failure(EofBeforeBlock) else ScanModelsBlock(ms, o + 1, ModelTables(map[], map[]))
  {
    o := 0;
    while o < |ms| && !ms[o].opens
      invariant NoOpenBefore(ms, o)
      decreases |ms| - o
    {
      o := o + 1;
    }
    ModelsSkip(ms, 0, o);
  }

  /** `mfsim.nam` is read without error exactly when its first models block is closed and every line in it is read. */
  lemma ModelsReadExactly(ms: seq<ModelsView>)
    ensures ScanModels(ms, 0).Success? <==> exists o: nat, c: nat :: ModelsBlockAt(ms, o, c)
  {
    var empty := ModelTables(map[], map[]);
    if ScanModels(ms, 0).Success? {
      var o := FirstOpen(ms);
      var c := BlockStop(ms, o + 1, empty);
      EnteredKeys(ms, o + 1, c, empty);
      assert ms[c].closes;
      assert ModelsBlockAt(ms, o, c);
    }
    if exists o: nat, c: nat :: ModelsBlockAt(ms, o, c) {
      var o: nat, c: nat :| ModelsBlockAt(ms, o, c);
      ModelsContents(ms, o, c);
    }
  }

  /**
    * The tables `r` hold the models of lines `i` to `j - 1`: the models are
    * exactly the third items of those lines, both tables have the same keys,
    * and the last line naming a model gives its type (first item) and its
    * name file (second item).
    */
  ghost predicate HoldsModels(ms: seq<ModelsView>, i: nat, j: nat, r: ModelTables)
    requires i <= j <= |ms|
  {
    (forall name :: name in r.types <==> exists k :: i <= k < j && NamesModel(ms[k].raw, name)) &&
    r.namFiles.Keys == r.types.Keys &&
    forall k :: i <= k < j && LastNaming(ms, k, j) ==>
      var raw := ms[k].raw;
      raw[2] in r.types && r.types[raw[2]] == raw[0] && raw[2] in r.namFiles && r.namFiles[raw[2]] == raw[1]
  }

  /** Lines entered into empty tables make tables that hold exactly their models. */
  lemma EnteredHoldsModels(ms: seq<ModelsView>, i: nat, j: nat)
    requires i <= j <= |ms|
    ensures HoldsModels(ms, i, j, Entered(ms, i, j, ModelTables(map[], map[])))
  {
    var empty := ModelTables(map[], map[]);
    var r := Entered(ms, i, j, empty);
    EnteredKeys(ms, i, j, empty);
    forall name
      ensures name in r.types <==> exists k :: i <= k < j && NamesModel(ms[k].raw, name)
    {
      ModelNamesHas(ms, i, j, name);
    }
    forall k | i <= k < j && LastNaming(ms, k, j)
      ensures var raw := ms[k].raw;
        raw[2] in r.types && r.types[raw[2]] == raw[0] && raw[2] in r.namFiles && r.namFiles[raw[2]] == raw[1]
    {
      EnteredValues(ms, i, j, empty, k);
    }
  }

  /** What a models block read without error gives: the models of the lines between its `begin` and `end` lines. */
  lemma ModelsContents(ms: seq<ModelsView>, o: nat, c: nat)
    requires ModelsBlockAt(ms, o, c)
    ensures ScanModels(ms, 0).Success? && HoldsModels(ms, o + 1, c, ScanModels(ms, 0).value)
  {
    ModelsScanEntered(ms, o, c);
    EnteredHoldsModels(ms, o + 1, c);
  }

  /** A models block read without error gives its lines entered into empty tables. */
  lemma ModelsScanEntered(ms: seq<ModelsView>, o: nat, c: nat)
    requires ModelsBlockAt(ms, o, c)
    ensures ScanModels(ms, 0) == Success(Entered(ms, o + 1, c, ModelTables(map[], map[])))
  {
    var o' := FirstOpen(ms);
    assert o' == o;
    BlockFrom(ms, o + 1, c, ModelTables(map[], map[]));
  }

  /**
    * `mfsim.nam` is refused for a duplicate model `name` exactly when a line
    * of its first models block, after lines read without error, ends with
    * the name of a model already read.
    */
  lemma ModelsDuplicate(ms: seq<ModelsView>, name: string)
    ensures ScanModels(ms, 0) == Failure(DuplicateModel(name)) <==> exists o: nat, k: nat :: DuplicateAt(ms, o, k, name)
  {
    var empty := ModelTables(map[], map[]);
    if ScanModels(ms, 0) == Failure(DuplicateModel(name)) {
      var o := FirstOpen(ms);
      var c := BlockStop(ms, o + 1, empty);
      EnteredKeys(ms, o + 1, c, empty);
      assert !ms[c].closes;
      assert DuplicateAt(ms, o, c, name);
    }
    if exists o: nat, k: nat :: DuplicateAt(ms, o, k, name) {
      var o: nat, k: nat :| DuplicateAt(ms, o, k, name);
      var o' := FirstOpen(ms);
      assert o' == o;
      BlockFrom(ms, o + 1, k, empty);
      EnteredKeys(ms, o + 1, k, empty);
    }
  }
}
