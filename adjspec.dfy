/**
  * What reading the adjoint input file (`Mf6Adj._read_adj_file`) produces, as
  * functions of the file's lines. The file is a `seq<string>` of lines without
  * their terminators; reading past the last line is end of file. `count` is the
  * reader's line counter: the number of `readline` calls made so far, the one
  * that returned end of file included, so the line at index `i` is line `i + 1`.
  * The reader looks at each line through a few derived strings (`LineView`);
  * the block functions work on those views.
  */
module AdjSpec {
  import opened Wrappers
  import opened PyText
  import opened Decimal
  import opened NodeIndex

  /**
    * A line as the reader tests it: whether it is blank or a comment, its
    * `lower().strip()` form, the tokens of that form, and the tokens of
    * `strip().split()` with their case kept.
    */
  datatype LineView = LineView(skip: bool, low: string, tokens: seq<string>, words: seq<string>)

  function View(line: string): (v: LineView)
    ensures !v.skip ==> v.tokens != []
  {
    var v := LineView(IsBlankOrComment(line), Strip(Lower(line)), LowTokens(line), Split(Strip(line)));
    if v.skip then v else NonBlankHasToken(line); v
  }

  /** The view of every line of the file, in order. */
  function Views(lines: seq<string>): (r: seq<LineView>)
    ensures |r| == |lines|
    ensures Readable(r)
  {
    if lines == [] then [] else [View(lines[0])] + Views(lines[1..])
  }

  lemma {:induction false} ViewsAt(lines: seq<string>, k: nat)
    requires k < |lines|
    ensures Views(lines)[k] == View(lines[k])
  {
    if k > 0 {
      ViewsAt(lines[1..], k - 1);
    }
  }

  /** Every line that is not skipped has a token, as `View` guarantees. */
  predicate Readable(vs: seq<LineView>) {
    forall k :: 0 <= k < |vs| ==> vs[k].skip || vs[k].tokens != []
  }

  /** `(nlay, nrow, ncol)` of a structured grid. */
  datatype Shape = Shape(nlay: int, nrow: int, ncol: int)

  /**
    * What the reader takes from the flow model before it opens the file:
    * the grid kind, the structured shape, NCPL of an unstructured grid, the
    * solver's NODEUSER table (one-based, as stored), the structured
    * cell-to-node mapping `PerfMeas.get_node`, and Python's `float()`.
    */
  datatype AdjConfig = AdjConfig(
    isStructured: bool,
    shape: Shape,
    ncpl: int,
    nodeUser: seq<int>,
    getNode: (Shape, int, int, int) -> int,
    toFloat: string -> Option<real>)

  /** `nuser = NODEUSER - 1`, element by element. */
  function NUser(cfg: AdjConfig): (r: seq<int>)
    ensures |r| == |cfg.nodeUser|
    ensures forall k :: 0 <= k < |r| ==> r[k] == cfg.nodeUser[k] - 1
  {
    MinusOne(cfg.nodeUser)
  }

  function MinusOne(s: seq<int>): (r: seq<int>)
    ensures |r| == |s|
    ensures forall k :: 0 <= k < |r| ==> r[k] == s[k] - 1
  {
    if s == [] then [] else [s[0] - 1] + MinusOne(s[1..])
  }

  /** One entry of a performance measure (`PerfMeasRecord`); `i` and `j` are unset on unstructured grids. */
  datatype PerfMeasRecord = PerfMeasRecord(
    kper: int, kstp: int, inode: int,
    pmType: string, pmForm: string,
    weight: real, obsval: real,
    k: int, i: Option<int>, j: Option<int>)

  /** A named performance measure (`PerfMeas`) and its entries in file order. */
  datatype PerfMeas = PerfMeas(name: string, entries: seq<PerfMeasRecord>)

  /** Why reading stopped; each kind is one `raise` of the reader. */
  datatype ErrorKind =
    | OptionsEof                  // EOF while reading options
    | NestedBeginInOptions        // a new begin block found while parsing options
    | MissingOptionValue          // `hdf5_name` without a value (IndexError)
    | UnrecognizedOption          // unrecognized option line
    | BeginItemCount(found: nat)  // 'begin' line has wrong number of items
    | BlockEof                    // EOF while reading performance_measure block
    | NestedBeginInBlock          // a new begin block found while parsing performance_measure block
    | ExternalFileUnsupported     // an `open` line: always refused
    | EntryItemCount(found: nat)  // performance measure entry has the wrong number of items
    | BadTimeIndex                // int() of the stress period or time step failed
    | BadCoordinate               // error casting k-i-j or layer/node info
    | NodeNotReduced              // node num not in reduced node num
    | BadValue                    // float() of obsval or weight failed
    | NoEntries                   // no entries found for PM
    | MixedTypes                  // mixed 'pm_types'
    | MixedForms                  // mixed 'pm_forms'
    | NonHeadResidual             // a non-head measure whose form is not 'direct'
    | DuplicateName               // PM multiply defined
    | UnrecognizedInput           // unrecognized adj file input
    | NoMeasures                  // no PMs found in adj file

  datatype ParseError = ParseError(kind: ErrorKind, line: nat)

  /** What the reader leaves in `self`: the measures read so far and `_hdf5_name`. */
  datatype AdjState = AdjState(measures: seq<PerfMeas>, hdf5Name: Option<string>)

  datatype OptionsEnd = OptionsEnd(next: nat, hdf5Name: Option<string>, error: Option<ParseError>)

  /** A one-based coordinate token made zero-based; `None` if it is not an integer. */
  function CellIndex(tok: string): Option<int> {
    match ParseInt(tok)
    case None => None
    case Some(v) => Some(v - 1)
  }

  /** The zero-based `k, i, j` of tokens 3 to 5 of a structured entry, if all three are integers. */
  function StructuredCell(raw: seq<string>): Option<(int, int, int)>
    requires |raw| >= 5
  {
    var k, i, j := CellIndex(raw[2]), CellIndex(raw[3]), CellIndex(raw[4]);
    if k.Some? && i.Some? && j.Some? then Some((k.value, i.value, j.value)) else None
  }

  /** The number of tokens an entry must have: 9 on structured grids, 8 on unstructured ones. */
  function EntryWidth(cfg: AdjConfig): nat {
    if cfg.isStructured then 9 else 8
  }

  /** An entry read from the tokens of `line2.lower().strip().split()`. */
  function EntryOfTokens(cfg: AdjConfig, raw: seq<string>, count: nat): Result<PerfMeasRecord, ParseError>
  {
    if |raw| != EntryWidth(cfg) then Failure(ParseError(EntryItemCount(|raw|), count))
    else
      var kper0, kstp0 := ParseInt(raw[0]), ParseInt(raw[1]);
      if kper0.None? || kstp0.None? then Failure(ParseError(BadTimeIndex, count))
      else
        var located := if cfg.isStructured then StructuredLocation(cfg, raw, count)
                       else UnstructuredLocation(cfg, raw, count);
        match located
        case Failure(e) => Failure(e)
        case Success(loc) => EntryRecord(cfg, raw, count, kper0.value - 1, kstp0.value - 1, loc)
  }

  /** The rest of an entry once its place is known: `obsval`, `weight`, form and type, read from the end. */
  function EntryRecord(cfg: AdjConfig, raw: seq<string>, count: nat, kper: int, kstp: int,
                       loc: Location): Result<PerfMeasRecord, ParseError>
    requires |raw| >= 4
  {
    var obsval := cfg.toFloat(raw[|raw| - 1]);
    var weight := cfg.toFloat(raw[|raw| - 2]);
    if obsval.None? || weight.None? then Failure(ParseError(BadValue, count))
    else
      var pmForm := Lower(Strip(raw[|raw| - 3]));
      var pmType := Lower(Strip(raw[|raw| - 4]));
      Success(PerfMeasRecord(kper, kstp, loc.inode, pmType, pmForm, weight.value, obsval.value,
                             loc.k, loc.i, loc.j))
  }

  /** Where an entry sits: its stored node and its zero-based coordinates. */
  datatype Location = Location(inode: int, k: int, i: Option<int>, j: Option<int>)

  function StructuredLocation(cfg: AdjConfig, raw: seq<string>, count: nat): Result<Location, ParseError>
    requires |raw| >= 5
  {
    match StructuredCell(raw)
    case None => Failure(ParseError(BadCoordinate, count))
    case Some((k, i, j)) =>
      match ReduceNode(NUser(cfg), cfg.getNode(cfg.shape, k, i, j))
      case Failure(_) => Failure(ParseError(NodeNotReduced, count))
      case Success(inode) => Success(Location(inode, k, Some(i), Some(j)))
  }

  function UnstructuredLocation(cfg: AdjConfig, raw: seq<string>, count: nat): Result<Location, ParseError>
    requires |raw| >= 4
  {
    var lay, node := ParseInt(raw[2]), ParseInt(raw[3]);
    if lay.None? || node.None? then Failure(ParseError(BadCoordinate, count))
    else
      match ReduceNode(NUser(cfg), UnstructuredNode(cfg.ncpl, lay.value, node.value))
      case Failure(_) => Failure(ParseError(NodeNotReduced, count))
      case Success(inode) => Success(Location(inode, lay.value - 1, None, None))
  }

  /**
    * The lines of a `performance_measure` block from index `i` on, with the
    * entries read so far. The blank-or-comment test looks at the block's
    * `begin` line, not at the line just read, as the reader does. The result
    * is the index after the `end performance_measure` line and the entries.
    */
  function ParseBlock(cfg: AdjConfig, vs: seq<LineView>, i: nat, begin: LineView,
                      entries: seq<PerfMeasRecord>): (r: Result<(nat, seq<PerfMeasRecord>), ParseError>)
    requires i <= |vs|
    ensures r.Success? ==> i < r.value.0 <= |vs|
    decreases |vs| - i
  {
    if i == |vs| then Failure(ParseError(BlockEof, |vs| + 1))
    else
      var v, count := vs[i], i + 1;
      if begin.skip then ParseBlock(cfg, vs, i + 1, begin, entries)
      else if StartsWith(v.low, "begin") then Failure(ParseError(NestedBeginInBlock, count))
      else if StartsWith(v.low, "end performance_measure") then Success((i + 1, entries))
      else if StartsWith(v.low, "open") then Failure(ParseError(ExternalFileUnsupported, count))
      else
        match EntryOfTokens(cfg, v.tokens, count)
        case Failure(e) => Failure(e)
        case Success(rec) => ParseBlock(cfg, vs, i + 1, begin, entries + [rec])
  }

  /** `set([entry.pm_type for entry in entries])` */
  function TypesOf(entries: seq<PerfMeasRecord>): set<string> {
    if entries == [] then {} else {entries[0].pmType} + TypesOf(entries[1..])
  }

  /** `set([entry.pm_form for entry in entries])` */
  function FormsOf(entries: seq<PerfMeasRecord>): set<string> {
    if entries == [] then {} else {entries[0].pmForm} + FormsOf(entries[1..])
  }

  function Names(measures: seq<PerfMeas>): (r: seq<string>)
    ensures |r| == |measures|
    ensures forall k :: 0 <= k < |r| ==> r[k] == measures[k].name
  {
    if measures == [] then [] else [measures[0].name] + Names(measures[1..])
  }

  /** The checks made once a block's `end` line is reached, in the reader's order. */
  function CheckMeasure(name: string, entries: seq<PerfMeasRecord>, existing: seq<PerfMeas>,
                        count: nat): Result<PerfMeas, ParseError>
  {
    if |entries| == 0 then Failure(ParseError(NoEntries, count))
    else if |TypesOf(entries)| > 1 then Failure(ParseError(MixedTypes, count))
    else if |FormsOf(entries)| > 1 then Failure(ParseError(MixedForms, count))
    else if entries[0].pmType != "head" && entries[0].pmForm != "direct" then
      Failure(ParseError(NonHeadResidual, count))
    else if name in Names(existing) then Failure(ParseError(DuplicateName, count))
    else Success(PerfMeas(name, entries))
  }

  /** The lines of an `options` block from index `i` on; `hdf5Name` keeps what earlier lines set. */
  function ParseOptions(vs: seq<LineView>, i: nat, hdf5Name: Option<string>): (r: OptionsEnd)
    requires i <= |vs|
    requires Readable(vs)
    ensures r.error.None? ==> i < r.next <= |vs|
    decreases |vs| - i
  {
    if i == |vs| then OptionsEnd(i, hdf5Name, Some(ParseError(OptionsEof, |vs| + 1)))
    else
      var v, count := vs[i], i + 1;
      if v.skip then ParseOptions(vs, i + 1, hdf5Name)
      else if StartsWith(v.low, "begin") then
        OptionsEnd(i + 1, hdf5Name, Some(ParseError(NestedBeginInOptions, count)))
      else if StartsWith(v.low, "end options") then OptionsEnd(i + 1, hdf5Name, None)
      else if v.tokens[0] == "hdf5_name" then
        if |v.words| < 2 then OptionsEnd(i + 1, hdf5Name, Some(ParseError(MissingOptionValue, count)))
        else ParseOptions(vs, i + 1, Some(v.words[1]))
      else OptionsEnd(i + 1, hdf5Name, Some(ParseError(UnrecognizedOption, count)))
  }

  /**
    * A `performance_measure` block whose `begin` line is at index `i`, read
    * against the measures already held: the index after its `end` line and
    * the new measure.
    */
  function MeasureBlock(cfg: AdjConfig, vs: seq<LineView>, i: nat, existing: seq<PerfMeas>)
    : (r: Result<(nat, PerfMeas), ParseError>)
    requires i < |vs|
    ensures r.Success? ==> i < r.value.0 <= |vs|
  {
    var v := vs[i];
    var raw := v.tokens;
    if |raw| != 3 then Failure(ParseError(BeginItemCount(|raw|), i + 1))
    else
      var pmName := Lower(Strip(raw[2]));
      match ParseBlock(cfg, vs, i + 1, v, [])
      case Failure(e) => Failure(e)
      case Success((next, entries)) =>
        match CheckMeasure(pmName, entries, existing, next)
        case Failure(e) => Failure(e)
        case Success(pm) => Success((next, pm))
  }

  /** The top level of the file from index `i` on, starting from state `st`. */
  function ParseTop(cfg: AdjConfig, vs: seq<LineView>, i: nat, st: AdjState): (AdjState, Option<ParseError>)
    requires i <= |vs|
    requires Readable(vs)
    decreases |vs| - i
  {
    if i == |vs| then
      (st, if |st.measures| == 0 then Some(ParseError(NoMeasures, |vs| + 1)) else None)
    else
      var v, count := vs[i], i + 1;
      if v.skip then ParseTop(cfg, vs, i + 1, st)
      else if StartsWith(v.low, "begin options") then
        var o := ParseOptions(vs, i + 1, st.hdf5Name);
        var st' := st.(hdf5Name := o.hdf5Name);
        if o.error.Some? then (st', o.error) else ParseTop(cfg, vs, o.next, st')
      else if StartsWith(v.low, "begin performance_measure") then
        match MeasureBlock(cfg, vs, i, st.measures)
        case Failure(e) => (st, Some(e))
        case Success((next, pm)) => ParseTop(cfg, vs, next, st.(measures := st.measures + [pm]))
      else (st, Some(ParseError(UnrecognizedInput, count)))
  }

  /**
    * Reading a whole file: the list of measures is cleared first, `_hdf5_name`
    * starts from whatever it held. On an error the state keeps what was read
    * before the error.
    */
  function ReadAdj(cfg: AdjConfig, lines: seq<string>, hdf5Name: Option<string>): (AdjState, Option<ParseError>) {
    ParseTop(cfg, Views(lines), 0, AdjState([], hdf5Name))
  }

  /** No upper-case ASCII letter in `s`. */
  predicate IsLowerCase(s: string) {
    forall k :: 0 <= k < |s| ==> !('A' <= s[k] <= 'Z')
  }

  /** All entries share one `pm_type` and one `pm_form`. */
  ghost predicate Uniform(entries: seq<PerfMeasRecord>)
    requires entries != []
  {
    forall k :: 0 <= k < |entries| ==>
      entries[k].pmType == entries[0].pmType && entries[k].pmForm == entries[0].pmForm
  }

  /** What every accepted performance measure satisfies. */
  ghost predicate WellFormedMeasure(pm: PerfMeas) {
    pm.entries != [] &&
    Uniform(pm.entries) &&
    (pm.entries[0].pmType != "head" ==> pm.entries[0].pmForm == "direct") &&
    IsLowerCase(pm.name)
  }

  /** No two measures share a name. */
  ghost predicate DistinctNames(measures: seq<PerfMeas>) {
    forall a, b :: 0 <= a < b < |measures| ==> measures[a].name != measures[b].name
  }

  ghost predicate ValidState(st: AdjState) {
    (forall k :: 0 <= k < |st.measures| ==> WellFormedMeasure(st.measures[k])) &&
    DistinctNames(st.measures)
  }
}
