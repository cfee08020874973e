/**
  * The adjoint solver object as far as reading its input file goes: the
  * list of performance measures and `_hdf5_name`, which `_read_adj_file`
  * updates line by line.
  */
module AdjReader {
  import opened Wrappers
  import opened PyText
  import opened Decimal
  import opened NodeIndex
  import opened AdjSpec

  class Mf6Adj {
    /** What the reader takes from the flow model (grid kind, NODEUSER, NCPL, ...). */
    const cfg: AdjConfig
    var performanceMeasures: seq<PerfMeas>
    var hdf5Name: Option<string>

    constructor (cfg: AdjConfig)
      ensures this.cfg == cfg
      ensures performanceMeasures == [] && hdf5Name == None
    {
      this.cfg := cfg;
      performanceMeasures := [];
      hdf5Name := None;
    }

    /** One data line of a performance-measure block, from its tokens; `count` is its line number. */
    method EntryFromTokens(raw: seq<string>, count: nat) returns (r: Result<PerfMeasRecord, ParseError>)
      ensures r == EntryOfTokens(cfg, raw, count)
    {
      if cfg.isStructured && |raw| != 9 {
        return Failure(ParseError(EntryItemCount(|raw|), count));
      } else if !cfg.isStructured && |raw| != 8 {
        return Failure(ParseError(EntryItemCount(|raw|), count));
      }
      var kper0 := ParseInt(raw[0]);
      var kstp0 := ParseInt(raw[1]);
      if kper0.None? || kstp0.None? {
        return Failure(ParseError(BadTimeIndex, count));
      }
      var kper, kstp := kper0.value - 1, kstp0.value - 1;
      var loc: Result<Location, ParseError>;
      if cfg.isStructured {
        loc := LocateStructured(raw, count);
      } else {
        loc := LocateUnstructured(raw, count);
      }
      if loc.Failure? {
        return Failure(loc.error);
      }
      r := EntryRecord(cfg, raw, count, kper, kstp, loc.value);
    }

    /** The cell of a structured entry: `k, i, j` cast one after the other, then `get_node` and the reduced numbering. */
    method LocateStructured(raw: seq<string>, count: nat) returns (r: Result<Location, ParseError>)
      requires |raw| >= 5
      ensures r == StructuredLocation(cfg, raw, count)
    {
      var kij: seq<int> := [];
      for c := 0 to 3
        invariant |kij| == c
        invariant forall m :: 0 <= m < c ==> CellIndex(raw[m + 2]) == Some(kij[m])
      {
        var v := ParseInt(raw[c + 2]);
        if v.None? {
          return Failure(ParseError(BadCoordinate, count));
        }
        kij := kij + [v.value - 1];
      }
      var inode := cfg.getNode(cfg.shape, kij[0], kij[1], kij[2]);
      var nuser := NUser(cfg);
      if |nuser| > 1 {
        var nn := Positions(nuser, inode);
        if |nn| != 1 {
          return Failure(ParseError(NodeNotReduced, count));
        }
        inode := nn[0];
      }
      r := Success(Location(inode, kij[0], Some(kij[1]), Some(kij[2])));
    }

    /** The cell of an unstructured entry: layer and cell-in-layer, then the reduced numbering. */
    method LocateUnstructured(raw: seq<string>, count: nat) returns (r: Result<Location, ParseError>)
      requires |raw| >= 4
      ensures r == UnstructuredLocation(cfg, raw, count)
    {
      var lay := ParseInt(raw[2]);
      if lay.None? {
        return Failure(ParseError(BadCoordinate, count));
      }
      var k := lay.value - 1;
      var node := ParseInt(raw[3]);
      if node.None? {
        return Failure(ParseError(BadCoordinate, count));
      }
      var inode := cfg.ncpl * (lay.value - 1) + node.value - 1;
      var nuser := NUser(cfg);
      if |nuser| > 1 {
        var nn := Positions(nuser, inode);
        if |nn| != 1 {
          return Failure(ParseError(NodeNotReduced, count));
        }
        inode := nn[0];
      }
      r := Success(Location(inode, k, None, None));
    }

    /** `readline()` at line index `pos` and the derived strings the reader tests. */
    method ReadLine(lines: seq<string>, ghost vs: seq<LineView>, pos: nat) returns (v: LineView)
      requires vs == Views(lines) && pos < |lines|
      ensures v == vs[pos]
    {
      v := View(lines[pos]);
      ViewsAt(lines, pos);
    }

    /**
      * The loop over an `options` block whose `begin` line is line `pos`:
      * `pos` lines have been read. Returns the number of lines read once the
      * `end options` line has been, or the error that stopped the loop.
      */
    method ReadOptions(lines: seq<string>, ghost vs: seq<LineView>, pos: nat) returns (next: nat, err: Option<ParseError>)
      requires vs == Views(lines) && pos <= |lines|
      modifies this`hdf5Name
      ensures var o := ParseOptions(vs, pos, old(hdf5Name));
        next == o.next && err == o.error && hdf5Name == o.hdf5Name
    {
      next := pos;
      while true
        invariant pos <= next <= |lines|
        invariant ParseOptions(vs, next, hdf5Name) == ParseOptions(vs, pos, old(hdf5Name))
        decreases |lines| - next
      {
        if next == |lines| {
          return next, Some(ParseError(OptionsEof, next + 1));
        }
        var v := ReadLine(lines, vs, next);
        next := next + 1;
        if v.skip {
          continue;
        } else if StartsWith(v.low, "begin") {
          return next, Some(ParseError(NestedBeginInOptions, next));
        } else if StartsWith(v.low, "end options") {
          return next, None;
        } else if v.tokens[0] == "hdf5_name" {
          if |v.words| < 2 {
            return next, Some(ParseError(MissingOptionValue, next));
          }
          hdf5Name := Some(v.words[1]);
        } else {
          return next, Some(ParseError(UnrecognizedOption, next));
        }
      }
    }

    /**
      * The loop over a `performance_measure` block whose `begin` line, with
      * view `begin`, is line `pos`. Returns the number of lines read once the
      * `end performance_measure` line has been, and the block's entries.
      */
    method ReadBlock(lines: seq<string>, ghost vs: seq<LineView>, pos: nat, begin: LineView)
        returns (r: Result<(nat, seq<PerfMeasRecord>), ParseError>)
      requires vs == Views(lines) && pos <= |lines|
      ensures r == ParseBlock(cfg, vs, pos, begin, [])
    {
      var next := pos;
      var pmEntries: seq<PerfMeasRecord> := [];
      while true
        invariant pos <= next <= |lines|
        invariant ParseBlock(cfg, vs, next, begin, pmEntries) == ParseBlock(cfg, vs, pos, begin, [])
        decreases |lines| - next
      {
        if next == |lines| {
          return Failure(ParseError(BlockEof, next + 1));
        }
        var v := ReadLine(lines, vs, next);
        next := next + 1;
        if begin.skip {
          continue;
        } else if StartsWith(v.low, "begin") {
          return Failure(ParseError(NestedBeginInBlock, next));
        } else if StartsWith(v.low, "end performance_measure") {
          return Success((next, pmEntries));
        } else if StartsWith(v.low, "open") {
          return Failure(ParseError(ExternalFileUnsupported, next));
        }
        var rec := EntryFromTokens(v.tokens, next);
        if rec.Failure? {
          return Failure(rec.error);
        }
        pmEntries := pmEntries + [rec.value];
      }
    }

    /**
      * A `performance_measure` block whose `begin` line, with view `v`, is
      * at index `pos`: its name, its entries and the checks made on them.
      */
    method ReadMeasure(lines: seq<string>, ghost vs: seq<LineView>, pos: nat, v: LineView)
        returns (r: Result<(nat, PerfMeas), ParseError>)
      requires vs == Views(lines) && pos < |lines| && v == vs[pos]
      ensures r == MeasureBlock(cfg, vs, pos, performanceMeasures)
    {
      var raw := v.tokens;
      if |raw| != 3 {
        return Failure(ParseError(BeginItemCount(|raw|), pos + 1));
      }
      var pmName := Lower(Strip(raw[2]));
      var block := ReadBlock(lines, vs, pos + 1, v);
      if block.Failure? {
        return Failure(block.error);
      }
      var next, pmEntries := block.value.0, block.value.1;
      var pm := CheckMeasure(pmName, pmEntries, performanceMeasures, next);
      if pm.Failure? {
        return Failure(pm.error);
      }
      r := Success((next, pm.value));
    }

    /**
      * `_read_adj_file`: clears the list of measures, then reads the file line
      * by line, appending one measure per `performance_measure` block and
      * setting `hdf5Name` from the options block. Returns the error that
      * stopped it, if any; the state then holds what was read before it.
      * `pos`, the number of lines read, is also the reader's line counter.
      */
    method ReadAdjFile(lines: seq<string>) returns (err: Option<ParseError>)
      modifies this
      ensures (AdjState(performanceMeasures, hdf5Name), err) == ReadAdj(cfg, lines, old(hdf5Name))
    {
      performanceMeasures := [];
      ghost var vs := Views(lines);
      var pos := 0;
      while true
        invariant 0 <= pos <= |lines|
        invariant ParseTop(cfg, vs, pos, AdjState(performanceMeasures, hdf5Name))
               == ParseTop(cfg, vs, 0, AdjState([], old(hdf5Name)))
        decreases |lines| - pos
      {
        if pos == |lines| {
          break;
        }
        var v := ReadLine(lines, vs, pos);
        pos := pos + 1;
        if v.skip {
          continue;
        }
        if StartsWith(v.low, "begin options") {
          pos, err := ReadOptions(lines, vs, pos);
          if err.Some? {
            return;
          }
        } else if StartsWith(v.low, "begin performance_measure") {
          var m := ReadMeasure(lines, vs, pos - 1, v);
          if m.Failure? {
            return Some(m.error);
          }
          var pm;
          pos, pm := m.value.0, m.value.1;
          performanceMeasures := performanceMeasures + [pm];
        } else {
          return Some(ParseError(UnrecognizedInput, pos));
        }
      }
      if |performanceMeasures| == 0 {
        return Some(ParseError(NoMeasures, pos + 1));
      }
      err := None;
    }
  }
}
