/** Properties of reading the adjoint input file, stated over the functions of `AdjSpec`. */
module AdjLemmas {
  import opened Wrappers
  import opened PyText
  import opened Decimal
  import opened NodeIndex
  import opened AdjSpec

  // ----- one entry -----
  // An entry line `line2` is read as `EntryOfTokens(cfg, View(line2).tokens, count)`,
  // where `View(line2).tokens == LowTokens(line2)`, so the lemmas below are
  // stated over the tokens `raw`.

  /** An entry line is accepted only with exactly 9 tokens on a structured grid and 8 on an unstructured one. */
  lemma EntryItemCountChecked(cfg: AdjConfig, raw: seq<string>, count: nat)
    ensures |raw| != EntryWidth(cfg) <==>
      EntryOfTokens(cfg, raw, count) == Failure(ParseError(EntryItemCount(|raw|), count))
  {
  }

  /** With the right width, the stress period and time step must both be integers. */
  lemma EntryTimeIndexChecked(cfg: AdjConfig, raw: seq<string>, count: nat)
    requires |raw| == EntryWidth(cfg)
    ensures EntryOfTokens(cfg, raw, count) == Failure(ParseError(BadTimeIndex, count)) <==>
      ParseInt(raw[0]).None? || ParseInt(raw[1]).None?
  {
  }

  /** With the right width and integer times, every coordinate token must be an integer. */
  lemma EntryCoordinateChecked(cfg: AdjConfig, raw: seq<string>, count: nat)
    requires |raw| == EntryWidth(cfg) && ParseInt(raw[0]).Some? && ParseInt(raw[1]).Some?
    ensures EntryOfTokens(cfg, raw, count) == Failure(ParseError(BadCoordinate, count)) <==>
      ParseInt(raw[2]).None? || ParseInt(raw[3]).None? || (cfg.isStructured && ParseInt(raw[4]).None?)
  {
  }

  /**
    * What an accepted entry holds: the stress period and time step are the
    * file's one-based values less one, `obsval` and `weight` are the last two
    * tokens read as floats, the form and type the two before them.
    */
  lemma EntryFields(cfg: AdjConfig, raw: seq<string>, count: nat, r: PerfMeasRecord)
    requires EntryOfTokens(cfg, raw, count) == Success(r)
    ensures |raw| == EntryWidth(cfg)
    ensures ParseInt(raw[0]) == Some(r.kper + 1) && ParseInt(raw[1]) == Some(r.kstp + 1)
    ensures cfg.toFloat(raw[|raw| - 1]) == Some(r.obsval) && cfg.toFloat(raw[|raw| - 2]) == Some(r.weight)
    ensures r.pmForm == Lower(Strip(raw[|raw| - 3])) && r.pmType == Lower(Strip(raw[|raw| - 4]))
  {
    var located := if cfg.isStructured then StructuredLocation(cfg, raw, count)
                   else UnstructuredLocation(cfg, raw, count);
    assert located.Success?;
    assert EntryRecord(cfg, raw, count, ParseInt(raw[0]).value - 1, ParseInt(raw[1]).value - 1,
                       located.value) == Success(r);
  }

  /** The user node an entry names: `get_node(k, i, j)` on a structured grid, the layer/cell formula otherwise. */
  function UserNode(cfg: AdjConfig, raw: seq<string>): int
    requires |raw| == EntryWidth(cfg)
    requires cfg.isStructured ==> StructuredCell(raw).Some?
    requires !cfg.isStructured ==> ParseInt(raw[2]).Some? && ParseInt(raw[3]).Some?
  {
    if cfg.isStructured then
      var c := StructuredCell(raw).value;
      cfg.getNode(cfg.shape, c.0, c.1, c.2)
    else UnstructuredNode(cfg.ncpl, ParseInt(raw[2]).value, ParseInt(raw[3]).value)
  }

  /**
    * A structured entry: `k, i, j` are the file's one-based values less one,
    * and the stored node is the user node `get_node(k, i, j)` itself when the
    * model has no reduced numbering, else the one index of NODEUSER - 1 that
    * holds it.
    */
  lemma StructuredEntryCell(cfg: AdjConfig, raw: seq<string>, count: nat, r: PerfMeasRecord)
    requires cfg.isStructured && EntryOfTokens(cfg, raw, count) == Success(r)
    ensures |raw| == 9 && r.i.Some? && r.j.Some?
    ensures ParseInt(raw[2]) == Some(r.k + 1) && ParseInt(raw[3]) == Some(r.i.value + 1) &&
      ParseInt(raw[4]) == Some(r.j.value + 1)
    ensures var u := cfg.getNode(cfg.shape, r.k, r.i.value, r.j.value);
      if |cfg.nodeUser| > 1 then UniqueIndexOf(NUser(cfg), u, r.inode) else r.inode == u
  {
    EntryLocation(cfg, raw, count, r);
    var u := cfg.getNode(cfg.shape, r.k, r.i.value, r.j.value);
    if |cfg.nodeUser| > 1 {
      ReduceNodeReduced(NUser(cfg), u, r.inode);
    }
  }

  /** An accepted entry's record holds the location its coordinates give. */
  lemma EntryLocation(cfg: AdjConfig, raw: seq<string>, count: nat, r: PerfMeasRecord)
    requires EntryOfTokens(cfg, raw, count) == Success(r)
    ensures |raw| == EntryWidth(cfg)
    ensures (if cfg.isStructured then StructuredLocation(cfg, raw, count)
             else UnstructuredLocation(cfg, raw, count)) == Success(Location(r.inode, r.k, r.i, r.j))
  {
  }

  /**
    * An unstructured entry: `k` is the file's layer less one, no row or
    * column is set, and the stored node is `ncpl * (layer - 1) + node - 1`
    * itself when the model has no reduced numbering, else the one index of
    * NODEUSER - 1 that holds it.
    */
  lemma UnstructuredEntryCell(cfg: AdjConfig, raw: seq<string>, count: nat, r: PerfMeasRecord)
    requires !cfg.isStructured && EntryOfTokens(cfg, raw, count) == Success(r)
    ensures |raw| == 8 && r.i.None? && r.j.None?
    ensures ParseInt(raw[2]) == Some(r.k + 1) && ParseInt(raw[3]).Some?
    ensures var u := UnstructuredNode(cfg.ncpl, r.k + 1, ParseInt(raw[3]).value);
      if |cfg.nodeUser| > 1 then UniqueIndexOf(NUser(cfg), u, r.inode) else r.inode == u
  {
    var u := UnstructuredNode(cfg.ncpl, r.k + 1, ParseInt(raw[3]).value);
    if |cfg.nodeUser| > 1 {
      ReduceNodeReduced(NUser(cfg), u, r.inode);
    }
  }

  /**
    * Once the coordinates are integers, the cell is refused exactly when the
    * model has a reduced numbering and no index, or more than one, of
    * NODEUSER - 1 holds the user node.
    */
  lemma LocationNotReduced(cfg: AdjConfig, raw: seq<string>, count: nat)
    requires |raw| == EntryWidth(cfg)
    requires cfg.isStructured ==> StructuredCell(raw).Some?
    requires !cfg.isStructured ==> ParseInt(raw[2]).Some? && ParseInt(raw[3]).Some?
    ensures var loc := if cfg.isStructured then StructuredLocation(cfg, raw, count)
                       else UnstructuredLocation(cfg, raw, count);
      var nuser, u := NUser(cfg), UserNode(cfg, raw);
      loc == Failure(ParseError(NodeNotReduced, count)) <==>
        |nuser| > 1 &&
        ((forall p :: 0 <= p < |nuser| ==> nuser[p] != u) ||
         (exists p, q :: 0 <= p < q < |nuser| && nuser[p] == u && nuser[q] == u))
  {
    var nuser, u := NUser(cfg), UserNode(cfg, raw);
    if |nuser| > 1 {
      ReduceNodeFails(nuser, u);
    } else {
      ReduceNodeIdentity(nuser, u);
    }
  }

  // ----- a performance_measure block -----
  // The block functions see each line through its view; `View(line)` says
  // how a view is derived from the text of the line.

  /** The blank-or-comment skip of a block tests the block's `begin` line, which never is blank or a comment. */
  lemma BlockSkipNeverFires(beginLine: string)
    requires StartsWith(View(beginLine).low, "begin performance_measure")
    ensures !View(beginLine).skip
  {
    LetterLineNotComment(beginLine, "begin performance_measure");
  }

  /** A blank or comment line has no token or a first token starting with `#`, and starts no keyword. */
  lemma SkippedLineView(line2: string)
    requires View(line2).skip
    ensures var v := View(line2);
      (v.tokens == [] || (v.tokens[0] != [] && v.tokens[0][0] == '#')) && (v.low == [] || v.low[0] == '#')
  {
    StripLower(line2);
    if Strip(line2) != [] {
      StripSplitFirst(Lower(line2));
    }
  }

  /** A line with no token, or whose first token starts with `#`, is not an entry. */
  lemma CommentTokensRejected(cfg: AdjConfig, raw: seq<string>, count: nat)
    requires raw == [] || (raw[0] != [] && raw[0][0] == '#')
    ensures EntryOfTokens(cfg, raw, count).Failure?
  {
    if raw != [] && |raw| == EntryWidth(cfg) {
      assert ParseInt(raw[0]).None?;
    }
  }

  /** One step of a block whose `begin` line is not skipped, on a line that is neither a keyword nor the end: an entry. */
  lemma BlockEntryStep(cfg: AdjConfig, vs: seq<LineView>, i: nat, begin: LineView, es: seq<PerfMeasRecord>)
    requires i < |vs| && !begin.skip
    requires !StartsWith(vs[i].low, "begin") && !StartsWith(vs[i].low, "end performance_measure")
    requires !StartsWith(vs[i].low, "open")
    ensures ParseBlock(cfg, vs, i, begin, es) ==
      match EntryOfTokens(cfg, vs[i].tokens, i + 1)
      case Failure(e) => Failure(e)
      case Success(rec) => ParseBlock(cfg, vs, i + 1, begin, es + [rec])
  {
  }

  /**
    * So inside a block a blank or comment line is read as an entry, and
    * refused: the reader never skips a line within a block.
    */
  lemma BlockRejectsBlankOrComment(cfg: AdjConfig, vs: seq<LineView>, i: nat, line2: string, beginLine: string,
                                   es: seq<PerfMeasRecord>)
    requires i < |vs| && vs[i] == View(line2) && View(line2).skip
    requires StartsWith(View(beginLine).low, "begin performance_measure")
    ensures ParseBlock(cfg, vs, i, View(beginLine), es).Failure?
  {
    BlockSkipNeverFires(beginLine);
    SkippedLineView(line2);
    CommentStartsNoKeyword(vs[i].low);
    CommentTokensRejected(cfg, vs[i].tokens, i + 1);
    BlockEntryStep(cfg, vs, i, View(beginLine), es);
  }

  /** A line that is empty or starts with `#` starts none of the block keywords. */
  lemma CommentStartsNoKeyword(low: string)
    requires low == [] || low[0] == '#'
    ensures !StartsWith(low, "begin") && !StartsWith(low, "end performance_measure") && !StartsWith(low, "open")
  {
  }

  /** Each line of the file read as an entry line. */
  ghost function LineEntries(cfg: AdjConfig, vs: seq<LineView>): (r: seq<Result<PerfMeasRecord, ParseError>>)
    ensures |r| == |vs|
    decreases |vs|
  {
    if |vs| == 0 then []
    else LineEntries(cfg, vs[..|vs| - 1]) + [EntryOfTokens(cfg, vs[|vs| - 1].tokens, |vs|)]
  }

  lemma {:induction false} LineEntriesAt(cfg: AdjConfig, vs: seq<LineView>, k: nat)
    requires k < |vs|
    ensures LineEntries(cfg, vs)[k] == EntryOfTokens(cfg, vs[k].tokens, k + 1)
    decreases |vs|
  {
    if k < |vs| - 1 {
      var front := vs[..|vs| - 1];
      LineEntriesAt(cfg, front, k);
      assert front[k] == vs[k];
    }
  }

  /** The records in `rs[i..j]`, when every one of them is accepted. */
  ghost function Accepted(rs: seq<Result<PerfMeasRecord, ParseError>>, i: nat, j: nat): Option<seq<PerfMeasRecord>>
    requires i <= j <= |rs|
    decreases j - i
  {
    if i == j then Some([])
    else
      match rs[i]
      case Failure(_) => None
      case Success(rec) =>
        match Accepted(rs, i + 1, j)
        case None => None
        case Some(rest) => Some([rec] + rest)
  }

  /**
    * Line `next - 1` ends the block, and the lines `i` to `next - 2` are all
    * accepted entries whose records, in order, follow `es` in `out`.
    */
  ghost predicate ReadToEnd(cfg: AdjConfig, vs: seq<LineView>, i: nat, es: seq<PerfMeasRecord>,
                            next: nat, out: seq<PerfMeasRecord>)
    requires i < next <= |vs|
  {
    StartsWith(vs[next - 1].low, "end performance_measure") &&
    RecordsFollow(LineEntries(cfg, vs), i, es, next - 1, out)
  }

  /** The results `rs[i..j]` are all accepted, and their records follow `es` in `out`. */
  ghost predicate RecordsFollow(rs: seq<Result<PerfMeasRecord, ParseError>>, i: nat, es: seq<PerfMeasRecord>,
                                j: nat, out: seq<PerfMeasRecord>)
    requires i <= j <= |rs|
  {
    |es| <= |out| && out[..|es|] == es && Accepted(rs, i, j) == Some(out[|es|..])
  }

  /**
    * A block that is read to its end: its last line read is the `end
    * performance_measure` line, and the lines before it are all accepted
    * entries whose records, in order, are appended to the entries already
    * held.
    */
  lemma BlockReadsEntries(cfg: AdjConfig, vs: seq<LineView>, i: nat, begin: LineView, es: seq<PerfMeasRecord>)
    requires i <= |vs| && !begin.skip
    ensures var r := ParseBlock(cfg, vs, i, begin, es);
      r.Success? ==> ReadToEnd(cfg, vs, i, es, r.value.0, r.value.1)
  {
    var r := ParseBlock(cfg, vs, i, begin, es);
    if r.Success? {
      ParseBlockIsScan(cfg, vs, i, begin, es);
      ScanBlockReads(LineEntries(cfg, vs), Lows(vs), i, es, r.value.0, r.value.1);
    }
  }

  /** The lower-cased text of each line. */
  ghost function Lows(vs: seq<LineView>): (r: seq<string>)
    ensures |r| == |vs| && forall k :: 0 <= k < |vs| ==> r[k] == vs[k].low
  {
    seq(|vs|, k requires 0 <= k < |vs| => vs[k].low)
  }

  /**
    * The block reader over lines already read as entries: `rs[k]` is what
    * line `k` gives as an entry and `lows[k]` its lower-cased text.
    */
  ghost function ScanBlock(rs: seq<Result<PerfMeasRecord, ParseError>>, lows: seq<string>, i: nat,
                           es: seq<PerfMeasRecord>): Result<(nat, seq<PerfMeasRecord>), ParseError>
    requires |rs| == |lows| && i <= |lows|
    decreases |lows| - i
  {
    if i == |lows| then Failure(ParseError(BlockEof, |lows| + 1))
    else if StartsWith(lows[i], "begin") then Failure(ParseError(NestedBeginInBlock, i + 1))
    else if StartsWith(lows[i], "end performance_measure") then Success((i + 1, es))
    else if StartsWith(lows[i], "open") then Failure(ParseError(ExternalFileUnsupported, i + 1))
    else
      match rs[i]
      case Failure(e) => Failure(e)
      case Success(rec) => ScanBlock(rs, lows, i + 1, es + [rec])
  }

  lemma {:induction false} ParseBlockIsScan(cfg: AdjConfig, vs: seq<LineView>, i: nat, begin: LineView,
                                            es: seq<PerfMeasRecord>)
    requires i <= |vs| && !begin.skip
    ensures ParseBlock(cfg, vs, i, begin, es) == ScanBlock(LineEntries(cfg, vs), Lows(vs), i, es)
    decreases |vs| - i
  {
    if i < |vs| {
      var low := vs[i].low;
      if !StartsWith(low, "begin") && !StartsWith(low, "end performance_measure") && !StartsWith(low, "open") {
        BlockEntryStep(cfg, vs, i, begin, es);
        LineEntriesAt(cfg, vs, i);
        match EntryOfTokens(cfg, vs[i].tokens, i + 1)
        case Failure(_) =>
        case Success(rec) => ParseBlockIsScan(cfg, vs, i + 1, begin, es + [rec]);
      }
    }
  }

  lemma {:induction false} ScanBlockReads(rs: seq<Result<PerfMeasRecord, ParseError>>, lows: seq<string>, i: nat,
                                          es: seq<PerfMeasRecord>, next: nat, out: seq<PerfMeasRecord>)
    requires |rs| == |lows| && i <= |lows|
    requires ScanBlock(rs, lows, i, es) == Success((next, out))
    ensures i < next <= |lows| && StartsWith(lows[next - 1], "end performance_measure")
    ensures RecordsFollow(rs, i, es, next - 1, out)
    decreases |lows| - i
  {
    if StartsWith(lows[i], "end performance_measure") {
      AcceptedNone(rs, i, es);
    } else {
      var rec := rs[i].value;
      ScanBlockReads(rs, lows, i + 1, es + [rec], next, out);
      RecordsFollowStep(rs, i, es, rec, next - 1, out);
    }
  }

  /** An accepted result at `i` before records that follow `es + [rec]` from `i + 1`. */
  lemma RecordsFollowStep(rs: seq<Result<PerfMeasRecord, ParseError>>, i: nat, es: seq<PerfMeasRecord>,
                          rec: PerfMeasRecord, j: nat, out: seq<PerfMeasRecord>)
    requires i < j <= |rs|
    requires rs[i] == Success(rec)
    requires RecordsFollow(rs, i + 1, es + [rec], j, out)
    ensures RecordsFollow(rs, i, es, j, out)
  {
    var es' := es + [rec];
    assert |es'| == |es| + 1;
    AppendedTail(es, rec, out);
    AcceptedStep(rs, i, j, rec, out[|es'|..]);
  }

  lemma AcceptedNone(rs: seq<Result<PerfMeasRecord, ParseError>>, i: nat, es: seq<PerfMeasRecord>)
    requires i <= |rs|
    ensures Accepted(rs, i, i) == Some(es[|es|..])
  {
    assert es[|es|..] == [];
  }

  /** An output that starts with `es + [rec]` starts with `es`, and after `es` holds `rec` and then the rest. */
  lemma AppendedTail(es: seq<PerfMeasRecord>, rec: PerfMeasRecord, out: seq<PerfMeasRecord>)
    requires |es| + 1 <= |out| && out[..|es| + 1] == es + [rec]
    ensures out[..|es|] == es && out[|es|..] == [rec] + out[|es| + 1..]
  {
    assert out[..|es|] == (out[..|es| + 1])[..|es|];
  }

  /** An accepted result at `i` followed by the records of the results up to `j`. */
  lemma AcceptedStep(rs: seq<Result<PerfMeasRecord, ParseError>>, i: nat, j: nat, rec: PerfMeasRecord,
                     rest: seq<PerfMeasRecord>)
    requires i < j <= |rs|
    requires rs[i] == Success(rec)
    requires Accepted(rs, i + 1, j) == Some(rest)
    ensures Accepted(rs, i, j) == Some([rec] + rest)
  {
  }


  /** A `begin` or an `open` line inside a block stops the reader. */
  lemma BlockStopsAtBeginOrOpen(cfg: AdjConfig, vs: seq<LineView>, i: nat, begin: LineView,
                                es: seq<PerfMeasRecord>)
    requires i < |vs| && !begin.skip
    ensures StartsWith(vs[i].low, "begin") ==>
      ParseBlock(cfg, vs, i, begin, es) == Failure(ParseError(NestedBeginInBlock, i + 1))
    ensures StartsWith(vs[i].low, "open") ==>
      ParseBlock(cfg, vs, i, begin, es) == Failure(ParseError(ExternalFileUnsupported, i + 1))
  {
    if StartsWith(vs[i].low, "open") {
      assert vs[i].low[0] == 'o';
    }
  }

  /** A block that reaches the end of the file fails, at the line after the last. */
  lemma BlockStopsAtEof(cfg: AdjConfig, vs: seq<LineView>, begin: LineView, es: seq<PerfMeasRecord>)
    ensures ParseBlock(cfg, vs, |vs|, begin, es) == Failure(ParseError(BlockEof, |vs| + 1))
  {
  }

  // ----- checks on a finished block -----

  lemma SubsetCard<T>(a: set<T>, b: set<T>)
    requires a <= b
    ensures |a| <= |b|
  {
    assert b == a + (b - a);
  }

  /** The types collected are exactly the entries' types. */
  lemma {:induction false} TypesOfMembers(entries: seq<PerfMeasRecord>, t: string)
    ensures t in TypesOf(entries) <==> exists k :: 0 <= k < |entries| && entries[k].pmType == t
  {
    if entries != [] {
      TypesOfMembers(entries[1..], t);
      if t in TypesOf(entries[1..]) {
        var k :| 0 <= k < |entries[1..]| && entries[1..][k].pmType == t;
        assert entries[k + 1].pmType == t;
      }
      if exists k :: 0 <= k < |entries| && entries[k].pmType == t {
        var k :| 0 <= k < |entries| && entries[k].pmType == t;
        if k > 0 {
          assert entries[1..][k - 1].pmType == t;
        }
      }
    }
  }

  /** The forms collected are exactly the entries' forms. */
  lemma {:induction false} FormsOfMembers(entries: seq<PerfMeasRecord>, f: string)
    ensures f in FormsOf(entries) <==> exists k :: 0 <= k < |entries| && entries[k].pmForm == f
  {
    if entries != [] {
      FormsOfMembers(entries[1..], f);
      if f in FormsOf(entries[1..]) {
        var k :| 0 <= k < |entries[1..]| && entries[1..][k].pmForm == f;
        assert entries[k + 1].pmForm == f;
      }
      if exists k :: 0 <= k < |entries| && entries[k].pmForm == f {
        var k :| 0 <= k < |entries| && entries[k].pmForm == f;
        if k > 0 {
          assert entries[1..][k - 1].pmForm == f;
        }
      }
    }
  }

  /** At most one `pm_type` among non-empty entries means they all share the first one's. */
  lemma TypesOfUniform(entries: seq<PerfMeasRecord>)
    requires entries != []
    ensures |TypesOf(entries)| <= 1 <==>
      forall k :: 0 <= k < |entries| ==> entries[k].pmType == entries[0].pmType
  {
    var t0 := entries[0].pmType;
    assert t0 in TypesOf(entries);
    if forall k :: 0 <= k < |entries| ==> entries[k].pmType == t0 {
      forall t | t in TypesOf(entries) ensures t == t0 {
        TypesOfMembers(entries, t);
      }
      assert TypesOf(entries) == {t0};
    } else {
      var k :| 0 <= k < |entries| && entries[k].pmType != t0;
      TypesOfMembers(entries, entries[k].pmType);
      SubsetCard({t0, entries[k].pmType}, TypesOf(entries));
    }
  }

  /** At most one `pm_form` among non-empty entries means they all share the first one's. */
  lemma FormsOfUniform(entries: seq<PerfMeasRecord>)
    requires entries != []
    ensures |FormsOf(entries)| <= 1 <==>
      forall k :: 0 <= k < |entries| ==> entries[k].pmForm == entries[0].pmForm
  {
    var f0 := entries[0].pmForm;
    assert f0 in FormsOf(entries);
    if forall k :: 0 <= k < |entries| ==> entries[k].pmForm == f0 {
      forall f | f in FormsOf(entries) ensures f == f0 {
        FormsOfMembers(entries, f);
      }
      assert FormsOf(entries) == {f0};
    } else {
      var k :| 0 <= k < |entries| && entries[k].pmForm != f0;
      FormsOfMembers(entries, entries[k].pmForm);
      SubsetCard({f0, entries[k].pmForm}, FormsOf(entries));
    }
  }

  /**
    * A finished block becomes a measure exactly when it has entries, they
    * share one type and one form, a non-head measure is in direct form, and
    * no measure already read has its name; the measure is then the name and
    * the entries as read.
    */
  lemma CheckMeasureAccepts(name: string, entries: seq<PerfMeasRecord>, existing: seq<PerfMeas>, count: nat)
    ensures CheckMeasure(name, entries, existing, count).Success? <==>
      entries != [] && Uniform(entries) &&
      (entries[0].pmType != "head" ==> entries[0].pmForm == "direct") &&
      forall m :: 0 <= m < |existing| ==> existing[m].name != name
    ensures CheckMeasure(name, entries, existing, count).Success? ==>
      CheckMeasure(name, entries, existing, count).value == PerfMeas(name, entries)
  {
    if entries != [] {
      TypesOfUniform(entries);
      FormsOfUniform(entries);
    }
    assert name in Names(existing) <==> exists m :: 0 <= m < |existing| && existing[m].name == name;
  }

  // ----- the options block -----

  lemma {:induction false} WordLenLower(s: string)
    ensures WordLen(Lower(s)) == WordLen(s)
    decreases |s|
  {
    if s != [] {
      LowerCharSpace(s[0]);
      assert Lower(s)[1..] == Lower(s[1..]);
      WordLenLower(s[1..]);
    }
  }

  lemma LowerPrefix(s: string, n: nat)
    requires n <= |s|
    ensures Lower(s)[..n] == Lower(s[..n])
  {
  }

  lemma LowerSuffix(s: string, n: nat)
    requires n <= |s|
    ensures Lower(s)[n..] == Lower(s[n..])
  {
  }

  /** Lower-casing before `split()` gives the tokens of `split()`, each lower-cased. */
  lemma {:induction false} SplitLower(s: string)
    ensures Split(Lower(s)) == LowerAll(Split(s))
    decreases |s|
  {
    LStripLower(s);
    var t := LStrip(s);
    if t != [] {
      var n := WordLen(t);
      WordLenLower(t);
      LowerPrefix(t, n);
      LowerSuffix(t, n);
      SplitLower(t[n..]);
      assert Split(Lower(t)) == [Lower(t[..n])] + Split(Lower(t[n..]));
    }
  }

  /** The lower-cased tokens of a line are its tokens as written, each lower-cased. */
  lemma WordsOfView(line: string)
    ensures |View(line).words| == |View(line).tokens|
    ensures forall k :: 0 <= k < |View(line).words| ==> Lower(View(line).words[k]) == View(line).tokens[k]
  {
    StripLower(line);
    SplitLower(Strip(line));
  }

  /**
    * An `hdf5_name` line with a value sets the name to its second token as
    * written, not lower-cased, and the block goes on.
    */
  lemma Hdf5NameKeepsCase(vs: seq<LineView>, i: nat, h: Option<string>, line: string)
    requires Readable(vs) && i < |vs| && vs[i] == View(line) && !vs[i].skip
    requires !StartsWith(vs[i].low, "begin") && !StartsWith(vs[i].low, "end options")
    requires |vs[i].tokens| >= 2 && vs[i].tokens[0] == "hdf5_name"
    ensures |vs[i].words| >= 2
    ensures ParseOptions(vs, i, h) == ParseOptions(vs, i + 1, Some(vs[i].words[1]))
    ensures Lower(vs[i].words[1]) == vs[i].tokens[1]
  {
    WordsOfView(line);
  }

  /** A `begin` line, an `hdf5_name` without value and any other option stop the options block with an error. */
  lemma OptionsStops(vs: seq<LineView>, i: nat, h: Option<string>)
    requires Readable(vs) && i < |vs| && !vs[i].skip
    ensures StartsWith(vs[i].low, "begin") ==>
      ParseOptions(vs, i, h) == OptionsEnd(i + 1, h, Some(ParseError(NestedBeginInOptions, i + 1)))
    ensures !StartsWith(vs[i].low, "begin") && !StartsWith(vs[i].low, "end options") ==>
      (vs[i].tokens[0] == "hdf5_name" && |vs[i].words| < 2 ==>
        ParseOptions(vs, i, h) == OptionsEnd(i + 1, h, Some(ParseError(MissingOptionValue, i + 1)))) &&
      (vs[i].tokens[0] != "hdf5_name" ==>
        ParseOptions(vs, i, h) == OptionsEnd(i + 1, h, Some(ParseError(UnrecognizedOption, i + 1))))
  {
  }

  /** An options block that reaches the end of the file fails, at the line after the last. */
  lemma OptionsStopsAtEof(vs: seq<LineView>, h: Option<string>)
    requires Readable(vs)
    ensures ParseOptions(vs, |vs|, h) == OptionsEnd(|vs|, h, Some(ParseError(OptionsEof, |vs| + 1)))
  {
  }

  /** An options block read without error stops right after its `end options` line. */
  lemma {:induction false} OptionsEndLine(vs: seq<LineView>, i: nat, h: Option<string>)
    requires Readable(vs) && i <= |vs|
    ensures var o := ParseOptions(vs, i, h);
      o.error.None? ==> StartsWith(vs[o.next - 1].low, "end options")
    decreases |vs| - i
  {
    if i < |vs| {
      var v := vs[i];
      if v.skip {
        OptionsEndLine(vs, i + 1, h);
      } else if !StartsWith(v.low, "begin") && !StartsWith(v.low, "end options") &&
                v.tokens[0] == "hdf5_name" && |v.words| >= 2 {
        OptionsEndLine(vs, i + 1, Some(v.words[1]));
      }
    }
  }

  /** Line `k`, at or after `i`, is an `hdf5_name` line whose value is `v`. */
  ghost predicate NameFromLine(vs: seq<LineView>, i: nat, v: Option<string>) {
    exists k :: i <= k < |vs| && vs[k].tokens != [] && vs[k].tokens[0] == "hdf5_name" &&
                |vs[k].words| >= 2 && v == Some(vs[k].words[1])
  }

  /**
    * The name an options block leaves is the one held before it or the
    * value, as written, of one of its `hdf5_name` lines.
    */
  lemma {:induction false} OptionsNameSource(vs: seq<LineView>, i: nat, h: Option<string>)
    requires Readable(vs) && i <= |vs|
    ensures var o := ParseOptions(vs, i, h);
      o.hdf5Name == h || NameFromLine(vs, i, o.hdf5Name)
    decreases |vs| - i
  {
    var o := ParseOptions(vs, i, h);
    if i < |vs| && o.hdf5Name != h {
      var v := vs[i];
      if v.skip {
        OptionsNameSource(vs, i + 1, h);
        var k :| i + 1 <= k < |vs| && vs[k].tokens != [] && vs[k].tokens[0] == "hdf5_name" &&
                 |vs[k].words| >= 2 && o.hdf5Name == Some(vs[k].words[1]);
      } else {
        assert !StartsWith(v.low, "begin") && !StartsWith(v.low, "end options");
        assert v.tokens[0] == "hdf5_name" && |v.words| >= 2;
        OptionsNameSource(vs, i + 1, Some(v.words[1]));
        if o.hdf5Name != Some(v.words[1]) {
          var k :| i + 1 <= k < |vs| && vs[k].tokens != [] && vs[k].tokens[0] == "hdf5_name" &&
                   |vs[k].words| >= 2 && o.hdf5Name == Some(vs[k].words[1]);
        }
      }
    }
  }

  // ----- the whole file -----

  /** `lower()` leaves no upper-case ASCII letter. */
  lemma LowerIsLowerCase(s: string)
    ensures IsLowerCase(Lower(s))
  {
  }

  /**
    * A line at the top level that opens no known block stops the reader;
    * so does a measure header without exactly three tokens. Neither changes
    * the state.
    */
  lemma TopStops(cfg: AdjConfig, vs: seq<LineView>, i: nat, st: AdjState)
    requires Readable(vs) && i < |vs| && !vs[i].skip
    ensures !StartsWith(vs[i].low, "begin options") && !StartsWith(vs[i].low, "begin performance_measure") ==>
      ParseTop(cfg, vs, i, st) == (st, Some(ParseError(UnrecognizedInput, i + 1)))
    ensures StartsWith(vs[i].low, "begin performance_measure") && |vs[i].tokens| != 3 ==>
      ParseTop(cfg, vs, i, st) == (st, Some(ParseError(BeginItemCount(|vs[i].tokens|), i + 1)))
  {
    if StartsWith(vs[i].low, "begin performance_measure") {
      assert !StartsWith(vs[i].low, "begin options") by {
        assert vs[i].low[6] == 'p';
      }
    }
  }

  /**
    * A measure block that is accepted has a three-token header; the measure
    * is named by the lower-cased third token, is well formed, and takes a
    * name no measure already held has.
    */
  lemma MeasureBlockAccepts(cfg: AdjConfig, vs: seq<LineView>, i: nat, existing: seq<PerfMeas>)
    requires i < |vs|
    ensures match MeasureBlock(cfg, vs, i, existing)
      case Failure(_) => true
      case Success((_, pm)) =>
        |vs[i].tokens| == 3 && pm.name == Lower(Strip(vs[i].tokens[2])) &&
        WellFormedMeasure(pm) && forall m :: 0 <= m < |existing| ==> existing[m].name != pm.name
  {
    match MeasureBlock(cfg, vs, i, existing)
    case Failure(_) =>
    case Success((next, pm)) =>
      var v := vs[i];
      var pmName := Lower(Strip(v.tokens[2]));
      var entries := ParseBlock(cfg, vs, i + 1, v, []).value.1;
      CheckMeasureAccepts(pmName, entries, existing, next);
      LowerIsLowerCase(Strip(v.tokens[2]));
  }

  /**
    * Reading from a valid state keeps it valid: every measure it appends is
    * well formed (entries, one type, one form, non-head only in direct form,
    * a lower-case name) and no two measures share a name. The measures held
    * before are kept, and a read without error ends with at least one.
    */
  lemma {:induction false} ParseTopValid(cfg: AdjConfig, vs: seq<LineView>, i: nat, st: AdjState)
    requires Readable(vs) && i <= |vs| && ValidState(st)
    ensures ValidState(ParseTop(cfg, vs, i, st).0)
    ensures st.measures <= ParseTop(cfg, vs, i, st).0.measures
    ensures ParseTop(cfg, vs, i, st).1.None? ==> |ParseTop(cfg, vs, i, st).0.measures| >= 1
    decreases |vs| - i
  {
    if i < |vs| {
      var v := vs[i];
      if v.skip {
        ParseTopValid(cfg, vs, i + 1, st);
      } else if StartsWith(v.low, "begin options") {
        var o := ParseOptions(vs, i + 1, st.hdf5Name);
        if o.error.None? {
          ParseTopValid(cfg, vs, o.next, st.(hdf5Name := o.hdf5Name));
        }
      } else if StartsWith(v.low, "begin performance_measure") {
        match MeasureBlock(cfg, vs, i, st.measures)
        case Failure(_) =>
        case Success((next, pm)) =>
          MeasureBlockAccepts(cfg, vs, i, st.measures);
          var st' := st.(measures := st.measures + [pm]);
          assert ValidState(st');
          ParseTopValid(cfg, vs, next, st');
      }
    }
  }

  /**
    * What `_read_adj_file` leaves is valid whatever the file holds, and it
    * reports no error only with at least one measure read.
    */
  lemma ReadAdjValid(cfg: AdjConfig, lines: seq<string>, h: Option<string>)
    ensures ValidState(ReadAdj(cfg, lines, h).0)
    ensures ReadAdj(cfg, lines, h).1.None? ==> |ReadAdj(cfg, lines, h).0.measures| >= 1
  {
    ParseTopValid(cfg, Views(lines), 0, AdjState([], h));
  }

  // ----- one measure per block -----

  /** A top-level line that opens a `performance_measure` block. */
  ghost predicate IsHeader(v: LineView) {
    !v.skip && StartsWith(v.low, "begin performance_measure")
  }

  /** The indices of the header lines among lines `i` to `j - 1`, in increasing order. */
  ghost function Headers(vs: seq<LineView>, i: nat, j: nat): (r: seq<nat>)
    requires i <= j <= |vs|
    ensures forall k :: 0 <= k < |r| ==> i <= r[k] < j && IsHeader(vs[r[k]])
    decreases j - i
  {
    if i == j then [] else (if IsHeader(vs[i]) then [i] else []) + Headers(vs, i + 1, j)
  }

  /** Every header line among lines `i` to `j - 1` is listed, in increasing order. */
  lemma {:induction false} HeadersAll(vs: seq<LineView>, i: nat, j: nat)
    requires i <= j <= |vs|
    ensures forall m :: i <= m < j && IsHeader(vs[m]) ==> m in Headers(vs, i, j)
    ensures forall a, b :: 0 <= a < b < |Headers(vs, i, j)| ==> Headers(vs, i, j)[a] < Headers(vs, i, j)[b]
    decreases j - i
  {
    if i < j {
      HeadersAll(vs, i + 1, j);
    }
  }

  lemma {:induction false} HeadersSkip(vs: seq<LineView>, i: nat, j: nat, n: nat)
    requires i <= j <= n <= |vs|
    requires forall m :: i <= m < j ==> !IsHeader(vs[m])
    ensures Headers(vs, i, n) == Headers(vs, j, n)
    decreases j - i
  {
    if i < j {
      HeadersSkip(vs, i + 1, j, n);
    }
  }

  /**
    * The measures the blocks opened at the lines `hs` give, read one after
    * the other, each against the measures before it; `None` if one is refused.
    */
  ghost function MeasuresOf(cfg: AdjConfig, vs: seq<LineView>, hs: seq<nat>, before: seq<PerfMeas>)
    : Option<seq<PerfMeas>>
    requires forall k :: 0 <= k < |hs| ==> hs[k] < |vs|
    decreases |hs|
  {
    if hs == [] then Some([])
    else
      match MeasureBlock(cfg, vs, hs[0], before)
      case Failure(_) => None
      case Success((_, pm)) =>
        match MeasuresOf(cfg, vs, hs[1..], before + [pm])
        case None => None
        case Some(rest) => Some([pm] + rest)
  }

  /** A line starting with `begin performance_measure` starts with `begin`. */
  lemma NotBeginNoHeader(low: string)
    ensures StartsWith(low, "begin performance_measure") ==> StartsWith(low, "begin")
  {
    if StartsWith(low, "begin performance_measure") {
      assert low[..5] == low[..25][..5];
    }
  }

  /** A line starting with a word that begins with `e` does not start with `begin`. */
  lemma EndNoBegin(low: string, p: string)
    requires p != [] && p[0] == 'e' && StartsWith(low, p)
    ensures !StartsWith(low, "begin")
  {
    assert low[0] == low[..|p|][0];
  }

  lemma OptionsNotHeader(low: string)
    requires StartsWith(low, "begin options")
    ensures !StartsWith(low, "begin performance_measure")
  {
    assert low[6] == low[..13][6];
  }

  /** No line of a block read to its end, the end line included, starts with `begin`. */
  lemma {:induction false} ScanBlockNoBegin(rs: seq<Result<PerfMeasRecord, ParseError>>, lows: seq<string>, i: nat,
                                            es: seq<PerfMeasRecord>, next: nat, out: seq<PerfMeasRecord>)
    requires |rs| == |lows| && i <= |lows|
    requires ScanBlock(rs, lows, i, es) == Success((next, out))
    ensures i < next <= |lows| && forall m :: i <= m < next ==> !StartsWith(lows[m], "begin")
    decreases |lows| - i
  {
    if StartsWith(lows[i], "end performance_measure") {
      EndNoBegin(lows[i], "end performance_measure");
    } else {
      ScanBlockNoBegin(rs, lows, i + 1, es + [rs[i].value], next, out);
    }
  }

  /** No header line lies inside an accepted measure block. */
  lemma MeasureBlockNoHeaders(cfg: AdjConfig, vs: seq<LineView>, i: nat, existing: seq<PerfMeas>)
    requires i < |vs| && !vs[i].skip
    ensures MeasureBlock(cfg, vs, i, existing).Success? ==>
      forall m :: i < m < MeasureBlock(cfg, vs, i, existing).value.0 ==> !IsHeader(vs[m])
  {
    if MeasureBlock(cfg, vs, i, existing).Success? {
      var r := ParseBlock(cfg, vs, i + 1, vs[i], []);
      assert r.Success? && r.value.0 == MeasureBlock(cfg, vs, i, existing).value.0;
      ParseBlockIsScan(cfg, vs, i + 1, vs[i], []);
      ScanBlockNoBegin(LineEntries(cfg, vs), Lows(vs), i + 1, [], r.value.0, r.value.1);
      forall m | i < m < r.value.0 ensures !IsHeader(vs[m]) {
        NotBeginNoHeader(vs[m].low);
      }
    }
  }

  /** No header line lies inside an accepted `options` block. */
  lemma {:induction false} OptionsNoHeaders(vs: seq<LineView>, i: nat, h: Option<string>)
    requires Readable(vs) && i <= |vs|
    ensures var o := ParseOptions(vs, i, h);
      o.error.None? ==> forall m :: i <= m < o.next ==> !IsHeader(vs[m])
    decreases |vs| - i
  {
    if i < |vs| {
      var v := vs[i];
      if v.skip {
        OptionsNoHeaders(vs, i + 1, h);
      } else if StartsWith(v.low, "begin") {
      } else if StartsWith(v.low, "end options") {
        NotBeginNoHeader(v.low);
      } else if v.tokens[0] == "hdf5_name" && |v.words| >= 2 {
        NotBeginNoHeader(v.low);
        OptionsNoHeaders(vs, i + 1, Some(v.words[1]));
      }
    }
  }

  /**
    * A top-level read without error appends the measures of the blocks
    * opened at the header lines from line `i` on, one each, in order.
    */
  lemma {:induction false} ParseTopMeasures(cfg: AdjConfig, vs: seq<LineView>, i: nat, st: AdjState)
    requires Readable(vs) && i <= |vs|
    ensures ParseTop(cfg, vs, i, st).1.None? ==>
      var ms := MeasuresOf(cfg, vs, Headers(vs, i, |vs|), st.measures);
      ms.Some? && ParseTop(cfg, vs, i, st).0.measures == st.measures + ms.value
    decreases |vs| - i
  {
    if i == |vs| {
      assert Headers(vs, i, |vs|) == [];
      assert st.measures + [] == st.measures;
    } else {
      var v := vs[i];
      if v.skip {
        ParseTopMeasures(cfg, vs, i + 1, st);
        assert Headers(vs, i, |vs|) == Headers(vs, i + 1, |vs|);
        assert ParseTop(cfg, vs, i, st) == ParseTop(cfg, vs, i + 1, st);
      } else if StartsWith(v.low, "begin options") {
        var o := ParseOptions(vs, i + 1, st.hdf5Name);
        if o.error.None? {
          OptionsNoHeaders(vs, i + 1, st.hdf5Name);
          OptionsNotHeader(v.low);
          HeadersSkip(vs, i, o.next, |vs|);
          var st1 := st.(hdf5Name := o.hdf5Name);
          ParseTopMeasures(cfg, vs, o.next, st1);
          assert ParseTop(cfg, vs, i, st) == ParseTop(cfg, vs, o.next, st1);
        }
      } else if StartsWith(v.low, "begin performance_measure") {
        match MeasureBlock(cfg, vs, i, st.measures)
        case Failure(_) =>
        case Success((next, pm)) =>
          MeasureBlockNoHeaders(cfg, vs, i, st.measures);
          HeadersSkip(vs, i + 1, next, |vs|);
          var hs := Headers(vs, next, |vs|);
          assert Headers(vs, i, |vs|) == [i] + hs;
          var st2 := st.(measures := st.measures + [pm]);
          ParseTopMeasures(cfg, vs, next, st2);
          assert ParseTop(cfg, vs, i, st) == ParseTop(cfg, vs, next, st2);
          if ParseTop(cfg, vs, next, st2).1.None? {
            var rest := MeasuresOf(cfg, vs, hs, st2.measures).value;
            MeasuresOfCons(cfg, vs, i, hs, st.measures, next, pm, rest);
            AppendAssoc(st.measures, [pm], rest);
          }
      }
    }
  }

  lemma AppendAssoc<T>(a: seq<T>, b: seq<T>, c: seq<T>)
    ensures a + (b + c) == (a + b) + c
  {
  }

  lemma EmptyAppend<T>(a: seq<T>)
    ensures [] + a == a
  {
  }

  lemma MeasuresOfCons(cfg: AdjConfig, vs: seq<LineView>, i: nat, hs: seq<nat>, before: seq<PerfMeas>,
                       next: nat, pm: PerfMeas, rest: seq<PerfMeas>)
    requires i < |vs| && forall k :: 0 <= k < |hs| ==> hs[k] < |vs|
    requires MeasureBlock(cfg, vs, i, before) == Success((next, pm))
    requires MeasuresOf(cfg, vs, hs, before + [pm]) == Some(rest)
    ensures MeasuresOf(cfg, vs, [i] + hs, before) == Some([pm] + rest)
  {
    assert ([i] + hs)[1..] == hs;
  }

  /**
    * The measure the block opened at line `h` gives: a three-item header
    * whose lower-cased third item names it, a well-formed measure, and as
    * entries exactly the records of the lines up to the block's `end` line.
    */
  ghost predicate MeasureOfBlock(cfg: AdjConfig, vs: seq<LineView>, h: nat, pm: PerfMeas)
    requires h < |vs|
  {
    |vs[h].tokens| == 3 && pm.name == Lower(Strip(vs[h].tokens[2])) && WellFormedMeasure(pm) &&
    exists next :: BlockEntries(cfg, vs, h, next, pm.entries)
  }

  /**
    * The block opened at line `h` is read to its `end` line at `next - 1`,
    * and `entries` are the records of the lines between.
    */
  ghost predicate BlockEntries(cfg: AdjConfig, vs: seq<LineView>, h: nat, next: nat, entries: seq<PerfMeasRecord>) {
    h + 1 < next <= |vs| && ReadToEnd(cfg, vs, h + 1, [], next, entries)
  }

  lemma {:induction false} MeasuresOfShape(cfg: AdjConfig, vs: seq<LineView>, hs: seq<nat>, before: seq<PerfMeas>)
    requires forall k :: 0 <= k < |hs| ==> hs[k] < |vs| && !vs[hs[k]].skip
    ensures MeasuresOf(cfg, vs, hs, before).Some? ==>
      var ms := MeasuresOf(cfg, vs, hs, before).value;
      |ms| == |hs| && forall k :: 0 <= k < |hs| ==> MeasureOfBlock(cfg, vs, hs[k], ms[k])
    decreases |hs|
  {
    if hs != [] && MeasuresOf(cfg, vs, hs, before).Some? {
      var h := hs[0];
      var pm := MeasureBlock(cfg, vs, h, before).value.1;
      MeasureBlockGives(cfg, vs, h, before);
      MeasuresOfShape(cfg, vs, hs[1..], before + [pm]);
    }
  }

  /** An accepted measure block gives the measure of its header and its lines. */
  lemma MeasureBlockGives(cfg: AdjConfig, vs: seq<LineView>, h: nat, before: seq<PerfMeas>)
    requires h < |vs| && !vs[h].skip
    ensures MeasureBlock(cfg, vs, h, before).Success? ==>
      MeasureOfBlock(cfg, vs, h, MeasureBlock(cfg, vs, h, before).value.1)
  {
    if MeasureBlock(cfg, vs, h, before).Success? {
      var pm := MeasureBlock(cfg, vs, h, before).value.1;
      MeasureBlockAccepts(cfg, vs, h, before);
      var r := ParseBlock(cfg, vs, h + 1, vs[h], []);
      CheckMeasureAccepts(Lower(Strip(vs[h].tokens[2])), r.value.1, before, r.value.0);
      assert pm.entries == r.value.1;
      BlockReadsEntries(cfg, vs, h + 1, vs[h], []);
      assert BlockEntries(cfg, vs, h, r.value.0, pm.entries);
    }
  }

  /** A header line of the file is a line whose stripped, lower-cased text starts with `begin performance_measure`. */
  lemma HeaderLine(line: string)
    ensures IsHeader(View(line)) <==> StartsWith(Strip(Lower(line)), "begin performance_measure")
  {
    if StartsWith(Strip(Lower(line)), "begin performance_measure") {
      BlockSkipNeverFires(line);
    }
  }

  /**
    * A read without error holds one measure per header line of the file, in
    * file order: the k-th is the measure of the block opened at the k-th
    * header line, read against the ones before it.
    */
  lemma ReadAdjMeasures(cfg: AdjConfig, lines: seq<string>, h: Option<string>)
    ensures var vs := Views(lines);
      var hs := Headers(vs, 0, |vs|);
      var (st, e) := ReadAdj(cfg, lines, h);
      e.None? ==>
        MeasuresOf(cfg, vs, hs, []) == Some(st.measures) &&
        |st.measures| == |hs| &&
        forall k :: 0 <= k < |hs| ==> MeasureOfBlock(cfg, vs, hs[k], st.measures[k])
  {
    var vs := Views(lines);
    var hs := Headers(vs, 0, |vs|);
    var st := AdjState([], h);
    ParseTopMeasures(cfg, vs, 0, st);
    MeasuresOfShape(cfg, vs, hs, []);
    if ParseTop(cfg, vs, 0, st).1.None? {
      EmptyAppend(MeasuresOf(cfg, vs, hs, []).value);
    }
  }

  // ----- a well-formed file is read -----

  /** A line that starts with none of the words the block reader looks for. */
  ghost predicate PlainLine(low: string) {
    !StartsWith(low, "begin") && !StartsWith(low, "end performance_measure") && !StartsWith(low, "open")
  }

  /** A string that starts with `p` starts with `p`'s first character. */
  lemma FirstOfStart(s: string, p: string)
    requires p != []
    ensures StartsWith(s, p) ==> s != [] && s[0] == p[0]
  {
    if StartsWith(s, p) {
      assert s[..|p|][0] == s[0];
    }
  }

  /**
    * An accepted entry line starts with the sign or digit of its stress
    * period, so it starts with none of the block keywords.
    */
  lemma EntryLineNoKeyword(cfg: AdjConfig, line: string, count: nat)
    requires EntryOfTokens(cfg, LowTokens(line), count).Success?
    ensures PlainLine(Strip(Lower(line)))
  {
    var low := Strip(Lower(line));
    var raw := LowTokens(line);
    assert ParseInt(raw[0]).Some?;
    if low != [] {
      StripSplitFirst(Lower(line));
      assert IsDigit(low[0]) || low[0] == '+' || low[0] == '-';
    }
    FirstOfStart(low, "begin");
    FirstOfStart(low, "end performance_measure");
    FirstOfStart(low, "open");
  }

  /** Records that follow `es` from `i` start with an accepted result at `i`, and follow `es` and its record from `i + 1`. */
  lemma RecordsFollowBack(rs: seq<Result<PerfMeasRecord, ParseError>>, i: nat, es: seq<PerfMeasRecord>,
                          j: nat, out: seq<PerfMeasRecord>)
    requires i < j <= |rs|
    requires RecordsFollow(rs, i, es, j, out)
    ensures rs[i].Success? && RecordsFollow(rs, i + 1, es + [rs[i].value], j, out)
  {
    var rest := Accepted(rs, i + 1, j).value;
    var tail := out[|es|..];
    assert tail == [rs[i].value] + rest;
    assert out[..|es| + 1] == out[..|es|] + [tail[0]];
    assert out[|es| + 1..] == tail[1..];
  }

  /**
    * The converse of `ScanBlockReads`: results all accepted up to an `end
    * performance_measure` line are read as a block that ends there with
    * their records, provided no accepted line starts with a keyword.
    */
  lemma {:induction false} ScanBlockFollows(rs: seq<Result<PerfMeasRecord, ParseError>>, lows: seq<string>, i: nat,
                                            es: seq<PerfMeasRecord>, next: nat, out: seq<PerfMeasRecord>)
    requires |rs| == |lows| && i < next <= |lows|
    requires StartsWith(lows[next - 1], "end performance_measure")
    requires RecordsFollow(rs, i, es, next - 1, out)
    requires forall m :: i <= m < next - 1 && rs[m].Success? ==> PlainLine(lows[m])
    ensures ScanBlock(rs, lows, i, es) == Success((next, out))
    decreases next - i
  {
    if i == next - 1 {
      EndNoBegin(lows[i], "end performance_measure");
      assert out[|es|..] == [];
      assert out == out[..|es|];
    } else {
      RecordsFollowBack(rs, i, es, next - 1, out);
      ScanBlockFollows(rs, lows, i + 1, es + [rs[i].value], next, out);
    }
  }

  /**
    * The converse of `BlockReadsEntries`: lines that are all accepted entries
    * up to an `end performance_measure` line are read as a block that ends
    * there, with their records appended in order.
    */
  lemma BlockAcceptsEntries(cfg: AdjConfig, lines: seq<string>, i: nat, begin: LineView, es: seq<PerfMeasRecord>,
                            next: nat, out: seq<PerfMeasRecord>)
    requires !begin.skip && i < next <= |lines|
    requires ReadToEnd(cfg, Views(lines), i, es, next, out)
    ensures ParseBlock(cfg, Views(lines), i, begin, es) == Success((next, out))
  {
    var vs := Views(lines);
    var rs := LineEntries(cfg, vs);
    ParseBlockIsScan(cfg, vs, i, begin, es);
    forall m | i <= m < next - 1 && rs[m].Success?
      ensures PlainLine(Lows(vs)[m])
    {
      LineEntriesAt(cfg, vs, m);
      ViewsAt(lines, m);
      EntryLineNoKeyword(cfg, lines[m], m + 1);
    }
    ScanBlockFollows(rs, Lows(vs), i, es, next, out);
  }

  /** Where the blank or comment lines before block `k` start: the start of the file, or the line after block `k - 1`. */
  ghost function GapStart(ends: seq<nat>, k: nat): nat
    requires k <= |ends|
  {
    if k == 0 then 0 else ends[k - 1]
  }

  /** Where the blank or comment lines before block `k` stop: its header line, or the end of the file after the last block. */
  ghost function GapEnd(vs: seq<LineView>, hs: seq<nat>, k: nat): nat
    requires k <= |hs|
  {
    if k < |hs| then hs[k] else |vs|
  }

  /** Lines `i` to `j - 1` are all blank or comments. */
  ghost predicate Blank(vs: seq<LineView>, i: nat, j: nat) {
    forall m :: i <= m < j ==> m < |vs| && vs[m].skip
  }

  /**
    * The block opened at line `h` gives the measure `pm` against the measures
    * `before`: a header of three items, entry lines read up to the `end` line
    * at `e - 1`, and checks on the entries and the name that pass.
    */
  ghost predicate GoodBlock(cfg: AdjConfig, vs: seq<LineView>, h: nat, e: nat, before: seq<PerfMeas>, pm: PerfMeas) {
    h + 1 < e <= |vs| && IsHeader(vs[h]) && |vs[h].tokens| == 3 &&
    ReadToEnd(cfg, vs, h + 1, [], e, pm.entries) &&
    CheckMeasure(Lower(Strip(vs[h].tokens[2])), pm.entries, before, e) == Success(pm)
  }

  /**
    * The blocks open at the lines `hs` and the k-th ends with line
    * `ends[k] - 1`, in file order, with nothing but blank or comment lines
    * around them.
    */
  ghost predicate Layout(vs: seq<LineView>, hs: seq<nat>, ends: seq<nat>) {
    |hs| == |ends| &&
    (forall k :: 0 <= k < |hs| ==> GapStart(ends, k) <= hs[k] < ends[k] <= |vs|) &&
    GapStart(ends, |hs|) <= |vs| &&
    forall k :: 0 <= k <= |hs| ==> Blank(vs, GapStart(ends, k), GapEnd(vs, hs, k))
  }

  /**
    * The file is, in order, the blocks opened at the lines `hs`, the k-th
    * ending with line `ends[k] - 1` and giving `ms[k]` against the measures
    * before it, with nothing but blank or comment lines around them.
    */
  ghost predicate BlockFile(cfg: AdjConfig, vs: seq<LineView>, hs: seq<nat>, ends: seq<nat>, ms: seq<PerfMeas>) {
    |hs| == |ms| && Layout(vs, hs, ends) &&
    forall k :: 0 <= k < |hs| ==> GoodBlock(cfg, vs, hs[k], ends[k], ms[..k], ms[k])
  }

  /** At the top level, the block at line `hd` adds `pm` to the measures `before` and the read goes on at line `e`. */
  ghost predicate TopStep(cfg: AdjConfig, vs: seq<LineView>, hd: nat, e: nat, before: seq<PerfMeas>, pm: PerfMeas,
                          h: Option<string>) {
    Readable(vs) && hd < e <= |vs| &&
    ParseTop(cfg, vs, hd, AdjState(before, h)) == ParseTop(cfg, vs, e, AdjState(before + [pm], h))
  }

  /** Blank or comment lines are passed over at the top level. */
  lemma TopSkips(cfg: AdjConfig, vs: seq<LineView>, i: nat, j: nat, st: AdjState)
    requires Readable(vs) && i <= j <= |vs| && Blank(vs, i, j)
    ensures ParseTop(cfg, vs, i, st) == ParseTop(cfg, vs, j, st)
  {
    var p := i;
    while p < j
      invariant i <= p <= j && ParseTop(cfg, vs, i, st) == ParseTop(cfg, vs, p, st)
      decreases j - p
    {
      TopSkipsOne(cfg, vs, p, st);
      p := p + 1;
    }
  }

  lemma TopSkipsOne(cfg: AdjConfig, vs: seq<LineView>, i: nat, st: AdjState)
    requires Readable(vs) && i < |vs| && vs[i].skip
    ensures ParseTop(cfg, vs, i, st) == ParseTop(cfg, vs, i + 1, st)
  {
  }

  lemma HeaderNotOptions(low: string)
    requires StartsWith(low, "begin performance_measure")
    ensures !StartsWith(low, "begin options")
  {
    assert low[6] == low[..25][6];
  }

  /** An accepted block at a header line adds its measure and goes on after its `end` line. */
  lemma TopBlockStep(cfg: AdjConfig, vs: seq<LineView>, h: nat, e: nat, st: AdjState, pm: PerfMeas)
    requires Readable(vs) && h < |vs| && IsHeader(vs[h])
    requires MeasureBlock(cfg, vs, h, st.measures) == Success((e, pm))
    ensures ParseTop(cfg, vs, h, st) == ParseTop(cfg, vs, e, st.(measures := st.measures + [pm]))
  {
    HeaderNotOptions(vs[h].low);
  }

  /** A good block is read as its measure. */
  lemma GoodBlockRead(cfg: AdjConfig, lines: seq<string>, h: nat, e: nat, before: seq<PerfMeas>, pm: PerfMeas)
    requires GoodBlock(cfg, Views(lines), h, e, before, pm)
    ensures MeasureBlock(cfg, Views(lines), h, before) == Success((e, pm))
  {
    var vs := Views(lines);
    BlockAcceptsEntries(cfg, lines, h + 1, vs[h], [], e, pm.entries);
  }

  /** From the gap before block `k` on, with the measures of the blocks before it, the rest of the file is read. */
  lemma {:induction false} TopReadsSteps(cfg: AdjConfig, vs: seq<LineView>, hs: seq<nat>, ends: seq<nat>,
                                         ms: seq<PerfMeas>, h: Option<string>, k: nat)
    requires Readable(vs) && |ms| > 0 && |hs| == |ms| && Layout(vs, hs, ends) && k <= |hs|
    requires forall k :: 0 <= k < |hs| ==> TopStep(cfg, vs, hs[k], ends[k], ms[..k], ms[k], h)
    ensures ParseTop(cfg, vs, GapStart(ends, k), AdjState(ms[..k], h)) == (AdjState(ms, h), None)
    decreases |hs| - k
  {
    var st := AdjState(ms[..k], h);
    assert Blank(vs, GapStart(ends, k), GapEnd(vs, hs, k));
    TopSkips(cfg, vs, GapStart(ends, k), GapEnd(vs, hs, k), st);
    if k == |hs| {
      PrefixAll(ms);
    } else {
      assert TopStep(cfg, vs, hs[k], ends[k], ms[..k], ms[k], h);
      PrefixStep(ms, k);
      TopReadsSteps(cfg, vs, hs, ends, ms, h, k + 1);
    }
  }

  /**
    * A file made of one or more good measure blocks and blank or comment
    * lines is read without error, and gives exactly those measures, in order.
    */
  lemma ReadAdjAccepts(cfg: AdjConfig, lines: seq<string>, h: Option<string>, hs: seq<nat>, ends: seq<nat>,
                       ms: seq<PerfMeas>)
    requires |ms| > 0 && BlockFile(cfg, Views(lines), hs, ends, ms)
    ensures ReadAdj(cfg, lines, h) == (AdjState(ms, h), None)
  {
    var vs := Views(lines);
    forall k | 0 <= k < |hs|
      ensures TopStep(cfg, vs, hs[k], ends[k], ms[..k], ms[k], h)
    {
      GoodBlockRead(cfg, lines, hs[k], ends[k], ms[..k], ms[k]);
      TopBlockStep(cfg, vs, hs[k], ends[k], AdjState(ms[..k], h), ms[k]);
    }
    TopReadsSteps(cfg, vs, hs, ends, ms, h, 0);
    PrefixNone(ms);
  }

  lemma PrefixStep<T>(s: seq<T>, k: nat)
    requires k < |s|
    ensures s[..k] + [s[k]] == s[..k + 1]
  {
  }

  lemma PrefixAll<T>(s: seq<T>)
    ensures s[..|s|] == s
  {
  }

  lemma PrefixNone<T>(s: seq<T>)
    ensures s[..0] == []
  {
  }
}
