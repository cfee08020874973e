/**
  * The forward-solution store: an HDF5 file opened for writing (so empty at
  * first) to which named groups are added one at a time, a name at most
  * once. Only the group names are modelled; what a group holds is the
  * solver's data and is not part of this model.
  */
module Snapshot {
  import opened Decimal

  /** The open store (`h5py.File(fname, 'w')`) and the groups written to it, in order. */
  class SnapshotStore {
    var groups: seq<string>

    /** `_open_hdf`: a file opened with mode `'w'` holds no group. */
    constructor ()
      ensures groups == []
    {
      groups := [];
    }

    /**
      * `write_group_to_hdf`: a name already in the file is refused and leaves
      * the file as it was; any other name is added as a new group.
      */
    method WriteGroup(name: string) returns (refused: bool)
      modifies this
      ensures refused <==> name in old(groups)
      ensures groups == if refused then old(groups) else old(groups) + [name]
    {
      refused := name in groups;
      if !refused {
        groups := groups + [name];
      }
    }
  }

  const SolutionPrefix: string := "solution_kper:"
  const StepTag: string := "_kstp:"

  /** The solution group of a time step: `"solution_kper:{0:05d}_kstp:{1:05d}".format(kper, kstp)`. */
  function GroupName(kper: nat, kstp: nat): string {
    SolutionPrefix + Pad5(kper) + StepTag + Pad5(kstp)
  }

  /** The group holding the time-step sequences. */
  const AuxGroup: string := "aux"
  /** The group holding the static model description. */
  const GwfInfoGroup: string := "gwf_info"

  // ----- lemmas -----

  /** The length of the leading run of decimal digits of `s`. */
  function DigitRun(s: string): (n: nat)
    ensures n <= |s|
  {
    if s == [] || !IsDigit(s[0]) then 0 else 1 + DigitRun(s[1..])
  }

  lemma {:induction false} DigitRunBeforeTag(a: string, b: string)
    requires AllDigits(a)
    ensures DigitRun(a + StepTag + b) == |a|
  {
    if a != [] {
      assert (a + StepTag + b)[1..] == a[1..] + StepTag + b;
      DigitRunBeforeTag(a[1..], b);
    }
  }

  /** Two digit strings each followed by the `_kstp:` tag line up only when they are equal. */
  lemma DigitsThenTag(a: string, b: string, c: string, d: string)
    requires AllDigits(a) && AllDigits(c)
    requires a + StepTag + b == c + StepTag + d
    ensures a == c && b == d
  {
    var s := a + StepTag + b;
    DigitRunBeforeTag(a, b);
    DigitRunBeforeTag(c, d);
    assert a == s[..|a|] == c;
    assert b == s[|a| + |StepTag|..] == d;
  }

  /**
    * Different time steps get different group names, so the name of a group
    * gives back its stress period and time step.
    */
  lemma GroupNameInjective(kper: nat, kstp: nat, kper': nat, kstp': nat)
    ensures GroupName(kper, kstp) == GroupName(kper', kstp') <==> kper == kper' && kstp == kstp'
  {
    if GroupName(kper, kstp) == GroupName(kper', kstp') {
      SameGroupSamePair(kper, kstp, kper', kstp');
    }
  }

  /** What follows the prefix of a group name: the two padded numbers around the `_kstp:` tag. */
  lemma GroupNameTail(kper: nat, kstp: nat)
    ensures GroupName(kper, kstp)[|SolutionPrefix|..] == Pad5(kper) + StepTag + Pad5(kstp)
  {
    assert GroupName(kper, kstp) == SolutionPrefix + (Pad5(kper) + StepTag + Pad5(kstp));
  }

  lemma SameGroupSamePair(kper: nat, kstp: nat, kper': nat, kstp': nat)
    requires GroupName(kper, kstp) == GroupName(kper', kstp')
    ensures kper == kper' && kstp == kstp'
  {
    GroupNameTail(kper, kstp);
    GroupNameTail(kper', kstp');
    DigitsThenTag(Pad5(kper), Pad5(kstp), Pad5(kper'), Pad5(kstp'));
    ValueOfPad5(kper);
    ValueOfPad5(kper');
    ValueOfPad5(kstp);
    ValueOfPad5(kstp');
  }

  /** The solution groups of the stress period / time step pairs, in order. */
  function GroupNames(pairs: seq<(nat, nat)>): (r: seq<string>)
    ensures |r| == |pairs|
  {
    if pairs == [] then []
    else GroupNames(pairs[..|pairs| - 1]) + [GroupName(pairs[|pairs| - 1].0, pairs[|pairs| - 1].1)]
  }

  lemma {:induction false} GroupNamesAt(pairs: seq<(nat, nat)>, m: nat)
    requires m < |pairs|
    ensures GroupNames(pairs)[m] == GroupName(pairs[m].0, pairs[m].1)
  {
    if m < |pairs| - 1 {
      GroupNamesAt(pairs[..|pairs| - 1], m);
    }
  }

  /** A pair's group is among the groups of a list of pairs exactly when the pair is in the list. */
  lemma {:induction false} GroupNamesHas(pairs: seq<(nat, nat)>, p: (nat, nat))
    ensures GroupName(p.0, p.1) in GroupNames(pairs) <==> p in pairs
  {
    if pairs != [] {
      var front, last := pairs[..|pairs| - 1], pairs[|pairs| - 1];
      assert pairs == front + [last];
      GroupNamesHas(front, p);
      GroupNameInjective(p.0, p.1, last.0, last.1);
    }
  }

  /** No solution group is the `aux` or the `gwf_info` group. */
  lemma {:induction false} GroupNamesNotReserved(pairs: seq<(nat, nat)>)
    ensures AuxGroup !in GroupNames(pairs) && GwfInfoGroup !in GroupNames(pairs)
  {
    if pairs != [] {
      GroupNamesNotReserved(pairs[..|pairs| - 1]);
      GroupNameNotReserved(pairs[|pairs| - 1].0, pairs[|pairs| - 1].1);
    }
  }

  /** Neither the `aux` group nor the `gwf_info` group can clash with a solution group. */
  lemma GroupNameNotReserved(kper: nat, kstp: nat)
    ensures GroupName(kper, kstp) != AuxGroup && GroupName(kper, kstp) != GwfInfoGroup
  {
    assert GroupName(kper, kstp)[0] == 's';
  }
}
