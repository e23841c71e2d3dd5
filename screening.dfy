/** Pair screening in fr3d/RNA-protein-annotation.py: `atom_dist_basepart` counts base / amino-acid atom pairs
    within 4 Angstroms, and `enough_HBs` counts those close pairs that can hydrogen-bond. Both return True
    when the count reaches its threshold and None otherwise. */
module Screening {
  import opened Wrappers
  import opened Geometry
  import opened Seqs
  import opened Entities

  /** The lookup tables of fr3d.definitions the classifier reads, keyed by residue sequence: the functional
      group atoms of each amino acid (`aa_fg`), the heavy base atoms (`RNAbaseheavyatoms`), the three atoms
      spanning each plane (`planar_atoms`), hydrogen-bond donors and acceptors, and the stacking tilt cutoff. */
  datatype Tables = Tables(aaFg: map<string, seq<string>>, heavy: map<string, seq<string>>,
                           planar: map<string, seq<string>>, donors: map<string, seq<string>>,
                           acceptors: map<string, seq<string>>, tilt: map<string, real>)

  /** The 4 Angstrom cutoff, compared squared: norm <= 4 exactly when the squared norm is <= 16. */
  const MinDistanceSq: real := 16.0

  /** Two atoms within the cutoff. */
  predicate Close(b: Atom, a: Atom) {
    SqDist(b.coord, a.coord) <= MinDistanceSq
  }

  /** The number of `as_` atoms that `p` pairs with `b`. */
  function CountRow(b: Atom, as_: seq<Atom>, p: (Atom, Atom) -> bool): nat {
    if as_ == [] then 0
    else CountRow(b, as_[..|as_| - 1], p) + (if p(b, as_[|as_| - 1]) then 1 else 0)
  }

  /** The number of pairs (b, a), b from `bs` and a from `as_`, that `p` accepts: what the double loops count. */
  function CountPairs(bs: seq<Atom>, as_: seq<Atom>, p: (Atom, Atom) -> bool): nat {
    if bs == [] then 0
    else CountPairs(bs[..|bs| - 1], as_, p) + CountRow(bs[|bs| - 1], as_, p)
  }

  /** The number of close pairs between two atom lists. */
  function CloseCount(bs: seq<Atom>, as_: seq<Atom>): nat {
    CountPairs(bs, as_, (b, a) => Close(b, a))
  }

  /** A close pair whose base atom donates to an amino-acid acceptor, or accepts from an amino-acid donor. */
  predicate HBondPair(b: Atom, a: Atom, baseDonors: seq<string>, baseAcceptors: seq<string>,
                      aaDonors: seq<string>, aaAcceptors: seq<string>) {
    Close(b, a) && ((b.name in baseDonors && a.name in aaAcceptors) || (b.name in baseAcceptors && a.name in aaDonors))
  }

  /** The number of hydrogen-bonding pairs. */
  function HBondCount(bs: seq<Atom>, as_: seq<Atom>, baseDonors: seq<string>, baseAcceptors: seq<string>,
                      aaDonors: seq<string>, aaAcceptors: seq<string>): nat {
    CountPairs(bs, as_, (b, a) => HBondPair(b, a, baseDonors, baseAcceptors, aaDonors, aaAcceptors))
  }

  // ---------------------------------------------------------------------------------------------------
  // What the counts mean

  /** A row count is positive exactly when some atom of the row is paired with `b`. */
  lemma {:induction false} RowPositive(b: Atom, as_: seq<Atom>, p: (Atom, Atom) -> bool)
    ensures CountRow(b, as_, p) >= 1 <==> exists j :: 0 <= j < |as_| && p(b, as_[j])
  {
    if as_ != [] {
      var init := as_[..|as_| - 1];
      RowPositive(b, init, p);
      if exists j :: 0 <= j < |init| && p(b, init[j]) {
        var j :| 0 <= j < |init| && p(b, init[j]);
        assert as_[j] == init[j];
      }
      if exists j :: 0 <= j < |as_| && p(b, as_[j]) {
        var j :| 0 <= j < |as_| && p(b, as_[j]);
        if j < |init| {
          assert init[j] == as_[j];
        }
      }
    }
  }

  /** A pair count is positive exactly when some pair is accepted. */
  lemma {:induction false} CountPositive(bs: seq<Atom>, as_: seq<Atom>, p: (Atom, Atom) -> bool)
    ensures CountPairs(bs, as_, p) >= 1 <==> exists i, j :: 0 <= i < |bs| && 0 <= j < |as_| && p(bs[i], as_[j])
  {
    if bs != [] {
      var init, last := bs[..|bs| - 1], bs[|bs| - 1];
      CountPositive(init, as_, p);
      RowPositive(last, as_, p);
      if exists i, j :: 0 <= i < |init| && 0 <= j < |as_| && p(init[i], as_[j]) {
        var i, j :| 0 <= i < |init| && 0 <= j < |as_| && p(init[i], as_[j]);
        assert bs[i] == init[i];
      }
      if exists i, j :: 0 <= i < |bs| && 0 <= j < |as_| && p(bs[i], as_[j]) {
        var i, j :| 0 <= i < |bs| && 0 <= j < |as_| && p(bs[i], as_[j]);
        if i < |init| {
          assert init[i] == bs[i];
        } else {
          assert bs[i] == last;
        }
      }
    }
  }

  /** Each pair adds at most one: a row count is at most the row's length. */
  lemma {:induction false} RowAtMostLength(b: Atom, as_: seq<Atom>, p: (Atom, Atom) -> bool)
    ensures CountRow(b, as_, p) <= |as_|
  {
    if as_ != [] {
      RowAtMostLength(b, as_[..|as_| - 1], p);
    }
  }

  /** Each pair adds at most one: a pair count is at most the number of pairs. */
  lemma {:induction false} CountAtMostPairs(bs: seq<Atom>, as_: seq<Atom>, p: (Atom, Atom) -> bool)
    ensures CountPairs(bs, as_, p) <= |bs| * |as_|
  {
    if bs != [] {
      CountAtMostPairs(bs[..|bs| - 1], as_, p);
      RowAtMostLength(bs[|bs| - 1], as_, p);
      assert |bs| * |as_| == (|bs| - 1) * |as_| + |as_|;
    }
  }

  /** Counting with a weaker test counts no fewer pairs (row). */
  lemma {:induction false} RowMonotone(b: Atom, as_: seq<Atom>, p: (Atom, Atom) -> bool, q: (Atom, Atom) -> bool)
    requires forall x, y :: p(x, y) ==> q(x, y)
    ensures CountRow(b, as_, p) <= CountRow(b, as_, q)
  {
    if as_ != [] {
      RowMonotone(b, as_[..|as_| - 1], p, q);
    }
  }

  /** Counting with a weaker test counts no fewer pairs. */
  lemma {:induction false} CountMonotone(bs: seq<Atom>, as_: seq<Atom>, p: (Atom, Atom) -> bool, q: (Atom, Atom) -> bool)
    requires forall x, y :: p(x, y) ==> q(x, y)
    ensures CountPairs(bs, as_, p) <= CountPairs(bs, as_, q)
  {
    if bs != [] {
      CountMonotone(bs[..|bs| - 1], as_, p, q);
      RowMonotone(bs[|bs| - 1], as_, p, q);
    }
  }

  /** Every hydrogen-bonding pair is a close pair, counted once: the hydrogen-bond count never exceeds the
      close-pair count. */
  lemma HBondsAreClosePairs(bs: seq<Atom>, as_: seq<Atom>, baseDonors: seq<string>, baseAcceptors: seq<string>,
                            aaDonors: seq<string>, aaAcceptors: seq<string>)
    ensures HBondCount(bs, as_, baseDonors, baseAcceptors, aaDonors, aaAcceptors) <= CloseCount(bs, as_)
  {
    CountMonotone(bs, as_, (b, a) => HBondPair(b, a, baseDonors, baseAcceptors, aaDonors, aaAcceptors),
                  (b, a) => Close(b, a));
  }

  // ---------------------------------------------------------------------------------------------------
  // atom_dist_basepart

  /** The functional-group atoms of an amino acid. */
  function FgAtoms(aa: Component, t: Tables): seq<Atom>
    requires aa.Sequence() in t.aaFg
  {
    AtomsNamed(aa.atoms, t.aaFg[aa.Sequence()])
  }

  /** What `atom_dist_basepart` returns: True when at least `c` pairs (a base atom named in `baseAtoms`, a
      functional-group atom) are close, None otherwise. */
  function Proximity(base: Component, aa: Component, baseAtoms: seq<string>, c: int, t: Tables): (r: Option<bool>)
    requires aa.Sequence() in t.aaFg
    ensures r.Some? ==> r.value && c <= |AtomsNamed(base.atoms, baseAtoms)| * |FgAtoms(aa, t)|
  {
    CountAtMostPairs(AtomsNamed(base.atoms, baseAtoms), FgAtoms(aa, t), (b, a) => Close(b, a));
    if CloseCount(AtomsNamed(base.atoms, baseAtoms), FgAtoms(aa, t)) >= c then Some(true) else None
  }

  /** The threshold is monotone: passing with c = 2 implies passing with c = 1. */
  lemma ProximityMonotone(base: Component, aa: Component, baseAtoms: seq<string>, c: int, c': int, t: Tables)
    requires aa.Sequence() in t.aaFg && c' <= c
    ensures Proximity(base, aa, baseAtoms, c, t).Some? ==> Proximity(base, aa, baseAtoms, c', t) == Some(true)
  {
  }

  /** Passing with a positive threshold means there is a close pair, so both atom lists are non-empty. */
  lemma ProximityWitness(base: Component, aa: Component, baseAtoms: seq<string>, c: int, t: Tables)
    requires aa.Sequence() in t.aaFg && c >= 1
    ensures Proximity(base, aa, baseAtoms, c, t).Some? ==>
              exists b, a :: b in AtomsNamed(base.atoms, baseAtoms) && a in FgAtoms(aa, t) && Close(b, a)
  {
    var bs, as_ := AtomsNamed(base.atoms, baseAtoms), FgAtoms(aa, t);
    CountPositive(bs, as_, (b, a) => Close(b, a));
    if Proximity(base, aa, baseAtoms, c, t).Some? {
      var i, j :| 0 <= i < |bs| && 0 <= j < |as_| && Close(bs[i], as_[j]);
      assert bs[i] in bs && as_[j] in as_;
    }
  }

  /** The double loop over a pair of atom lists, counting the pairs `p` accepts. */
  method CountLoop(bs: seq<Atom>, as_: seq<Atom>, p: (Atom, Atom) -> bool) returns (n: nat)
    ensures n == CountPairs(bs, as_, p)
  {
    n := 0;
    for i := 0 to |bs|
      invariant n == CountPairs(bs[..i], as_, p)
    {
      assert bs[..i + 1][..i] == bs[..i];
      for j := 0 to |as_|
        invariant n == CountPairs(bs[..i], as_, p) + CountRow(bs[i], as_[..j], p)
      {
        assert as_[..j + 1][..j] == as_[..j];
        if p(bs[i], as_[j]) {
          n := n + 1;
        }
      }
      assert as_[..|as_|] == as_;
    }
    assert bs[..|bs|] == bs;
  }

  /** `atom_dist_basepart`. */
  method AtomDistBasepart(base: Component, aa: Component, baseAtoms: seq<string>, c: int, t: Tables)
    returns (r: Option<bool>)
    requires aa.Sequence() in t.aaFg
    ensures r.Some? <==> CloseCount(AtomsNamed(base.atoms, baseAtoms), FgAtoms(aa, t)) >= c
    ensures r.Some? ==> r.value
  {
    var n := CountLoop(AtomsNamed(base.atoms, baseAtoms), FgAtoms(aa, t), (b, a) => Close(b, a));
    if n >= c {
      return Some(true);
    }
    return None;
  }

  // ---------------------------------------------------------------------------------------------------
  // enough_HBs

  /** The base atoms `enough_HBs` pairs: the given atoms and the ribose O2'. */
  function HBondBaseAtoms(baseAtoms: seq<string>): seq<string> {
    baseAtoms + ["O2'"]
  }

  /** The tables `enough_HBs` reads for a pair of residues. */
  predicate HasHBondTables(base: Component, aa: Component, t: Tables) {
    base.Sequence() in t.donors && base.Sequence() in t.acceptors && aa.Sequence() in t.donors
    && aa.Sequence() in t.acceptors && aa.Sequence() in t.aaFg
  }

  /** The number of hydrogen-bonding pairs `enough_HBs` counts; each is a close pair, so it never exceeds the
      close-pair count of the base atoms with O2' and the functional group. */
  function HBonds(base: Component, aa: Component, baseAtoms: seq<string>, t: Tables): (n: nat)
    requires HasHBondTables(base, aa, t)
    ensures n <= CloseCount(AtomsNamed(base.atoms, HBondBaseAtoms(baseAtoms)), FgAtoms(aa, t))
  {
    HBondsAreClosePairs(AtomsNamed(base.atoms, HBondBaseAtoms(baseAtoms)), FgAtoms(aa, t),
                        t.donors[base.Sequence()], t.acceptors[base.Sequence()],
                        t.donors[aa.Sequence()], t.acceptors[aa.Sequence()]);
    HBondCount(AtomsNamed(base.atoms, HBondBaseAtoms(baseAtoms)), FgAtoms(aa, t),
               t.donors[base.Sequence()], t.acceptors[base.Sequence()],
               t.donors[aa.Sequence()], t.acceptors[aa.Sequence()])
  }

  /** `enough_HBs`: True when at least two hydrogen-bonding pairs are found, None otherwise. */
  method EnoughHBonds(base: Component, aa: Component, baseAtoms: seq<string>, t: Tables) returns (r: Option<bool>)
    requires HasHBondTables(base, aa, t)
    ensures r.Some? <==> HBonds(base, aa, baseAtoms, t) >= 2
    ensures r.Some? ==> r.value
  {
    var baseDonors, baseAcceptors := t.donors[base.Sequence()], t.acceptors[base.Sequence()];
    var aaDonors, aaAcceptors := t.donors[aa.Sequence()], t.acceptors[aa.Sequence()];
    var n := CountLoop(AtomsNamed(base.atoms, HBondBaseAtoms(baseAtoms)), FgAtoms(aa, t),
                       (b, a) => HBondPair(b, a, baseDonors, baseAcceptors, aaDonors, aaAcceptors));
    if n >= 2 {
      return Some(true);
    }
    return None;
  }
}
