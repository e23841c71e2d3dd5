/** What the loops of `annotate_interactions` find, over the cube dictionaries `find_neighbors` builds:
    every record comes from a screened pair of the input (soundness), every pair that yields a record is
    found although only 27 neighbouring cubes are searched (completeness), and no pair is recorded twice. */
module AnnotationProperties {
  import opened Wrappers
  import opened Geometry
  import opened Seqs
  import opened Entities
  import opened Grid
  import opened Screening
  import opened Annotation

  /** The record is the one its pair yields. */
  predicate FromPair(ctx: Context, r: Record) {
    BaseReady(r.base, ctx.t) && AaReady(r.aa, ctx.t) && PairRecord(ctx, r.base, r.aa) == Some(r)
  }

  /** The pair a record is about. */
  function PairOf(r: Record): (Component, Component) {
    (r.base, r.aa)
  }

  /** Each list of the dictionary is free of repeats. */
  predicate ListsDistinct(m: map<CubeKey, seq<Component>>) {
    forall key :: key in m ==> Distinct(m[key])
  }

  /** No residue sits in two lists of the dictionary. */
  predicate Disjoint(m: map<CubeKey, seq<Component>>) {
    forall k1, k2, r :: k1 in m && k2 in m && r in m[k1] && r in m[k2] ==> k1 == k2
  }

  // ---------------------------------------------------------------------------------------------------
  // One loop level at a time

  /** The loop over the amino acids of one cube, for one base. */
  lemma AaLevel(ctx: Context, base: Component, aas: seq<Component>)
    ensures forall r :: r in ConcatMap(aas, AaStep(ctx, base)) ==> r.base == base && r.aa in aas && FromPair(ctx, r)
    ensures Distinct(aas) ==> Distinct(Map(ConcatMap(aas, AaStep(ctx, base)), PairOf))
  {
    var f := AaStep(ctx, base);
    forall r: Record | r in ConcatMap(aas, f)
      ensures r.base == base && r.aa in aas && FromPair(ctx, r)
    {
      ConcatMapMember(aas, f, r);
      var aa :| aa in aas && r in f(aa);
      AaRecordsNames(ctx, base, aa);
    }
    if Distinct(aas) {
      forall x, y | x in aas && y in aas
        ensures forall u, v :: u in f(x) && v in f(y) && PairOf(u) == PairOf(v) ==> x == y
      {
        AaRecordsNames(ctx, base, x);
        AaRecordsNames(ctx, base, y);
      }
      ConcatMapDistinct(aas, f, PairOf);
    }
  }

  /** What the innermost loop body adds for one amino acid is the record of that pair. */
  lemma AaRecordsNames(ctx: Context, base: Component, aa: Component)
    ensures forall r :: r in AaRecords(ctx, base, aa) ==> r.base == base && r.aa == aa && FromPair(ctx, r)
  {
    if BaseReady(base, ctx.t) && AaReady(aa, ctx.t) {
      PairRecordNames(ctx, base, aa);
    }
  }

  /** The loop over the bases of one cube, against the amino acids of cube `aakey`. */
  lemma BaseLevel(ctx: Context, aakey: CubeKey, bases: seq<Component>)
    ensures forall r :: r in ConcatMap(bases, BaseStep(ctx, aakey)) ==>
              r.base in bases && aakey in ctx.aaCubes && r.aa in ctx.aaCubes[aakey] && FromPair(ctx, r)
    ensures Distinct(bases) && (aakey in ctx.aaCubes ==> Distinct(ctx.aaCubes[aakey])) ==>
              Distinct(Map(ConcatMap(bases, BaseStep(ctx, aakey)), PairOf))
  {
    var f := BaseStep(ctx, aakey);
    forall b | b in bases
      ensures forall r :: r in f(b) ==> r.base == b && aakey in ctx.aaCubes && r.aa in ctx.aaCubes[aakey] && FromPair(ctx, r)
      ensures (aakey in ctx.aaCubes ==> Distinct(ctx.aaCubes[aakey])) ==> Distinct(Map(f(b), PairOf))
    {
      if aakey in ctx.aaCubes {
        AaLevel(ctx, b, ctx.aaCubes[aakey]);
      }
    }
    forall r: Record | r in ConcatMap(bases, f)
      ensures r.base in bases && aakey in ctx.aaCubes && r.aa in ctx.aaCubes[aakey] && FromPair(ctx, r)
    {
      ConcatMapMember(bases, f, r);
    }
    if Distinct(bases) && (aakey in ctx.aaCubes ==> Distinct(ctx.aaCubes[aakey])) {
      ConcatMapDistinct(bases, f, PairOf);
    }
  }

  /** The loop over the neighbour keys of base cube `key`. */
  lemma NeighborLevel(ctx: Context, key: CubeKey, neighbors: seq<CubeKey>)
    ensures forall r :: r in ConcatMap(neighbors, NeighborStep(ctx, key)) ==>
              && key in ctx.baseCubes && r.base in ctx.baseCubes[key] && FromPair(ctx, r)
              && exists aakey :: aakey in neighbors && aakey in ctx.aaCubes && r.aa in ctx.aaCubes[aakey]
    ensures Distinct(neighbors) && (key in ctx.baseCubes ==> Distinct(ctx.baseCubes[key]))
            && ListsDistinct(ctx.aaCubes) && Disjoint(ctx.aaCubes) ==>
              Distinct(Map(ConcatMap(neighbors, NeighborStep(ctx, key)), PairOf))
  {
    var f := NeighborStep(ctx, key);
    forall aakey | aakey in neighbors
      ensures forall r :: r in f(aakey) ==>
                key in ctx.baseCubes && r.base in ctx.baseCubes[key] && aakey in ctx.aaCubes
                && r.aa in ctx.aaCubes[aakey] && FromPair(ctx, r)
      ensures (key in ctx.baseCubes ==> Distinct(ctx.baseCubes[key])) && ListsDistinct(ctx.aaCubes) ==>
                Distinct(Map(f(aakey), PairOf))
    {
      if key in ctx.baseCubes && aakey in ctx.aaCubes {
        BaseLevel(ctx, aakey, ctx.baseCubes[key]);
      }
    }
    forall r: Record | r in ConcatMap(neighbors, f)
      ensures && key in ctx.baseCubes && r.base in ctx.baseCubes[key] && FromPair(ctx, r)
              && exists aakey :: aakey in neighbors && aakey in ctx.aaCubes && r.aa in ctx.aaCubes[aakey]
    {
      ConcatMapMember(neighbors, f, r);
    }
    if Distinct(neighbors) && (key in ctx.baseCubes ==> Distinct(ctx.baseCubes[key]))
       && ListsDistinct(ctx.aaCubes) && Disjoint(ctx.aaCubes) {
      ConcatMapDistinct(neighbors, f, PairOf);
    }
  }

  // ---------------------------------------------------------------------------------------------------
  // The whole loop nest

  /** Every record comes from a pair of a base in a visited base cube and an amino acid in one of that
      cube's neighbouring cubes, and is the record that pair yields. */
  lemma AnnotateSound(ctx: Context, keyOrder: seq<CubeKey>, r: Record)
    requires r in Annotate(ctx, keyOrder)
    ensures FromPair(ctx, r)
    ensures exists key :: key in keyOrder && key in ctx.baseCubes && r.base in ctx.baseCubes[key]
    ensures exists aakey :: aakey in ctx.aaCubes && r.aa in ctx.aaCubes[aakey]
  {
    ConcatMapMember(keyOrder, KeyStep(ctx), r);
    var key :| key in keyOrder && r in KeyRecords(ctx, key);
    NeighborLevel(ctx, key, ctx.baseNeighbors[key]);
  }

  /** No pair is recorded twice when the key order visits each base cube once, each neighbour list has no
      repeats, and no residue sits twice in the cube lists. */
  lemma {:induction false} AnnotateDistinct(ctx: Context, keyOrder: seq<CubeKey>)
    requires Distinct(keyOrder)
    requires forall key :: key in ctx.baseNeighbors ==> Distinct(ctx.baseNeighbors[key])
    requires ListsDistinct(ctx.baseCubes) && Disjoint(ctx.baseCubes)
    requires ListsDistinct(ctx.aaCubes) && Disjoint(ctx.aaCubes)
    ensures Distinct(Map(Annotate(ctx, keyOrder), PairOf))
  {
    var f := KeyStep(ctx);
    forall key | key in keyOrder
      ensures forall r :: r in f(key) ==> key in ctx.baseCubes && r.base in ctx.baseCubes[key]
      ensures Distinct(Map(f(key), PairOf))
    {
      if key in ctx.baseNeighbors {
        NeighborLevel(ctx, key, ctx.baseNeighbors[key]);
      }
    }
    ConcatMapDistinct(keyOrder, f, PairOf);
  }

  // ---------------------------------------------------------------------------------------------------
  // Over the dictionaries of find_neighbors

  /** The three dictionaries are those `find_neighbors` returns for these residues. */
  predicate GridOf(ctx: Context, bases: seq<Component>, aas: seq<Component>) {
    && ctx.d != 0.0
    && ctx.baseCubes == Buckets(bases, "base", ctx.d)
    && ctx.aaCubes == Buckets(aas, ctx.part, ctx.d)
    && ctx.baseNeighbors.Keys == ctx.baseCubes.Keys
    && forall key :: key in ctx.baseNeighbors ==> ctx.baseNeighbors[key] == Neighbors27(key)
  }

  /** Cube lists hold each residue at most once, and in one cube only. */
  lemma BucketsPartition(rs: seq<Component>, part: string, d: real)
    requires d != 0.0
    ensures Disjoint(Buckets(rs, part, d))
    ensures Distinct(rs) ==> ListsDistinct(Buckets(rs, part, d))
  {
    var m := Buckets(rs, part, d);
    forall k1, k2, r | k1 in m && k2 in m && r in m[k1] && r in m[k2]
      ensures k1 == k2
    {
      BucketsSelectByCube(rs, part, d, k1);
      FilterMember(rs, InCube(part, d, k1), r);
      EachInOneCube(rs, part, d, r, k1);
      EachInOneCube(rs, part, d, r, k2);
    }
    if Distinct(rs) {
      forall key | key in m
        ensures Distinct(m[key])
      {
        BucketsSelectByCube(rs, part, d, key);
        FilterDistinct(rs, InCube(part, d, key));
      }
    }
  }

  /** Over the grid, the records are records of input pairs. */
  lemma RecordsFromInput(ctx: Context, bases: seq<Component>, aas: seq<Component>, keyOrder: seq<CubeKey>, r: Record)
    requires GridOf(ctx, bases, aas) && r in Annotate(ctx, keyOrder)
    ensures r.base in bases && r.aa in aas && FromPair(ctx, r)
  {
    AnnotateSound(ctx, keyOrder, r);
    var key :| key in keyOrder && key in ctx.baseCubes && r.base in ctx.baseCubes[key];
    var aakey :| aakey in ctx.aaCubes && r.aa in ctx.aaCubes[aakey];
    BucketsSelectByCube(bases, "base", ctx.d, key);
    FilterMember(bases, InCube("base", ctx.d, key), r.base);
    BucketsSelectByCube(aas, ctx.part, ctx.d, aakey);
    FilterMember(aas, InCube(ctx.part, ctx.d, aakey), r.aa);
  }

  /** A pair of a base in cube `key` and an amino acid in a neighbouring occupied cube `aakey` has its
      record among those of `key`. */
  lemma FoundFromCube(ctx: Context, key: CubeKey, aakey: CubeKey, base: Component, aa: Component)
    requires key in ctx.baseCubes && base in ctx.baseCubes[key] && aakey in ctx.aaCubes && aa in ctx.aaCubes[aakey]
    requires key in ctx.baseNeighbors && aakey in ctx.baseNeighbors[key]
    requires BaseReady(base, ctx.t) && AaReady(aa, ctx.t) && PairRecord(ctx, base, aa).Some?
    ensures PairRecord(ctx, base, aa).value in KeyRecords(ctx, key)
  {
    var r := PairRecord(ctx, base, aa).value;
    RecordCentersWithin(ctx, base, aa);
    assert r in AaStep(ctx, base)(aa);
    ConcatMapMember(ctx.aaCubes[aakey], AaStep(ctx, base), r);
    assert r in BaseStep(ctx, aakey)(base);
    ConcatMapMember(ctx.baseCubes[key], BaseStep(ctx, aakey), r);
    assert r in NeighborStep(ctx, key)(aakey);
    ConcatMapMember(ctx.baseNeighbors[key], NeighborStep(ctx, key), r);
  }

  /** A base and an amino acid of the input whose centres are closer than D sit in cubes of the grid, and
      the amino acid's cube is among the neighbours of the base's cube. */
  lemma PairCubes(ctx: Context, bases: seq<Component>, aas: seq<Component>, base: Component, aa: Component)
    requires GridOf(ctx, bases, aas) && base in bases && aa in aas
    requires "base" in base.centers && ctx.part in aa.centers
    requires CentersWithin(base.centers["base"], aa.centers[ctx.part], ctx.d)
    ensures var key, aakey := CubeOf(base.centers["base"], ctx.d), CubeOf(aa.centers[ctx.part], ctx.d);
            && key in ctx.baseCubes && base in ctx.baseCubes[key] && aakey in ctx.aaCubes && aa in ctx.aaCubes[aakey]
            && key in ctx.baseNeighbors && aakey in ctx.baseNeighbors[key]
  {
    var d := ctx.d;
    var bc, ac := base.centers["base"], aa.centers[ctx.part];
    EachInOneCube(bases, "base", d, base, CubeOf(bc, d));
    EachInOneCube(aas, ctx.part, d, aa, CubeOf(ac, d));
    CloseCentersShareNeighborhood(bc, ac, d);
  }

  /** Every input pair that yields a record is found: the amino acid passed the centre-distance test, so its
      cube is one of the 27 around the base's cube. */
  lemma AnnotateComplete(ctx: Context, bases: seq<Component>, aas: seq<Component>,
                         keyOrder: seq<CubeKey>, base: Component, aa: Component)
    requires GridOf(ctx, bases, aas) && Elements(keyOrder) == ctx.baseCubes.Keys
    requires base in bases && aa in aas && BaseReady(base, ctx.t) && AaReady(aa, ctx.t)
    requires PairRecord(ctx, base, aa).Some?
    ensures PairRecord(ctx, base, aa).value in Annotate(ctx, keyOrder)
  {
    RecordCentersWithin(ctx, base, aa);
    PairCubes(ctx, bases, aas, base, aa);
    var key, aakey := CubeOf(base.centers["base"], ctx.d), CubeOf(aa.centers[ctx.part], ctx.d);
    FoundFromCube(ctx, key, aakey, base, aa);
    assert key in Elements(keyOrder);
    ConcatMapMember(keyOrder, KeyStep(ctx), PairRecord(ctx, base, aa).value);
  }

  /** Over the grid of distinct inputs, visiting each base cube once, no (base, amino acid) pair is
      recorded twice. */
  lemma NoPairTwice(ctx: Context, bases: seq<Component>, aas: seq<Component>, keyOrder: seq<CubeKey>)
    requires GridOf(ctx, bases, aas) && IsKeyOrder(keyOrder, ctx.baseCubes)
    requires Distinct(bases) && Distinct(aas)
    ensures Distinct(Map(Annotate(ctx, keyOrder), PairOf))
  {
    BucketsPartition(bases, "base", ctx.d);
    BucketsPartition(aas, ctx.part, ctx.d);
    forall key | key in ctx.baseNeighbors
      ensures Distinct(ctx.baseNeighbors[key])
    {
      NeighborsDistinct(key);
    }
    AnnotateDistinct(ctx, keyOrder);
  }
}
