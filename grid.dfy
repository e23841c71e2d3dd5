/** `find_neighbors` in fr3d/RNA-protein-annotation.py: residues are hashed into cubes of side D by the floor
    of each centre coordinate divided by D, and every occupied base cube is given the keys of the 27 cubes
    around it. */
module Grid {
  import opened Wrappers
  import opened Geometry
  import opened Seqs
  import opened Entities

  /** A cube: the three floors. The source formats them as "%d,%d,%d", which is injective on integer
      triples, so the triple itself serves as the key. */
  datatype CubeKey = CubeKey(i: int, j: int, k: int)

  /** The cube holding point `v`. */
  function CubeOf(v: Vec3, d: real): CubeKey
    requires d != 0.0
  {
    CubeKey((v.x / d).Floor, (v.y / d).Floor, (v.z / d).Floor)
  }

  /** The keys at offsets (a, b, c) in {-1, 0, 1}^3 around `key`, in the order of the three nested loops
      over a, b and c. */
  function Neighbors27(key: CubeKey): (r: seq<CubeKey>)
    ensures |r| == 27
  {
    seq(27, n requires 0 <= n < 27 => CubeKey(key.i + n / 9 - 1, key.j + (n / 3) % 3 - 1, key.k + n % 3 - 1))
  }

  /** `m` lies in one of the 27 cubes around `key`. */
  predicate Adjacent(key: CubeKey, m: CubeKey) {
    -1 <= m.i - key.i <= 1 && -1 <= m.j - key.j <= 1 && -1 <= m.k - key.k <= 1
  }

  /** The position of offset (a, b, c) in the loop order. */
  lemma OffsetIndex(a: int, b: int, c: int)
    requires 0 <= a < 3 && 0 <= b < 3 && 0 <= c < 3
    ensures (9 * a + 3 * b + c) / 9 == a && ((9 * a + 3 * b + c) / 3) % 3 == b && (9 * a + 3 * b + c) % 3 == c
  {
  }

  /** The neighbour list holds exactly the cubes adjacent to the key. */
  lemma {:induction false} NeighborsAreAdjacent(key: CubeKey, m: CubeKey)
    ensures m in Neighbors27(key) <==> Adjacent(key, m)
  {
    if Adjacent(key, m) {
      var a, b, c := m.i - key.i + 1, m.j - key.j + 1, m.k - key.k + 1;
      OffsetIndex(a, b, c);
      assert Neighbors27(key)[9 * a + 3 * b + c] == m;
    }
  }

  /** The 27 keys are distinct, and the key itself is one of them. */
  lemma NeighborsDistinct(key: CubeKey)
    ensures Distinct(Neighbors27(key))
    ensures key in Neighbors27(key)
  {
    NeighborsAreAdjacent(key, key);
    var r := Neighbors27(key);
    forall i, j | 0 <= i < j < 27
      ensures r[i] != r[j]
    {
      OffsetOf(i);
      OffsetOf(j);
    }
  }

  /** Position `n` of the loop order is offset (n / 9, (n / 3) % 3, n % 3). */
  lemma OffsetOf(n: int)
    requires 0 <= n < 27
    ensures n == 9 * (n / 9) + 3 * ((n / 3) % 3) + n % 3
  {
    var q := n / 3;
    assert n == 3 * q + n % 3;
    assert q == 3 * (q / 3) + q % 3;
    assert q / 3 == n / 9;
  }

  /** The centre of the named group, when the residue has one. */
  function CenterOf(r: Component, part: string): Option<Vec3> {
    if part in r.centers then Some(r.centers[part]) else None
  }

  /** Residue `r` has a centre for `part` and it lies in cube `key`. */
  function InCube(part: string, d: real, key: CubeKey): Component -> bool
    requires d != 0.0
  {
    r => CenterOf(r, part).Some? && CubeOf(CenterOf(r, part).value, d) == key
  }

  /** `m[key].append(r)`, or `m[key] = [r]` for a new key. */
  function Append(m: map<CubeKey, seq<Component>>, key: CubeKey, r: Component): map<CubeKey, seq<Component>> {
    m[key := (if key in m then m[key] else []) + [r]]
  }

  /** The cube dictionary the loop builds from `rs`: each residue with a centre appended to its cube's list. */
  function Buckets(rs: seq<Component>, part: string, d: real): (m: map<CubeKey, seq<Component>>)
    requires d != 0.0
    ensures forall key :: key in m ==> |m[key]| > 0
    ensures forall key, r :: key in m && r in m[key] ==> r in rs
  {
    if rs == [] then map[]
    else
      var m := Buckets(rs[..|rs| - 1], part, d);
      var r := rs[|rs| - 1];
      assert forall x :: x in rs[..|rs| - 1] ==> x in rs;
      match CenterOf(r, part)
      case None => m
      case Some(v) => Append(m, CubeOf(v, d), r)
  }

  /** One step of the loop: appending residue `rs[n]` to the dictionary built from the residues before it. */
  lemma BucketsStep(rs: seq<Component>, n: nat, part: string, d: real)
    requires d != 0.0 && n < |rs|
    ensures part !in rs[n].centers ==> Buckets(rs[..n + 1], part, d) == Buckets(rs[..n], part, d)
    ensures part in rs[n].centers ==>
            Buckets(rs[..n + 1], part, d) == Append(Buckets(rs[..n], part, d), CubeOf(rs[n].centers[part], d), rs[n])
  {
    assert rs[..n + 1][..n] == rs[..n];
  }

  /** Each cube's list is the subsequence, in input order, of the residues whose centre lies in it, and the
      occupied cubes are exactly those with such a residue. */
  lemma {:induction false} BucketsSelectByCube(rs: seq<Component>, part: string, d: real, key: CubeKey)
    requires d != 0.0
    ensures key in Buckets(rs, part, d) <==> Filter(rs, InCube(part, d, key)) != []
    ensures key in Buckets(rs, part, d) ==> Buckets(rs, part, d)[key] == Filter(rs, InCube(part, d, key))
  {
    if rs != [] {
      var init := rs[..|rs| - 1];
      var r := rs[|rs| - 1];
      assert rs == init + [r];
      BucketsSelectByCube(init, part, d, key);
      FilterSnoc(init, r, InCube(part, d, key));
    }
  }

  /** A residue with a centre sits in the cube of that centre and in no other; one without is in none. */
  lemma EachInOneCube(rs: seq<Component>, part: string, d: real, r: Component, key: CubeKey)
    requires d != 0.0 && r in rs
    ensures key in Buckets(rs, part, d) && r in Buckets(rs, part, d)[key]
            <==> CenterOf(r, part).Some? && CubeOf(CenterOf(r, part).value, d) == key
  {
    BucketsSelectByCube(rs, part, d, key);
    FilterMember(rs, InCube(part, d, key), r);
  }

  /** Empty input gives an empty dictionary. */
  lemma BucketsOfNothing(part: string, d: real)
    requires d != 0.0
    ensures Buckets([], part, d) == map[]
  {
  }

  /** The neighbour keys of one new base cube, built by the three nested loops. */
  method NeighborKeys(key: CubeKey) returns (ks: seq<CubeKey>)
    ensures ks == Neighbors27(key)
  {
    ks := [];
    for a := 0 to 3
      invariant ks == Neighbors27(key)[..9 * a]
    {
      for b := 0 to 3
        invariant ks == Neighbors27(key)[..9 * a + 3 * b]
      {
        for c := 0 to 3
          invariant ks == Neighbors27(key)[..9 * a + 3 * b + c]
        {
          OffsetIndex(a, b, c);
          assert Neighbors27(key)[..9 * a + 3 * b + c + 1] == Neighbors27(key)[..9 * a + 3 * b + c] + [Neighbors27(key)[9 * a + 3 * b + c]];
          ks := ks + [CubeKey(key.i + a - 1, key.j + b - 1, key.k + c - 1)];
        }
      }
    }
  }

  /** `find_neighbors`: the base cube dictionary, each occupied base cube's neighbour keys, and the amino-acid
      cube dictionary keyed by the centre of group `part`. */
  method FindNeighbors(bases: seq<Component>, aminoAcids: seq<Component>, part: string, d: real)
    returns (baseCubes: map<CubeKey, seq<Component>>, baseNeighbors: map<CubeKey, seq<CubeKey>>,
             aaCubes: map<CubeKey, seq<Component>>)
    requires d != 0.0
    ensures baseCubes == Buckets(bases, "base", d)
    ensures baseNeighbors.Keys == baseCubes.Keys
    ensures forall key :: key in baseNeighbors ==> baseNeighbors[key] == Neighbors27(key)
    ensures aaCubes == Buckets(aminoAcids, part, d)
  {
    baseCubes, baseNeighbors := map[], map[];
    for n := 0 to |bases|
      invariant baseCubes == Buckets(bases[..n], "base", d)
      invariant baseNeighbors.Keys == baseCubes.Keys
      invariant forall key :: key in baseNeighbors ==> baseNeighbors[key] == Neighbors27(key)
    {
      BucketsStep(bases, n, "base", d);
      var base := bases[n];
      if "base" in base.centers {
        var key := CubeOf(base.centers["base"], d);
        if key !in baseCubes {
          var ks := NeighborKeys(key);
          baseNeighbors := baseNeighbors[key := ks];
        }
        baseCubes := Append(baseCubes, key, base);
      }
    }
    assert bases[..|bases|] == bases;

    aaCubes := map[];
    for n := 0 to |aminoAcids|
      invariant aaCubes == Buckets(aminoAcids[..n], part, d)
    {
      BucketsStep(aminoAcids, n, part, d);
      var aa := aminoAcids[n];
      if part in aa.centers {
        var key := CubeOf(aa.centers[part], d);
        aaCubes := Append(aaCubes, key, aa);
      }
    }
    assert aminoAcids[..|aminoAcids|] == aminoAcids;
  }

  // ---------------------------------------------------------------------------------------------------
  // Why 27 cubes suffice

  /** Dividing by a positive number keeps a strict bound below it: x < d gives x / d < 1. */
  lemma QuotientBelowOne(x: real, d: real)
    requires d > 0.0
    ensures x < d ==> x / d < 1.0
    ensures -d < x ==> -1.0 < x / d
  {
    var q := x / d;
    assert q * d == x;
    ScaleStrict(q, 1.0, d);
    ScaleStrict(-1.0, q, d);
  }

  /** Two coordinates closer than the cube side have floors at most one apart. */
  lemma FloorsAdjacent(p: real, q: real, d: real)
    requires d > 0.0 && Abs(p - q) < d
    ensures -1 <= (p / d).Floor - (q / d).Floor <= 1
  {
    QuotientBelowOne(p - q, d);
    assert (p - q) / d == p / d - q / d;
  }

  /** Two centres closer than the cube side lie in adjacent cubes, so the 27 keys around a base's cube cover
      every amino acid whose centre passes the distance filter. */
  lemma {:induction false} CloseCentersShareNeighborhood(b: Vec3, a: Vec3, d: real)
    requires d > 0.0 && SqDist(b, a) < d * d
    ensures CubeOf(a, d) in Neighbors27(CubeOf(b, d))
  {
    AxisWithinDistance(a, b, d);
    FloorsAdjacent(a.x, b.x, d);
    FloorsAdjacent(a.y, b.y, d);
    FloorsAdjacent(a.z, b.z, d);
    NeighborsAreAdjacent(CubeOf(b, d), CubeOf(a, d));
  }
}
