/** The main block of fr3d/RNA-protein-annotation.py after annotation: each record is filed in
    `allInteractionDictionary` under the key "<base component>_<amino-acid component>_<label>_<edge>", where
    a component is the fourth "|"-separated field of the residue's unit id. The unit-id encoder is not part of
    this model and is a parameter. */
module Aggregation {
  import opened Wrappers
  import opened Geometry
  import opened Seqs
  import opened Entities
  import opened Grid
  import opened Screening
  import opened Classifier
  import opened Annotation
  import opened AnnotationProperties

  // ---------------------------------------------------------------------------------------------------
  // str.split and its inverse

  /** `s.split(sep)`: the pieces between separators, with an empty piece at each end or between two
      adjacent separators. */
  function Split(s: string, sep: char): (r: seq<string>)
    ensures |r| >= 1
    ensures forall i :: 0 <= i < |r| ==> sep !in r[i]
  {
    if s == [] then [""]
    else
      var rest := Split(s[1..], sep);
      if s[0] == sep then [""] + rest else [[s[0]] + rest[0]] + rest[1..]
  }

  /** `sep.join(fields)`. */
  function Join(fields: seq<string>, sep: char): string {
    if fields == [] then ""
    else if |fields| == 1 then fields[0]
    else fields[0] + [sep] + Join(fields[1..], sep)
  }

  /** Splitting loses nothing: joining the pieces gives the string back. */
  lemma {:induction false} SplitJoin(s: string, sep: char)
    ensures Join(Split(s, sep), sep) == s
  {
    if s != [] {
      var rest := Split(s[1..], sep);
      SplitJoin(s[1..], sep);
      if s[0] == sep {
        assert Split(s, sep)[1..] == rest;
      } else {
        var r := Split(s, sep);
        assert r[1..] == rest[1..];
        if |rest| == 1 {
          assert Join(r, sep) == [s[0]] + rest[0];
        } else {
          assert Join(rest, sep) == rest[0] + [sep] + Join(rest[1..], sep);
        }
      }
    }
  }

  /** Pieces free of the separator come back from splitting their join. */
  lemma {:induction false} JoinSplit(fields: seq<string>, sep: char)
    requires |fields| >= 1 && forall i :: 0 <= i < |fields| ==> sep !in fields[i]
    ensures Split(Join(fields, sep), sep) == fields
  {
    if |fields| == 1 {
      SplitFree(fields[0], sep);
    } else {
      JoinSplit(fields[1..], sep);
      SplitAfterPiece(fields[0], Join(fields[1..], sep), sep);
    }
  }

  /** A string without the separator splits into itself. */
  lemma {:induction false} SplitFree(s: string, sep: char)
    requires sep !in s
    ensures Split(s, sep) == [s]
  {
    if s != [] {
      SplitFree(s[1..], sep);
      assert [s[0]] + s[1..] == s;
    }
  }

  /** Splitting `piece + [sep] + rest` puts `piece` in front of the pieces of `rest`. */
  lemma {:induction false} SplitAfterPiece(piece: string, rest: string, sep: char)
    requires sep !in piece
    ensures Split(piece + [sep] + rest, sep) == [piece] + Split(rest, sep)
  {
    if piece == [] {
      assert ([sep] + rest)[1..] == rest;
    } else {
      var s := piece + [sep] + rest;
      assert s[0] == piece[0] && s[1..] == piece[1..] + [sep] + rest;
      SplitAfterPiece(piece[1..], rest, sep);
      assert [piece[0]] + piece[1..] == piece;
    }
  }

  // ---------------------------------------------------------------------------------------------------
  // The dictionary key

  /** The exceptions the key expression raises: `component[3]` on a unit id with fewer than four fields, and
      adding None (an undetected edge) to a string. */
  datatype KeyFailure = IndexError | TypeError

  /** What is stored for a record: both unit ids, the label, the edge and the amino-acid centre. */
  datatype Entry = Entry(base: string, aa: string, interaction: Interaction, edge: Edge, aaCenter: Vec3)

  /** `str(uid).split("|")[3]`. */
  function Component3(uid: string): Result<string, KeyFailure> {
    var fields := Split(uid, '|');
    if |fields| < 4 then Err(IndexError) else Ok(fields[3])
  }

  /** The key and the stored tuple of a record, or the exception raised in computing the key (the base's
      field is read first). */
  function Tag(r: Record, unitId: Component -> string): Result<(string, Entry), KeyFailure> {
    var b, a := Component3(unitId(r.base)), Component3(unitId(r.aa));
    if b.Err? then Err(b.error)
    else if a.Err? then Err(a.error)
    else if r.edge.None? then Err(TypeError)
    else
      var key := b.value + "_" + a.value + "_" + r.interaction.Name() + "_" + r.edge.value.Name();
      Ok((key, Entry(unitId(r.base), unitId(r.aa), r.interaction, r.edge.value, r.aaCenter)))
  }

  /** No label or edge name contains an underscore. */
  lemma NamesWithoutUnderscore(i: Interaction, e: Edge)
    ensures '_' !in i.Name() && '_' !in e.Name()
  {
  }

  /** A key splits back into its four parts when the two component fields hold no underscore, so records
      share a key exactly when they agree on both components, the label and the edge. */
  lemma {:induction false} TagParts(r: Record, unitId: Component -> string)
    requires Tag(r, unitId).Ok?
    ensures var b, a := Component3(unitId(r.base)).value, Component3(unitId(r.aa)).value;
            '_' !in b && '_' !in a ==>
              Split(Tag(r, unitId).value.0, '_') == [b, a, r.interaction.Name(), r.edge.value.Name()]
  {
    var b, a := Component3(unitId(r.base)).value, Component3(unitId(r.aa)).value;
    if '_' !in b && '_' !in a {
      var parts := [b, a, r.interaction.Name(), r.edge.value.Name()];
      NamesWithoutUnderscore(r.interaction, r.edge.value);
      JoinFour(b, a, r.interaction.Name(), r.edge.value.Name());
      JoinSplit(parts, '_');
    }
  }

  /** The key expression is the join of its four parts with "_". */
  lemma JoinFour(w: string, x: string, y: string, z: string)
    ensures Join([w, x, y, z], '_') == w + "_" + x + "_" + y + "_" + z
  {
    assert Join([z], '_') == z;
    assert [y, z][1..] == [z];
    assert Join([y, z], '_') == y + "_" + z;
    assert [x, y, z][1..] == [y, z];
    assert Join([x, y, z], '_') == x + "_" + (y + "_" + z);
    assert [w, x, y, z][1..] == [x, y, z];
  }

  /** Two records with the same key (and underscore-free component fields) agree on both components, the
      label and the edge. */
  lemma SameKeySameParts(r: Record, s: Record, unitId: Component -> string)
    requires Tag(r, unitId).Ok? && Tag(s, unitId).Ok? && Tag(r, unitId).value.0 == Tag(s, unitId).value.0
    requires '_' !in Component3(unitId(r.base)).value && '_' !in Component3(unitId(r.aa)).value
    requires '_' !in Component3(unitId(s.base)).value && '_' !in Component3(unitId(s.aa)).value
    ensures Component3(unitId(r.base)) == Component3(unitId(s.base))
    ensures Component3(unitId(r.aa)) == Component3(unitId(s.aa))
    ensures r.interaction == s.interaction && r.edge == s.edge
  {
    TagParts(r, unitId);
    TagParts(s, unitId);
    NamesInjective(r.interaction, s.interaction, r.edge.value, s.edge.value);
  }

  // ---------------------------------------------------------------------------------------------------
  // The grouping

  /** The list under `key`, empty when the key is absent (a defaultdict's view). */
  function Get(m: map<string, seq<Entry>>, key: string): seq<Entry> {
    if key in m then m[key] else []
  }

  /** `m[key].append(e)` on a defaultdict. */
  function Put(m: map<string, seq<Entry>>, key: string, e: Entry): map<string, seq<Entry>> {
    m[key := Get(m, key) + [e]]
  }

  /** The dictionary after filing the records of `rs` that have a key, in order. */
  function Grouped(m: map<string, seq<Entry>>, rs: seq<Record>, unitId: Component -> string): map<string, seq<Entry>> {
    if rs == [] then m else Step(Grouped(m, rs[..|rs| - 1], unitId), rs[|rs| - 1], unitId)
  }

  /** Filing one record, if it has a key. */
  function Step(m: map<string, seq<Entry>>, r: Record, unitId: Component -> string): map<string, seq<Entry>> {
    match Tag(r, unitId)
    case Err(_) => m
    case Ok((key, e)) => Put(m, key, e)
  }

  /** The entries filed under `key` for the records of `rs`, in order: an independent per-key reading. */
  function EntriesUnder(rs: seq<Record>, key: string, unitId: Component -> string): seq<Entry> {
    if rs == [] then []
    else
      var last := rs[|rs| - 1];
      EntriesUnder(rs[..|rs| - 1], key, unitId)
        + (if Tag(last, unitId).Ok? && Tag(last, unitId).value.0 == key then [Tag(last, unitId).value.1] else [])
  }

  /** The entries under `key` are those of the records whose key it is. */
  lemma {:induction false} EntriesUnderMember(rs: seq<Record>, key: string, unitId: Component -> string, e: Entry)
    ensures e in EntriesUnder(rs, key, unitId) <==> exists r :: r in rs && Tag(r, unitId) == Ok((key, e))
  {
    if rs != [] {
      var init := rs[..|rs| - 1];
      assert rs == init + [rs[|rs| - 1]];
      EntriesUnderMember(init, key, unitId, e);
    }
  }

  /** Filing only appends: each key's list is its old list followed by the entries of the records with that
      key, in detection order; no other list changes. */
  lemma {:induction false} GroupedPerKey(m: map<string, seq<Entry>>, rs: seq<Record>, unitId: Component -> string, key: string)
    ensures Get(Grouped(m, rs, unitId), key) == Get(m, key) + EntriesUnder(rs, key, unitId)
    ensures key in Grouped(m, rs, unitId) <==> key in m || EntriesUnder(rs, key, unitId) != []
  {
    if rs != [] {
      var init, last := rs[..|rs| - 1], rs[|rs| - 1];
      var g := Grouped(m, init, unitId);
      assert Grouped(m, rs, unitId) == Step(g, last, unitId);
      GroupedPerKey(m, init, unitId, key);
      StepPerKey(g, last, unitId, key);
      var added := if Tag(last, unitId).Ok? && Tag(last, unitId).value.0 == key then [Tag(last, unitId).value.1] else [];
      assert EntriesUnder(rs, key, unitId) == EntriesUnder(init, key, unitId) + added;
      AppendAssociative(Get(m, key), EntriesUnder(init, key, unitId), added);
    }
  }

  /** Filing one record touches only the entry under its own key. */
  lemma StepPerKey(m: map<string, seq<Entry>>, r: Record, unitId: Component -> string, key: string)
    ensures var filed := Tag(r, unitId).Ok? && Tag(r, unitId).value.0 == key;
            Get(Step(m, r, unitId), key) == Get(m, key) + (if filed then [Tag(r, unitId).value.1] else [])
            && (key in Step(m, r, unitId) <==> key in m || filed)
  { }

  /** Filing the records of one structure after another is filing them all at once. */
  lemma {:induction false} GroupedConcat(m: map<string, seq<Entry>>, a: seq<Record>, b: seq<Record>, unitId: Component -> string)
    ensures Grouped(Grouped(m, a, unitId), b, unitId) == Grouped(m, a + b, unitId)
  {
    if b == [] {
      assert a + b == a;
    } else {
      var init := b[..|b| - 1];
      assert (a + b)[..|a + b| - 1] == a + init;
      assert (a + b)[|a + b| - 1] == b[|b| - 1];
      GroupedConcat(m, a, init, unitId);
      assert Grouped(Grouped(m, a, unitId), b, unitId) == Step(Grouped(Grouped(m, a, unitId), init, unitId), b[|b| - 1], unitId);
      assert Grouped(m, a + b, unitId) == Step(Grouped(m, a + init, unitId), b[|b| - 1], unitId);
    }
  }

  /** The number of entries in the dictionary. */
  ghost function Size(m: map<string, seq<Entry>>): nat
    decreases m.Keys
  {
    if m == map[] then 0 else var k :| k in m; |m[k]| + Size(m - {k})
  }

  /** The size can be counted from any key. */
  lemma {:induction false} SizeFrom(m: map<string, seq<Entry>>, k: string)
    requires k in m
    ensures Size(m) == |m[k]| + Size(m - {k})
    decreases m.Keys
  {
    var j :| j in m && Size(m) == |m[j]| + Size(m - {j});
    if j != k {
      SizeFrom(m - {j}, k);
      SizeFrom(m - {k}, j);
      assert m - {j} - {k} == m - {k} - {j};
    }
  }

  /** Appending one entry adds one to the size. */
  lemma PutSize(m: map<string, seq<Entry>>, key: string, e: Entry)
    ensures Size(Put(m, key, e)) == Size(m) + 1
  {
    var m' := Put(m, key, e);
    SizeFrom(m', key);
    if key in m {
      SizeFrom(m, key);
      assert m' - {key} == m - {key};
    } else {
      assert m' - {key} == m;
    }
  }

  /** Each record with a key adds exactly one entry. */
  lemma {:induction false} GroupedSize(m: map<string, seq<Entry>>, rs: seq<Record>, unitId: Component -> string)
    ensures Size(Grouped(m, rs, unitId)) == Size(m) + |Filter(rs, (r: Record) => Tag(r, unitId).Ok?)|
  {
    if rs != [] {
      var init := rs[..|rs| - 1];
      assert rs == init + [rs[|rs| - 1]];
      GroupedSize(m, init, unitId);
      FilterSnoc(init, rs[|rs| - 1], (r: Record) => Tag(r, unitId).Ok?);
      var g := Grouped(m, init, unitId);
      match Tag(rs[|rs| - 1], unitId)
      case Err(_) =>
      case Ok((key, e)) => PutSize(g, key, e);
    }
  }

  /** The number of records before the first whose key raises, that is, those the loop files. */
  function KeyedPrefix(rs: seq<Record>, unitId: Component -> string): (n: nat)
    ensures n <= |rs|
    ensures forall i :: 0 <= i < n ==> Tag(rs[i], unitId).Ok?
    ensures n < |rs| ==> Tag(rs[n], unitId).Err?
  {
    if rs == [] || Tag(rs[0], unitId).Err? then 0
    else
      var n := KeyedPrefix(rs[1..], unitId);
      assert forall i :: 1 <= i < n + 1 ==> rs[i] == rs[1..][i - 1];
      n + 1
  }

  /** When every record has a key, the loop files them all and the size grows by their number. */
  lemma AllFiled(m: map<string, seq<Entry>>, rs: seq<Record>, unitId: Component -> string)
    requires KeyedPrefix(rs, unitId) == |rs|
    ensures Size(Grouped(m, rs[..KeyedPrefix(rs, unitId)], unitId)) == Size(m) + |rs|
  {
    assert rs[..|rs|] == rs;
    FilterAll(rs, (r: Record) => Tag(r, unitId).Ok?);
    GroupedSize(m, rs, unitId);
  }

  /** `allInteractionDictionary`: a defaultdict of lists, filled in place. */
  class InteractionDictionary {
    var groups: map<string, seq<Entry>>

    constructor ()
      ensures groups == map[]
    {
      groups := map[];
    }

    /** The loop over `list_base_aa`: each record is appended under its key; the first record whose key
        raises stops the loop with that exception, after the records before it have been filed. */
    method Accumulate(records: seq<Record>, unitId: Component -> string) returns (failure: Option<KeyFailure>)
      modifies this
      ensures var n := KeyedPrefix(records, unitId);
              && groups == Grouped(old(groups), records[..n], unitId)
              && (failure.None? <==> n == |records|)
              && (failure.Some? ==> Tag(records[n], unitId) == Err(failure.value))
    {
      var n := 0;
      while n < |records|
        invariant n <= KeyedPrefix(records, unitId)
        invariant groups == Grouped(old(groups), records[..n], unitId)
      {
        assert records[..n + 1][..n] == records[..n];
        match Tag(records[n], unitId)
        case Err(f) =>
          return Some(f);
        case Ok((key, e)) =>
          groups := Put(groups, key, e);
          n := n + 1;
      }
      return None;
    }
  }

  // ---------------------------------------------------------------------------------------------------
  // One structure of the main loop

  /** The amino-acid group the main block screens by, and its cube side. */
  const AaPart: string := "aa_fg"
  const CubeSide: real := 10.0

  /** One pass of the main loop over structures: `find_neighbors`, `annotate_interactions` (visiting the base
      cubes in `keyOrder`, the dictionary's iteration order) and the filing of the records. */
  method AnnotateStructure(dict: InteractionDictionary, bases: seq<Component>, aminoAcids: seq<Component>,
                           t: Tables, env: Env, unitId: Component -> string, keyOrder: seq<CubeKey>)
    returns (records: seq<Record>, failure: Option<KeyFailure>)
    requires forall b :: b in bases && "base" in b.centers ==> BaseReady(b, t)
    requires forall a :: a in aminoAcids && AaPart in a.centers ==> AaReady(a, t)
    requires IsKeyOrder(keyOrder, Buckets(bases, "base", CubeSide))
    modifies dict
    ensures var ctx := Context(AaPart, CubeSide, Buckets(bases, "base", CubeSide),
                               map key | key in Buckets(bases, "base", CubeSide) :: Neighbors27(key),
                               Buckets(aminoAcids, AaPart, CubeSide), t, env);
            records == Annotate(ctx, keyOrder) && GridOf(ctx, bases, aminoAcids)
    ensures dict.groups == Grouped(old(dict.groups), records[..KeyedPrefix(records, unitId)], unitId)
    ensures failure.None? <==> KeyedPrefix(records, unitId) == |records|
    ensures failure.Some? ==> Tag(records[KeyedPrefix(records, unitId)], unitId) == Err(failure.value)
  {
    var baseCubes, baseNeighbors, aaCubes := FindNeighbors(bases, aminoAcids, AaPart, CubeSide);
    var ctx := Context(AaPart, CubeSide, baseCubes, baseNeighbors, aaCubes, t, env);
    assert baseNeighbors == map key | key in baseCubes :: Neighbors27(key);
    ReadyFromInput(ctx, bases, aminoAcids);
    records := AnnotateInteractions(ctx, keyOrder);
    failure := dict.Accumulate(records, unitId);
  }

  /** Tables covering every input residue with a centre cover every residue of the grid: residues without
      one never enter a cube. */
  lemma ReadyFromInput(ctx: Context, bases: seq<Component>, aas: seq<Component>)
    requires GridOf(ctx, bases, aas)
    requires forall b :: b in bases && "base" in b.centers ==> BaseReady(b, ctx.t)
    requires forall a :: a in aas && ctx.part in a.centers ==> AaReady(a, ctx.t)
    ensures Ready(ctx)
  {
    forall key, b | key in ctx.baseCubes && b in ctx.baseCubes[key]
      ensures BaseReady(b, ctx.t)
    {
      BucketsSelectByCube(bases, "base", ctx.d, key);
      FilterMember(bases, InCube("base", ctx.d, key), b);
    }
    forall key, a | key in ctx.aaCubes && a in ctx.aaCubes[key]
      ensures AaReady(a, ctx.t)
    {
      BucketsSelectByCube(aas, ctx.part, ctx.d, key);
      FilterMember(aas, InCube(ctx.part, ctx.d, key), a);
    }
  }
}
