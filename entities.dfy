/** The entity layer of fr3d/data.py: atoms and components as immutable records carrying their keyword data,
    the generic filter-and-sort access every container offers, and the per-component helpers (renaming for
    unit ids, completeness, centres). */
module Entities {
  import opened Wrappers
  import opened Geometry
  import opened Seqs
  import opened PyValues

  /** The keyword data an entity is built from (its `_data` dictionary). */
  type Attrs = map<string, Value>

  /** The exceptions the entity layer raises. */
  datatype Failure = ValueError | AttributeError(name: string) | KeyError(key: string)

  /** An atom. `name`, `x`, `y` and `z` are kept typed; `other` holds the rest of its keyword data. */
  datatype Atom = Atom(name: string, coord: Vec3, other: Attrs) {
    /** The atom's `_data` dictionary. */
    function Data(): Attrs {
      other["name" := Str(name)]["x" := Num(coord.x)]["y" := Num(coord.y)]["z" := Num(coord.z)]
    }
  }

  /** `getattr(atom, key, None)` for the keyword attributes. */
  function AtomAttr(a: Atom, key: string): Option<Value> {
    if key in a.Data() then Some(a.Data()[key]) else None
  }

  /** A component (a base or an amino acid): its keyword data, its atoms in file order and the centres of
      its named atom groups. A group whose centre is missing is absent from `centers`. */
  datatype Component = Component(data: Attrs, atoms: seq<Atom>, centers: map<string, Vec3>) {
    /** The `sequence` attribute, or "" when it is not a string. */
    function Sequence(): string {
      if "sequence" in data && data["sequence"].Str? then data["sequence"].s else ""
    }
  }

  /** `getattr(component, key, None)` for the keyword attributes. */
  function ComponentAttr(c: Component, key: string): Option<Value> {
    if key in c.data then Some(c.data[key]) else None
  }

  // ---------------------------------------------------------------------------------------------------
  // EntityContainer: __make_check__, __checker__ and __getter__

  /** The value given for one filtering keyword: a callable, a list, or any other value. */
  datatype Check = Callable(test: Option<Value> -> bool) | OneOf(values: seq<Option<Value>>) | EqualTo(value: Option<Value>)

  /** The check built by `__make_check__`, applied to the attribute value it reads (None when missing). */
  predicate Passes(check: Check, given: Option<Value>) {
    match check
    case Callable(test) => test(given)
    case OneOf(values) => given in values
    case EqualTo(value) => value == given
  }

  /** The `order_by` keyword: an attribute name or a key function. */
  datatype OrderBy<!E> = ByAttribute(name: string) | ByKey(key: E -> Option<Value>)

  /** The keyword arguments of `__getter__`: the filtering keywords and `order_by`. */
  datatype Query<!E> = Query(checks: seq<(string, Check)>, orderBy: Option<OrderBy<E>>) {
    predicate IsEmpty() {
      checks == [] && orderBy.None?
    }

    /** `if orderby:` -- an empty attribute name is falsy. */
    predicate Sorts() {
      orderBy.Some? && !(orderBy.value.ByAttribute? && orderBy.value.name == "")
    }
  }

  /** Every check of the query accepts the entity. */
  predicate Satisfies<E>(e: E, get: (E, string) -> Option<Value>, checks: seq<(string, Check)>) {
    forall i :: 0 <= i < |checks| ==> Passes(checks[i].1, get(e, checks[i].0))
  }

  /** The sort key `order_by` stands for. */
  function SortKey<E>(o: OrderBy<E>, get: (E, string) -> Option<Value>): E -> Option<Value> {
    match o
    case ByAttribute(name) => e => get(e, name)
    case ByKey(key) => key
  }

  /** The entries whose sort key is `v`, in order. */
  function WithKey<E(==)>(xs: seq<E>, key: E -> Option<Value>, v: Option<Value>): seq<E> {
    Filter(xs, KeyIs(key, v))
  }

  /** The checker function `__checker__` returns, applied to one entity: the checks are tried in turn and the
      first that fails rejects it. */
  method PassesChecks<E>(e: E, get: (E, string) -> Option<Value>, checks: seq<(string, Check)>) returns (ok: bool)
    ensures ok <==> Satisfies(e, get, checks)
    ensures !ok ==> exists i :: 0 <= i < |checks| && !Passes(checks[i].1, get(e, checks[i].0))
  {
    var i := 0;
    while i < |checks|
      invariant 0 <= i <= |checks|
      invariant forall j :: 0 <= j < i ==> Passes(checks[j].1, get(e, checks[j].0))
    {
      if !Passes(checks[i].1, get(e, checks[i].0)) {
        return false;
      }
      i := i + 1;
    }
    return true;
  }

  /** `__getter__`: with no keywords the input comes back unchanged; otherwise the entries passing every
      check, in input order, then stably sorted when `order_by` is given and truthy. */
  method Select<E(==)>(obj: seq<E>, get: (E, string) -> Option<Value>, q: Query<E>) returns (r: seq<E>)
    ensures q.IsEmpty() ==> r == obj
    ensures !q.IsEmpty() && !q.Sorts() ==> r == Filter(obj, e => Satisfies(e, get, q.checks))
    ensures q.Sorts() ==>
      && SortedBy(r, SortKey(q.orderBy.value, get))
      && multiset(r) == multiset(Filter(obj, e => Satisfies(e, get, q.checks)))
      && forall v :: WithKey(r, SortKey(q.orderBy.value, get), v)
                  == WithKey(Filter(obj, e => Satisfies(e, get, q.checks)), SortKey(q.orderBy.value, get), v)
  {
    if q.IsEmpty() {
      return obj;
    }
    ghost var p := (e: E) => Satisfies(e, get, q.checks);
    var raw: seq<E> := [];
    var i := 0;
    while i < |obj|
      invariant 0 <= i <= |obj|
      invariant raw == Filter(obj[..i], p)
    {
      var ok := PassesChecks(obj[i], get, q.checks);
      FilterSnoc(obj[..i], obj[i], p);
      assert obj[..i + 1] == obj[..i] + [obj[i]];
      if ok {
        raw := raw + [obj[i]];
      }
      i := i + 1;
    }
    assert obj[..i] == obj;
    r := raw;
    if q.Sorts() {
      var key := SortKey(q.orderBy.value, get);
      r := SortBy(raw, key);
      SortBySortsAndPermutes(raw, key);
      forall v
        ensures WithKey(r, key, v) == WithKey(raw, key, v)
      {
        SortByStable(raw, key, v);
      }
    }
  }

  // ---------------------------------------------------------------------------------------------------
  // Atoms of a component by name

  /** `component.atoms(name=names)`: the atoms whose name is listed, in file order. */
  function AtomsNamed(atoms: seq<Atom>, names: seq<string>): seq<Atom> {
    Filter(atoms, (a: Atom) => a.name in names)
  }

  /** The keyword `name=names` as a query check: a list of strings. */
  function NameChecks(names: seq<string>): seq<(string, Check)> {
    [("name", OneOf(seq(|names|, i requires 0 <= i < |names| => Some(Str(names[i])))))]
  }

  /** Selecting with `name=names` keeps exactly the atoms AtomsNamed keeps. */
  lemma NameQuerySelectsAtomsNamed(atoms: seq<Atom>, names: seq<string>)
    ensures Filter(atoms, e => Satisfies(e, AtomAttr, NameChecks(names))) == AtomsNamed(atoms, names)
  {
    var checks := NameChecks(names);
    forall a | a in atoms
      ensures Satisfies(a, AtomAttr, checks) == (a.name in names)
    {
      var values := checks[0].1.values;
      assert AtomAttr(a, "name") == Some(Str(a.name));
      assert Satisfies(a, AtomAttr, checks) == (Some(Str(a.name)) in values);
      if a.name in names {
        var i :| 0 <= i < |names| && names[i] == a.name;
        assert values[i] == Some(Str(a.name));
      }
      if Some(Str(a.name)) in values {
        var i :| 0 <= i < |values| && values[i] == Some(Str(a.name));
        assert names[i] == a.name;
      }
    }
    FilterAgree(atoms, e => Satisfies(e, AtomAttr, checks), (a: Atom) => a.name in names);
  }

  // ---------------------------------------------------------------------------------------------------
  // Entity.__init__ and Component.__init__

  /** Attributes every entity has before its keywords are set. */
  const EntityMembers: set<string> := {"_data", "__init__", "unit_id"}

  /** Attributes an atom has before its keywords are set. */
  const AtomMembers: set<string> := EntityMembers + {"component_unit_id", "__rename__", "coordinates", "__repr__"}

  /** Attributes a component has before its keywords are set (`_atoms` is assigned first). */
  const ComponentMembers: set<string> :=
    EntityMembers + {"__getter__", "__make_check__", "__checker__", "_atoms", "atoms", "coordinates",
                     "__rename__", "is_complete", "__compute_center__", "__len__", "__repr__", "infer_hydrogens"}

  /** `Entity.__init__`: set every keyword as an attribute, raising ValueError for one the object already
      has (`preset`: its class members, the fields set before the loop and the members every Python object
      has). The keywords come in the dictionary's order, which is not specified. */
  method InitEntity(preset: set<string>, kwargs: map<string, Value>) returns (r: Result<Attrs, Failure>)
    ensures r.Err? <==> exists k :: k in kwargs && k in preset
    ensures r.Err? ==> r.error == ValueError
    ensures r.Ok? ==> r.value == kwargs
  {
    var attrs: Attrs := map[];
    var todo := kwargs.Keys;
    while todo != {}
      invariant todo <= kwargs.Keys
      invariant forall k :: k in kwargs && k !in todo ==> k !in preset
      invariant attrs == map k | k in kwargs && k !in todo :: kwargs[k]
      decreases todo
    {
      var k :| k in todo;
      if k in preset {
        return Err(ValueError);
      }
      attrs := attrs[k := kwargs[k]];
      todo := todo - {k};
    }
    return Ok(attrs);
  }

  /** The RNA bases whose base centre the constructor computes. */
  const RnaBases: seq<string> := ["A", "C", "G", "U"]

  /** The `centers` a new component starts with: the base centre for A, C, G and U when one of its heavy
      atoms is present. A base with none of them gets a `None` centre in the source; here it has no entry. */
  function InitialCenters(atoms: seq<Atom>, sequence: Value, heavy: map<string, seq<string>>): (m: map<string, Vec3>)
    requires forall s :: s in RnaBases ==> s in heavy
    ensures m.Keys <= {"base"}
    ensures "base" in m <==> sequence.Str? && sequence.s in RnaBases && ComputeCenter(atoms, heavy[sequence.s]).Some?
    ensures "base" in m ==> m["base"] == ComputeCenter(atoms, heavy[sequence.s]).value
  {
    if sequence.Str? && sequence.s in RnaBases then
      match ComputeCenter(atoms, heavy[sequence.s])
      case Some(v) => map["base" := v]
      case None => map[]
    else map[]
  }

  /** `Component.__init__`: the entity keywords, then the `sequence` attribute is read and the centres are
      filled in. */
  method NewComponent(atoms: seq<Atom>, kwargs: map<string, Value>, objectMembers: set<string>, heavy: map<string, seq<string>>)
    returns (r: Result<Component, Failure>)
    requires forall s :: s in RnaBases ==> s in heavy
    ensures r.Ok? <==> (forall k :: k in kwargs ==> k !in ComponentMembers + objectMembers) && "sequence" in kwargs
    ensures r.Err? ==> r.error == (if exists k :: k in kwargs && k in ComponentMembers + objectMembers
                                   then ValueError else AttributeError("sequence"))
    ensures r.Ok? ==> r.value == Component(kwargs, atoms, InitialCenters(atoms, kwargs["sequence"], heavy))
  {
    var attrs := InitEntity(ComponentMembers + objectMembers, kwargs);
    if attrs.Err? {
      return Err(attrs.error);
    }
    if "sequence" !in attrs.value {
      return Err(AttributeError("sequence"));
    }
    var centers: map<string, Vec3> := map[];
    var sequence := attrs.value["sequence"];
    if sequence.Str? && sequence.s in RnaBases {
      var center := ComputeCenter(atoms, heavy[sequence.s]);
      if center.Some? {
        centers := centers["base" := center.value];
      }
    }
    return Ok(Component(attrs.value, atoms, centers));
  }

  // ---------------------------------------------------------------------------------------------------
  // Component helpers

  /** The coordinate-wise mean of a non-empty list of atoms. */
  function Centroid(atoms: seq<Atom>): Vec3
    requires |atoms| > 0
  {
    Vec3(Mean(Map(atoms, (a: Atom) => a.coord.x)),
         Mean(Map(atoms, (a: Atom) => a.coord.y)),
         Mean(Map(atoms, (a: Atom) => a.coord.z)))
  }

  /** `__compute_center__`: the mean position of the listed atoms that are present; None when none is. */
  function ComputeCenter(atoms: seq<Atom>, names: seq<string>): (r: Option<Vec3>)
    ensures r.None? <==> forall a :: a in atoms ==> a.name !in names
    ensures r.Some? ==> AtomsNamed(atoms, names) != [] && r.value == Centroid(AtomsNamed(atoms, names))
  {
    var found := AtomsNamed(atoms, names);
    if found == [] then
      assert forall a :: a in atoms ==> a.name !in names by {
        forall a | a in atoms ensures a.name !in names {
          FilterMember(atoms, (a: Atom) => a.name in names, a);
        }
      }
      None
    else
      Some(Centroid(found))
  }

  /** Names of atoms that are not there do not move the centre. */
  lemma CenterIgnoresMissing(atoms: seq<Atom>, names: seq<string>, missing: seq<string>)
    requires forall a :: a in atoms ==> a.name !in missing
    ensures ComputeCenter(atoms, names + missing) == ComputeCenter(atoms, names)
  {
    FilterAgree(atoms, (a: Atom) => a.name in names + missing, (a: Atom) => a.name in names);
  }

  /** `is_complete(names)`: as many atoms are found by name as names are listed. */
  predicate IsComplete(c: Component, names: seq<string>) {
    |AtomsNamed(c.atoms, names)| == |names|
  }

  /** `__len__`: the number of atoms. */
  function Len(c: Component): (n: nat)
    ensures n == |c.atoms|
  {
    |c.atoms|
  }

  /** A complete component has at least as many atoms as names were asked for. */
  lemma CompleteNeedsAtoms(c: Component, names: seq<string>)
    requires IsComplete(c, names)
    ensures |names| <= Len(c)
  {
  }

  /** Atom names are unique within a component. */
  predicate UniqueNames(c: Component) {
    Distinct(Map(c.atoms, (a: Atom) => a.name))
  }

  /** The names the component's atoms carry. */
  function AtomNames(c: Component): set<string> {
    set a | a in c.atoms :: a.name
  }

  /** The names found by `atoms(name=names)` are the listed names the component has. */
  lemma FoundNames(c: Component, names: seq<string>)
    ensures Elements(Map(AtomsNamed(c.atoms, names), (a: Atom) => a.name)) == Elements(names) * AtomNames(c)
  {
    var found := AtomsNamed(c.atoms, names);
    var fn := Map(found, (a: Atom) => a.name);
    forall n
      ensures n in Elements(fn) <==> n in Elements(names) && n in AtomNames(c)
    {
      if n in Elements(fn) {
        var i :| 0 <= i < |fn| && fn[i] == n;
        FilterMember(c.atoms, (a: Atom) => a.name in names, found[i]);
      }
      if n in Elements(names) && n in AtomNames(c) {
        var a :| a in c.atoms && a.name == n;
        FilterMember(c.atoms, (a: Atom) => a.name in names, a);
        var i :| 0 <= i < |found| && found[i] == a;
        assert fn[i] == n;
      }
    }
  }

  /** With unique atom names and no name asked for twice -- the situation `is_complete` assumes -- it holds
      exactly when every listed name has an atom. */
  lemma CompleteIffAllPresent(c: Component, names: seq<string>)
    requires UniqueNames(c) && Distinct(names)
    ensures IsComplete(c, names) <==> Elements(names) <= AtomNames(c)
  {
    var fn := Map(AtomsNamed(c.atoms, names), (a: Atom) => a.name);
    FilterMapDistinct(c.atoms, (a: Atom) => a.name in names, (a: Atom) => a.name);
    DistinctCard(fn);
    DistinctCard(names);
    FoundNames(c, names);
    assert |fn| == |AtomsNamed(c.atoms, names)|;
    if IsComplete(c, names) {
      SubsetSameCard(Elements(fn), Elements(names));
    }
    if Elements(names) <= AtomNames(c) {
      assert Elements(fn) == Elements(names);
    }
  }

  /** With a name repeated among the atoms the count can reach the list's length although a listed name is
      missing: two atoms named N1 make ["N1", "C2"] look complete. */
  lemma DuplicateNamesFoolIsComplete()
    ensures var c := Component(map[], [Atom("N1", Origin, map[]), Atom("N1", Origin, map[])], map[]);
            IsComplete(c, ["N1", "C2"]) && forall a :: a in c.atoms ==> a.name != "C2"
  {
    var c := Component(map[], [Atom("N1", Origin, map[]), Atom("N1", Origin, map[])], map[]);
    FilterAll(c.atoms, (a: Atom) => a.name in ["N1", "C2"]);
  }

  // ---------------------------------------------------------------------------------------------------
  // Renaming for unit ids

  /** `Atom.__rename__`: the atom's data with `name` moved to `atom_name`. */
  function RenameAtom(a: Atom): (d: Attrs)
    ensures d.Keys == a.Data().Keys - {"name"} + {"atom_name"}
    ensures d["atom_name"] == Str(a.name)
    ensures forall k :: k in a.Data() && k != "name" && k != "atom_name" ==> d[k] == a.Data()[k]
  {
    (a.Data() - {"name"})["atom_name" := a.Data()["name"]]
  }

  /** The data `component_unit_id` encodes: the atom's data without its atom-level fields. */
  function ComponentUnitIdData(a: Atom): (d: Attrs)
    ensures d.Keys == a.Data().Keys - {"name", "atom_name", "alt_id"}
    ensures forall k :: k in d ==> d[k] == a.Data()[k]
  {
    RenameAtom(a) - {"atom_name", "alt_id"}
  }

  /** `Component.__rename__`: `sequence` becomes `component_id` and `number` becomes `component_number`;
      a missing one raises KeyError. */
  function RenameComponent(c: Component): (r: Result<Attrs, Failure>)
    ensures r.Err? <==> "sequence" !in c.data || "number" !in c.data
    ensures r.Err? ==> r.error == KeyError(if "sequence" !in c.data then "sequence" else "number")
    ensures r.Ok? ==>
      && r.value.Keys == c.data.Keys - {"sequence", "number"} + {"component_id", "component_number"}
      && r.value["component_id"] == c.data["sequence"]
      && r.value["component_number"] == c.data["number"]
      && forall k :: k in c.data && k !in {"sequence", "number", "component_id", "component_number"} ==> r.value[k] == c.data[k]
  {
    if "sequence" !in c.data then Err(KeyError("sequence"))
    else
      var d := (c.data - {"sequence"})["component_id" := c.data["sequence"]];
      if "number" !in d then Err(KeyError("number"))
      else Ok((d - {"number"})["component_number" := d["number"]])
  }
}
