# RNA–protein contact annotation (fr3d-python), modelled in Dafny

This project models the RNA base / amino-acid contact annotator of fr3d-python
(`fr3d/RNA-protein-annotation.py`) and the entity layer it relies on (`fr3d/data.py`).

The annotator works in four steps:

1. Every base and every amino acid is hashed into a cube of side D (10 Å) by the floor of each centre
   coordinate divided by D. Each occupied base cube gets the keys of the 27 cubes around it
   (`find_neighbors`).
2. Each candidate pair is screened. The centres must be within D in x, in y and in distance. At least
   `c` base/functional-group atom pairs must lie within 4 Å, with `c` = 1 for LYS, SER, THR and TYR and
   2 otherwise (`atom_dist_basepart`). A pseudopair also needs two donor/acceptor-compatible close pairs
   (`enough_HBs`).
3. The amino acid is brought into the base's standard frame and classified (`type_of_interaction` with
   `stacking_angle`, `stacking_tilt`, `vector_calculation` and `angle_between_planes`). The possible
   labels are stacked, cation-pi, perpendicular stacking, pseudopair, perpendicular edge and SHB. Each
   record also gets the base edge (`detect_edge`) or the base face (`detect_face`).
4. The main block files every record in a dictionary. The key is "base component_amino-acid
   component_label_edge", and each component is the fourth "|"-separated field of a unit id.

The entity layer is modelled as well:

- `EntityContainer.__getter__` filters by keyword checks and then stably sorts.
- `Entity.__init__` rejects keywords that would override an attribute.
- `Component.__init__` computes the base centre.
- `is_complete`, `__compute_center__`, `__len__` and the unit-id renamings are modelled.

Modules, one per file:

| file | module | models |
|---|---|---|
| wrappers.dfy | `Wrappers` | `Option`, `Result` |
| geometry.dfy | `Geometry` | points, dot and cross product, sum/mean/min/max folds, the transcendental functions as parameters |
| seqs.dfy | `Seqs` | filtering and concatenation of per-element results |
| pyvalues.dfy | `PyValues` | attribute values, Python 2's ordering of sort keys, a stable insertion sort |
| entities.dfy | `Entities` | `fr3d/data.py` |
| grid.dfy | `Grid` | `find_neighbors` |
| screening.dfy | `Screening` | `atom_dist_basepart`, `enough_HBs` |
| classifier.dfy | `Classifier` | `type_of_interaction` and the edge and face labels |
| annotation.dfy | `Annotation` | `annotate_interactions` |
| annotation_properties.dfy | `AnnotationProperties` | soundness, completeness and uniqueness of the annotation |
| aggregation.dfy | `Aggregation` | the grouping loop of the main block |

Things the model takes as parameters:

- The lookup tables of `fr3d.definitions` (`aa_fg`, `RNAbaseheavyatoms`, `planar_atoms`, `HB_donors`,
  `HB_acceptors`, `tilt_cutoff`) are `Screening.Tables`.
- `np.arctan2` and the square root inside `np.linalg.norm` are `Geometry.Numerics`.
- `translate_rotate_component` is `Annotation.Env.toFrame`.
- The unit-id encoder is a function from components to strings.
- The iteration order of the cube dictionary (Python 2 dictionaries have no defined order) is a
  `keyOrder` argument.

Distances are compared squared:

- `norm <= 4` is written `SqDist <= 16`.
- `norm < D` is written `SqDist < D * D` with `D > 0`.

Cube keys are integer triples rather than "%d,%d,%d" strings, which are in one-to-one correspondence
with them.

## Model

| member | source | states |
|---|---|---|
| Entities.PassesChecks | fr3d/data.py:105-119 | the checker accepts an entity exactly when every keyword check passes; a rejected entity fails some check |
| Entities.Select | fr3d/data.py:46-79 | with no keywords the input comes back unchanged; otherwise the result is exactly the entries passing every check, in input order; with a truthy `order_by` it is sorted by that key, a permutation of those entries, and stable (entries with equal keys keep their order) |
| Entities.NameQuerySelectsAtomsNamed | fr3d/data.py:81-101 | a list-valued `name=` keyword selects exactly the atoms whose name is in the list |
| Entities.InitEntity | fr3d/data.py:23-28 | ValueError exactly when some keyword names an attribute the object already has; otherwise the entity's data is the keyword dictionary |
| Entities.InitialCenters | fr3d/data.py:179-184 | only the base centre is set; it is present exactly for A, C, G and U with at least one heavy base atom present (a `None` centre is an absent key), and then it is the `ComputeCenter` mean of the heavy base atoms |
| Entities.NewComponent | fr3d/data.py:170-184 | a component is built exactly when no keyword overrides a member and a sequence is given; it keeps its keywords and atoms and gets the initial centres; otherwise ValueError or AttributeError |
| Entities.ComputeCenter | fr3d/data.py:226-237 | None exactly when no listed atom is present; otherwise the mean position of the atoms found |
| Entities.CenterIgnoresMissing | fr3d/data.py:226-237 | naming atoms that are absent does not change the centre |
| Entities.Len | fr3d/data.py:239-245 | the length is the number of atoms |
| Entities.IsComplete | fr3d/data.py:211-224 | the atoms found by name number as many as the names; `CompleteNeedsAtoms`, `FoundNames` and `CompleteIffAllPresent` give its meaning |
| Entities.CompleteNeedsAtoms | fr3d/data.py:211-224 | a complete component has at least as many atoms as names were asked for |
| Entities.FoundNames | fr3d/data.py:211-224 | the names of the atoms found are the listed names present in the component |
| Entities.CompleteIffAllPresent | fr3d/data.py:211-224 | with unique atom names and a list without repeats, `is_complete` holds exactly when every listed name is present |
| Entities.DuplicateNamesFoolIsComplete | fr3d/data.py:211-224 | with a repeated atom name, a component lacking a listed atom can still pass `is_complete` |
| Entities.RenameAtom | fr3d/data.py:149-152 | `name` becomes `atom_name` with the same value; every other field is unchanged |
| Entities.ComponentUnitIdData | fr3d/data.py:135-147 | the renamed atom data without `atom_name` and `alt_id`; every other field is unchanged |
| Entities.RenameComponent | fr3d/data.py:205-209 | `sequence` becomes `component_id` and `number` becomes `component_number`, other fields unchanged; KeyError naming the first missing one |
| PyValues.SortBySortsAndPermutes | fr3d/data.py:70-74 | the sort yields a list ordered by the key that is a permutation of its input |
| PyValues.SortByStable | fr3d/data.py:70-74 | entries with equal keys keep their relative order |
| Grid.Neighbors27 | fr3d/RNA-protein-annotation.py:123-128 | 27 keys; `NeighborsAreAdjacent` and `NeighborsDistinct` give which ones |
| Grid.NeighborsAreAdjacent | fr3d/RNA-protein-annotation.py:125-131 | a key is among the 27 neighbour keys exactly when each coordinate differs by at most one |
| Grid.NeighborsDistinct | fr3d/RNA-protein-annotation.py:125-131 | the 27 neighbour keys are distinct and include the cube itself |
| Grid.NeighborKeys | fr3d/RNA-protein-annotation.py:125-131 | the three nested loops produce the 27 offset keys in loop order |
| Grid.Buckets | fr3d/RNA-protein-annotation.py:109-144 | every listed cube holds at least one residue, and only residues of the input; `BucketsSelectByCube` gives each list exactly |
| Grid.BucketsSelectByCube | fr3d/RNA-protein-annotation.py:109-144 | a cube is occupied exactly when some residue's centre lies in it, and its list is those residues in input order |
| Grid.EachInOneCube | fr3d/RNA-protein-annotation.py:109-144 | a residue with a centre sits in the cube of its centre and in no other; a residue without one is in none |
| Grid.BucketsOfNothing | fr3d/RNA-protein-annotation.py:103-146 | no residues give an empty dictionary |
| Grid.FindNeighbors | fr3d/RNA-protein-annotation.py:103-146 | the base and amino-acid dictionaries are the cube buckets of their inputs; the neighbour dictionary has the same keys as the base dictionary and maps each to its 27 neighbour keys |
| Grid.CloseCentersShareNeighborhood | fr3d/RNA-protein-annotation.py:113-131 | two centres closer than D lie in adjacent cubes, so the amino acid's cube is among the base cube's neighbours |
| Screening.CountLoop | fr3d/RNA-protein-annotation.py:61-68 | the double loop counts exactly the accepted atom pairs |
| Screening.CountPositive | fr3d/RNA-protein-annotation.py:57-74 | the count is positive exactly when some pair is accepted |
| Screening.CountAtMostPairs | fr3d/RNA-protein-annotation.py:57-74 | each pair adds at most one to the count |
| Screening.CountMonotone | fr3d/RNA-protein-annotation.py:90-98 | a stricter pair test never counts more |
| Screening.Proximity | fr3d/RNA-protein-annotation.py:57-74 | the value `atom_dist_basepart` returns: True, and then `c` is at most the number of (base atom, functional-group atom) pairs |
| Screening.AtomDistBasepart | fr3d/RNA-protein-annotation.py:57-74 | True exactly when at least `c` (base atom, functional-group atom) pairs are within 4 Å; None otherwise |
| Screening.ProximityMonotone | fr3d/RNA-protein-annotation.py:70-74 | passing with threshold `c` implies passing with any smaller threshold |
| Screening.ProximityWitness | fr3d/RNA-protein-annotation.py:57-74 | passing with a positive threshold exhibits a close atom pair |
| Screening.EnoughHBonds | fr3d/RNA-protein-annotation.py:76-101 | True exactly when at least two close pairs (base atoms with O2', functional group) are donor/acceptor compatible; None otherwise |
| Screening.HBondsAreClosePairs | fr3d/RNA-protein-annotation.py:90-98 | every counted hydrogen bond is a close pair |
| Screening.HBonds | fr3d/RNA-protein-annotation.py:76-101 | the number `enough_HBs` counts never exceeds the number of close pairs of the base atoms with O2' and the functional group |
| Classifier.NamesInjective | fr3d/RNA-protein-annotation.py:224-239 | distinct labels and distinct edges have distinct texts |
| Classifier.PlaneNormal | fr3d/RNA-protein-annotation.py:336-344 | the normal is perpendicular to both in-plane vectors of the three planar centres |
| Classifier.AngleBetweenPlanes | fr3d/RNA-protein-annotation.py:346-350 | arctan2 of the cross product's norm and the dot product; `AngleSymmetric` shows the order of the planes does not matter |
| Classifier.PlaneAngle | fr3d/RNA-protein-annotation.py:298-303 | the angle between the base's and the amino acid's plane normals, as `calculate_angle` computes it |
| Classifier.AngleSymmetric | fr3d/RNA-protein-annotation.py:346-350 | the angle between planes does not depend on their order |
| Classifier.StackingLabel | fr3d/RNA-protein-annotation.py:305-320 | only stacking-family labels, and any label but stacked needs the angle in [1.2, 1.64] |
| Classifier.PseudopairLabel | fr3d/RNA-protein-annotation.py:287-290 | only pseudopair or perpendicular edge, and never for an angle above 3.14 |
| Classifier.StackingLabelRanges | fr3d/RNA-protein-annotation.py:305-320 | stacked exactly for abs(angle) <= 0.68 or in [2.45, 3.15]; perpendicular stacking exactly for PHE/TYR in [1.2, 1.64]; cation-pi exactly for HIS/ARG/LYS/ASN/GLN in [1.2, 1.64] |
| Classifier.PseudopairLabelRanges | fr3d/RNA-protein-annotation.py:283-290 | pseudopair exactly on [0, 0.75] and [2.5, 3.14]; perpendicular edge exactly on [0.95, 1.64]; no label in the gaps |
| Classifier.StackingTilt | fr3d/RNA-protein-annotation.py:322-334 | the only label is stacked, and only with a tilt cutoff of at least zero |
| Classifier.TiltIffSpread | fr3d/RNA-protein-annotation.py:322-334 | stacked exactly when every two functional-group atoms differ in z by at most the residue's tilt cutoff |
| Classifier.TypeOfInteraction | fr3d/RNA-protein-annotation.py:251-296 | at most one label; a stacking label needs some atom within squared xy distance 5, and every other label needs every atom farther out and the mean z in [-1.8, 1.8) |
| Classifier.NearAxisLabels | fr3d/RNA-protein-annotation.py:274-281 | with an atom within squared xy distance 5, a planar-stacking residue gets exactly the `stacking_angle` label of its absolute plane angle, and an aliphatic one exactly the `stacking_tilt` label |
| Classifier.NearAxisOnlyStacks | fr3d/RNA-protein-annotation.py:274-281 | with an atom within squared xy distance 5 only stacking-family labels occur, and a residue in neither stacking set gets no label |
| Classifier.LabelsPerResidue | fr3d/RNA-protein-annotation.py:251-320 | which residues can receive each label (e.g. SHB only SER/THR, cation-pi only HIS/ARG/ASN/GLN) |
| Classifier.LysineNeverShbNorCationPi | fr3d/RNA-protein-annotation.py:251-320 | LYS never gets SHB or cation-pi |
| Classifier.OffAxisLabels | fr3d/RNA-protein-annotation.py:283-296 | away from the axis a label needs mean z in [-1.8, 1.8), is never a stacking label, and pseudopair residues get the pseudopair angle label |
| Classifier.ShbIff | fr3d/RNA-protein-annotation.py:283-296 | SHB exactly for SER/THR away from the axis with mean z in [-1.8, 1.8) and at least one heavy base atom within 4 Å |
| Classifier.EdgeLabel | fr3d/RNA-protein-annotation.py:379-397 | an edge exactly for purines and pyrimidines, always fgWC, fgH or fgS, and fgS for an undefined (NaN) angle |
| Classifier.EdgeIntervals | fr3d/RNA-protein-annotation.py:379-397 | purines: WC on [-15, 90], Hoogsteen above 90 or below -160, sugar between; pyrimidines with -45 and -150; other bases no edge |
| Classifier.DetectEdge | fr3d/RNA-protein-annotation.py:352-397 | an edge exactly for A, C, G and U, and never a face |
| Classifier.EdgeDefinedForRnaBases | fr3d/RNA-protein-annotation.py:352-397 | an edge is returned exactly for A, C, G and U; an empty atom list (NaN mean) gives the sugar edge; never a face |
| Classifier.DetectFace | fr3d/RNA-protein-annotation.py:399-410 | the result is one of the two faces |
| Classifier.FaceFollowsSide | fr3d/RNA-protein-annotation.py:399-410 | for a non-empty group, fgs5 exactly when the sum (so the mean) of its z values is at most zero; hence a group entirely at or below the base plane gets fgs5, entirely above gets fgs3 |
| Annotation.Standardize | fr3d/RNA-protein-annotation.py:206-217 | the frame change keeps atom names, atom order and centre names |
| Annotation.CoordMapLastWins | fr3d/RNA-protein-annotation.py:206-216 | each name maps to the coordinates of the last atom with that name |
| Annotation.CoordMapKeys | fr3d/RNA-protein-annotation.py:206-216 | the dictionary holds exactly the atom names |
| Annotation.CoordinatesByName | fr3d/RNA-protein-annotation.py:206-216 | the loop builds the name-to-coordinates dictionary |
| Annotation.RecordOfMeaning | fr3d/RNA-protein-annotation.py:224-239 | on any edge and centre, the tuple keeps the label and pair; a pseudopair needs two hydrogen bonds; stacking labels take the face, the others the given edge; every label but pseudopair yields a tuple |
| Annotation.PairRecord | fr3d/RNA-protein-annotation.py:186-243 | the record one base and one amino acid yield, if any; `PairRecordCases`, `RecordMeaning` and `PairRecordNames` give its meaning |
| Annotation.PairRecordCases | fr3d/RNA-protein-annotation.py:186-221 | an amino acid with a zero centre, or one failing the box, distance or proximity test, is skipped; otherwise its functional group has atoms and the record is the one built from the classification |
| Annotation.EmitMeaning | fr3d/RNA-protein-annotation.py:221-239 | a record keeps the classifier's label and its pair; a pseudopair has two hydrogen bonds; stacking labels get the face, the others the edge; every label but pseudopair yields a record |
| Annotation.RecordMeaning | fr3d/RNA-protein-annotation.py:169-243 | a record means the base and amino-acid centres are non-zero, the box, distance and proximity tests passed, and the record is the one built from the classification |
| Annotation.RecordCentersWithin | fr3d/RNA-protein-annotation.py:197-200 | a recorded pair has usable centres closer than D |
| Annotation.PseudopairWithoutHBondsDropped | fr3d/RNA-protein-annotation.py:224-227 | a screened pseudopair is dropped exactly when it has fewer than two hydrogen bonds |
| Annotation.PairRecordNames | fr3d/RNA-protein-annotation.py:224-243 | a record names the base and amino acid it was computed for |
| Annotation.AnnotatePair | fr3d/RNA-protein-annotation.py:186-243 | the loop body yields the pair's record as specified |
| Annotation.ClassifyPair | fr3d/RNA-protein-annotation.py:203-239 | after screening, the coordinate dictionaries, classification and gate yield the specified record |
| Annotation.RecordFor | fr3d/RNA-protein-annotation.py:223-239 | the if/elif chain yields the record for the label |
| Annotation.AnnotateCubePair | fr3d/RNA-protein-annotation.py:167-245 | the records of all base/amino-acid pairs of one base cube and one neighbouring cube, in loop order |
| Annotation.AnnotateBase | fr3d/RNA-protein-annotation.py:183-245 | the records of one usable base against the amino acids of one cube, in loop order |
| Annotation.AnnotateBaseCube | fr3d/RNA-protein-annotation.py:166-245 | the records of one base cube over its neighbour list, in loop order |
| Annotation.Annotate | fr3d/RNA-protein-annotation.py:164-249 | the records of all base cubes in the given order; `AnnotateSound`, `AnnotateComplete` and `NoPairTwice` give its meaning |
| Annotation.AnnotateInteractions | fr3d/RNA-protein-annotation.py:148-249 | the records over all base cubes in the dictionary's order |
| AnnotationProperties.AnnotateSound | fr3d/RNA-protein-annotation.py:164-245 | every record is the record of its pair, with the base in a visited base cube and the amino acid in an occupied cube |
| AnnotationProperties.AnnotateDistinct | fr3d/RNA-protein-annotation.py:164-245 | with each cube visited once and no residue in two lists, no pair is recorded twice |
| AnnotationProperties.BucketsPartition | fr3d/RNA-protein-annotation.py:109-144 | no residue sits in two cubes, and distinct inputs give repeat-free lists |
| AnnotationProperties.RecordsFromInput | fr3d/RNA-protein-annotation.py:103-249 | over the grid of `find_neighbors`, every record pairs an input base with an input amino acid |
| AnnotationProperties.FoundFromCube | fr3d/RNA-protein-annotation.py:164-245 | a pair of a base cube and a neighbouring amino-acid cube has its record among that base cube's records |
| AnnotationProperties.PairCubes | fr3d/RNA-protein-annotation.py:113-199 | a base and an amino acid whose centres are closer than D sit in grid cubes, the amino acid's among the base cube's neighbours |
| AnnotationProperties.AnnotateComplete | fr3d/RNA-protein-annotation.py:103-249 | every input pair that yields a record is found, although only 27 cubes are searched per base |
| AnnotationProperties.NoPairTwice | fr3d/RNA-protein-annotation.py:103-249 | for repeat-free inputs no (base, amino acid) pair is recorded twice |
| Aggregation.SplitJoin | fr3d/RNA-protein-annotation.py:700-701 | splitting a unit id loses nothing: joining the pieces gives it back |
| Aggregation.JoinSplit | fr3d/RNA-protein-annotation.py:700-701 | pieces without the separator come back from splitting their join |
| Aggregation.JoinFour | fr3d/RNA-protein-annotation.py:703 | the key is the four parts joined by "_" |
| Aggregation.Tag | fr3d/RNA-protein-annotation.py:697-703 | a record's key and entry, or IndexError for a unit id with fewer than four fields and TypeError for a missing edge; `JoinFour`, `TagParts` and `SameKeySameParts` give its meaning |
| Aggregation.TagParts | fr3d/RNA-protein-annotation.py:697-704 | a key splits back into both components, the label and the edge when the components hold no underscore |
| Aggregation.SameKeySameParts | fr3d/RNA-protein-annotation.py:697-704 | records sharing a key agree on both components, the label and the edge |
| Aggregation.EntriesUnderMember | fr3d/RNA-protein-annotation.py:697-704 | the entries under a key are exactly those of the records with that key |
| Aggregation.Grouped | fr3d/RNA-protein-annotation.py:697-704 | the dictionary after filing the records in order; `GroupedPerKey`, `GroupedSize` and `GroupedConcat` give its meaning |
| Aggregation.GroupedPerKey | fr3d/RNA-protein-annotation.py:697-704 | each key's list is its old list followed by the entries of the records with that key, in detection order; a key is present exactly when it was or some record has it |
| Aggregation.GroupedConcat | fr3d/RNA-protein-annotation.py:679-704 | filing one structure's records after another's equals filing them all at once |
| Aggregation.PutSize | fr3d/RNA-protein-annotation.py:704 | an append adds one entry to the dictionary |
| Aggregation.GroupedSize | fr3d/RNA-protein-annotation.py:697-704 | the dictionary grows by one entry per record that has a key |
| Aggregation.KeyedPrefix | fr3d/RNA-protein-annotation.py:697-704 | the records before the first whose key raises all have keys, and the next one has none |
| Aggregation.AllFiled | fr3d/RNA-protein-annotation.py:697-704 | when every record has a key, the size grows by the number of records |
| Aggregation.InteractionDictionary.constructor | fr3d/RNA-protein-annotation.py:655 | the dictionary starts empty |
| Aggregation.InteractionDictionary.Accumulate | fr3d/RNA-protein-annotation.py:697-704 | the dictionary holds the old lists with the records up to the first failing key filed; the loop stops with that exception, or completes |
| Aggregation.ReadyFromInput | fr3d/RNA-protein-annotation.py:689-693 | tables covering every input residue that has a centre cover every residue in the grid, since residues without one enter no cube |
| Aggregation.AnnotateStructure | fr3d/RNA-protein-annotation.py:689-704 | one structure: the records are the annotation over the grid of `find_neighbors` with D = 10 and group "aa_fg"; the dictionary has the records up to the first failing key filed, and the failure returned is that key's exception |

## Left out

- File and network I/O in the main block is not modelled: reading structures, downloading the
  non-redundant list, deduplicating and sorting PDB ids, printing, timing, `csv_output`, `text_output`.
  The message `find_neighbors` prints for an amino acid without a centre is not modelled either; the
  amino acid is skipped silently.
- `writeInteractionsHTML` is not modelled: it writes reports and reorders each key's list by float
  discrepancies.
- The plotting functions (`draw_base`, `draw_aa`, `draw_aa_cent`) are not modelled, nor the plotting
  lists `list_aa_coord` and `list_base_coord` that `annotate_interactions` also returns.
- `translate_rotate_component`, `besttransformation`, `rotation_matrix` and `infer_hydrogens` are not
  modelled: matrix numerics whose code is not part of this model. The frame change is the parameter
  `Env.toFrame`.
- `np.arctan2` and the square root are uninterpreted parameters. All arithmetic is exact real
  arithmetic, not floating point. The constant 3.14159 of the degree conversion is kept.
- `fr3d.unit_ids.encode` and `fr3d.definitions` are not part of this model. Unit ids come from a
  parameter, and the tables are `Screening.Tables`.
- Classifier.TypeOfInteraction: requires a non-empty functional group, where the source's `min` of an
  empty list would raise. It is only reached after a close pair was found, so that group is never empty
  there.
- Annotation.AnnotateInteractions: requires every residue in a cube to have its table entries and
  planar centres up front (`BaseReady`, `AaReady`). That is more than the source needs, because it reads
  each one only on the branch that uses it, and raises KeyError only when that branch is taken:
  - `aa_fg` after the centre box test (fr3d/RNA-protein-annotation.py:64);
  - an amino acid's planar-atom centres only in `vector_calculation` (:338-340), reached from
    `stacking_angle` (:278) near the axis or `calculate_angle` (:284) in the mean-z band;
  - `tilt_cutoff` only in `stacking_tilt` (:333);
  - `HB_donors` and `HB_acceptors`, for the base and the amino acid, only in `enough_HBs` (:84-87), for
    a pair already classified as a pseudopair (:224).

  So a structure with, say, a TYR whose ring lacks a planar atom but which never comes near a base runs
  in the source and reports nothing for that TYR. The model excludes that input.
- Aggregation.AnnotateStructure: requires `BaseReady` of every input base with a base centre, and
  `AaReady` of every input amino acid with an "aa_fg" centre. That is the same over-requirement as the
  line above, for the residues that enter a cube.
- Annotation.BaseUsable: a base whose planar-atom centre is absent is skipped, like one whose centre is
  all zero. This assumes `centers` behaves like the structure reader's proxy, which gives an empty array
  for atoms it cannot find. With the plain dictionary of `Component.__init__`, a missing key would raise
  KeyError and a `None` centre would raise AttributeError.
- Entities.InitialCenters: a `None` base centre (an A, C, G or U with no heavy base atom) is written as
  an absent `"base"` key. The model does not tell this apart from a residue that never gets a base
  centre. `find_neighbors` would raise on the `None`, and the model skips that base.
- Grid.FindNeighbors: a residue without the centre is skipped. This covers a `None` centre, where the
  source's `len` would raise, and a missing dictionary key, where it would raise KeyError.
- Annotation.AnnotateInteractions: the model visits the base cubes in a given `keyOrder` (each occupied
  cube once), since the dictionary order is unspecified in Python 2.
- Entities.InitEntity: the keywords are visited in an order the model leaves open, for the same
  reason.
- Entities.Select: the `cmp` keyword (a Python 2 comparison-function sort) is not modelled. Sort keys
  are compared as None < numbers < strings.
- Entities.IsComplete: only the default `key='name'` is modelled.
- Entities.Component: attributes are read from the keyword data. Python attributes set by other code
  (such as the amino-acid `centers` the reader fills in) are part of the component value.
- `Structure`, `Atom.coordinates` and `Component.coordinates` are not modelled: they are not used by
  the annotation beyond atom positions.
- Aggregation.AnnotateStructure: models one pass of the loop over structures. `GroupedConcat` composes
  the passes.
