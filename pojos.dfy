/** The Pojos service: argument guards of the container and image queries,
    the assembly of their results, the name checks of `getCollectionCount`,
    and the write calls that pass rows on to the update service. Query
    results are inputs, given in the order the query returns them. */
module Pojos {
  import opened Common

  /** The `Class` argument of the queries. */
  datatype ModelClass = Project | Dataset | CategoryGroup | Category | Image | Experimenter
                      | OtherClass(name: string)

  /** The flags `PojoOptions` reads from the options map. */
  datatype PojoOptions = PojoOptions(experimenter: bool, group: bool, startTime: bool, endTime: bool)

  /** A persisted object: its class and its id. */
  datatype IObject = IObject(cls: ModelClass, id: Long)

  /** Why a call is rejected. */
  datatype Reason =
    | NullIdsWithoutOwner | UnsupportedRootType | NotAnnotated | UnknownAlgorithm
    | MissingTimeOption | MissingOwnerOption
    | BadTypeName | UnknownType | BadPropertyName | UnknownProperty

  /** The exception thrown: `IllegalArgumentException`,
      `ApiUsageException`, or the `IndexOutOfBoundsException` of taking the
      first row of an empty query result. */
  datatype PojosError = IllegalArgument(reason: Reason) | ApiUsage(reason: Reason) | IndexOutOfBounds

  /** The root types `loadContainerHierarchy` accepts. */
  const ContainerTypes: set<ModelClass> := {Project, Dataset, CategoryGroup, Category}

  /** The root types `findContainerHierarchies` accepts. */
  const TopContainerTypes: set<ModelClass> := {Project, CategoryGroup}

  // ~ Read guards and results
  // ==========================================================================

  /** `loadContainerHierarchy`: null ids need the experimenter or group
      option, checked first; then the root type must be a container type;
      the result is the set of the objects the query found. */
  function LoadContainerHierarchy(rootNodeType: ModelClass, rootNodeIds: Option<set<Long>>,
                                  po: PojoOptions, found: seq<IObject>): (r: Result<set<IObject>, PojosError>)
    ensures rootNodeIds.None? && !po.experimenter && !po.group ==>
              r == Failure(IllegalArgument(NullIdsWithoutOwner))
    ensures (rootNodeIds.Some? || po.experimenter || po.group) && rootNodeType !in ContainerTypes ==>
              r == Failure(IllegalArgument(UnsupportedRootType))
    ensures r.Success? <==>
              (rootNodeIds.Some? || po.experimenter || po.group) && rootNodeType in ContainerTypes
    ensures r.Success? ==> forall o :: o in r.value <==> o in found
  {
    if rootNodeIds.None? && !po.experimenter && !po.group then
      Failure(IllegalArgument(NullIdsWithoutOwner))
    else if rootNodeType != Project && rootNodeType != Dataset
         && rootNodeType != CategoryGroup && rootNodeType != Category then
      Failure(IllegalArgument(UnsupportedRootType))
    else
      Success(set o | o in found)
  }

  /** The hierarchy transformation `findContainerHierarchies` hands the found
      images to, or `NoHierarchies` for the empty set it returns. */
  datatype Hierarchies = NoHierarchies | InvertPDI(images: set<IObject>) | InvertCGCI(images: set<IObject>)

  /** `findContainerHierarchies`: only Project and CategoryGroup roots;
      no image ids give the empty set; otherwise the found images are
      inverted into Project or CategoryGroup trees. */
  function FindContainerHierarchies(rootNodeType: ModelClass, imageIds: set<Long>, po: PojoOptions,
                                    found: seq<IObject>): (r: Result<Hierarchies, PojosError>)
    ensures rootNodeType !in TopContainerTypes ==> r == Failure(ApiUsage(UnsupportedRootType))
    ensures rootNodeType in TopContainerTypes && |imageIds| == 0 ==> r == Success(NoHierarchies)
    ensures rootNodeType == Project && |imageIds| > 0 ==> r == Success(InvertPDI(set i | i in found))
    ensures rootNodeType == CategoryGroup && |imageIds| > 0 ==> r == Success(InvertCGCI(set i | i in found))
  {
    if rootNodeType != Project && rootNodeType != CategoryGroup then
      Failure(ApiUsage(UnsupportedRootType))
    else if |imageIds| == 0 then Success(NoHierarchies)
    else if rootNodeType == Project then Success(InvertPDI(set i | i in found))
    else Success(InvertCGCI(set i | i in found))
  }

  /** Every root type `findContainerHierarchies` accepts is one that
      `loadContainerHierarchy` accepts. */
  lemma TopContainersAreContainers(rootNodeType: ModelClass, ids: set<Long>, po: PojoOptions,
                                   found: seq<IObject>)
    requires FindContainerHierarchies(rootNodeType, ids, po, found).Success?
    ensures LoadContainerHierarchy(rootNodeType, Some(ids), po, found).Success?
  {
  }

  /** `getImages`: no ids give the empty set; otherwise the found images. */
  function GetImages(rootNodeType: ModelClass, rootNodeIds: set<Long>, po: PojoOptions,
                     found: seq<IObject>): (r: set<IObject>)
    ensures |rootNodeIds| == 0 ==> r == {}
    ensures |rootNodeIds| > 0 ==> forall o :: o in r <==> o in found
  {
    if |rootNodeIds| == 0 then {} else set o | o in found
  }

  /** `getImagesByOptions`: a start or an end time is required. */
  function GetImagesByOptions(po: PojoOptions, found: seq<IObject>): (r: Result<set<IObject>, PojosError>)
    ensures r.Failure? <==> !po.startTime && !po.endTime
    ensures r.Failure? ==> r.error == IllegalArgument(MissingTimeOption)
    ensures r.Success? ==> forall o :: o in r.value <==> o in found
  {
    if !po.startTime && !po.endTime then Failure(IllegalArgument(MissingTimeOption))
    else Success(set o | o in found)
  }

  /** `getUserImages`: the experimenter or the group option is required. */
  function GetUserImages(po: PojoOptions, found: seq<IObject>): (r: Result<set<IObject>, PojosError>)
    ensures r.Failure? <==> !po.experimenter && !po.group
    ensures r.Failure? ==> r.error == IllegalArgument(MissingOwnerOption)
    ensures r.Success? ==> forall o :: o in r.value <==> o in found
  {
    if !po.experimenter && !po.group then Failure(IllegalArgument(MissingOwnerOption))
    else Success(set o | o in found)
  }

  /** With null root ids, a container root type is loaded exactly for the
      options under which `getUserImages` runs its query. */
  lemma NullIdsNeedOwnerOption(rootNodeType: ModelClass, po: PojoOptions, found: seq<IObject>)
    requires rootNodeType in ContainerTypes
    ensures LoadContainerHierarchy(rootNodeType, None, po, found).Success?
        <==> GetUserImages(po, found).Success?
    ensures LoadContainerHierarchy(rootNodeType, None, po, found).Success? ==>
              LoadContainerHierarchy(rootNodeType, None, po, found).value == GetUserImages(po, found).value
  {
  }

  // ~ Annotations
  // ==========================================================================

  /** An annotated object the annotation query found, with the annotations
      linked to it. */
  datatype Annotated = Annotated(obj: IObject, annotations: seq<IObject>)

  /** The ids of `objs`. */
  ghost function AnnotatedIds(objs: set<Annotated>): set<Long>
  {
    set a | a in objs :: a.obj.id
  }

  /** All annotations linked to the objects of `objs` whose id is `id`. */
  ghost function AnnotationsOf(objs: set<Annotated>, id: Long): set<IObject>
  {
    set a, x | a in objs && a.obj.id == id && x in a.annotations :: x
  }

  /** `m` maps the id of each object of `objs` to the union of the
      annotations linked to the objects with that id, and has no other key. */
  ghost predicate IsAnnotationMap(m: map<Long, set<IObject>>, objs: set<Annotated>)
  {
    m.Keys == AnnotatedIds(objs) && forall id :: id in m ==> m[id] == AnnotationsOf(objs, id)
  }

  /** `findAnnotations`: no root ids give the empty map before the type is
      checked; a type that is not annotated is rejected; otherwise the found
      objects are grouped by id. `isAnnotated` stands for
      `IAnnotated.class.isAssignableFrom`. */
  method FindAnnotations(rootNodeType: ModelClass, rootNodeIds: set<Long>, annotatorIds: set<Long>,
                         po: PojoOptions, isAnnotated: ModelClass -> bool, found: seq<Annotated>)
    returns (r: Result<map<Long, set<IObject>>, PojosError>)
    ensures |rootNodeIds| == 0 ==> r == Success(map[])
    ensures |rootNodeIds| > 0 && !isAnnotated(rootNodeType) ==> r == Failure(IllegalArgument(NotAnnotated))
    ensures |rootNodeIds| > 0 && isAnnotated(rootNodeType) ==>
              r.Success? && IsAnnotationMap(r.value, set a | a in found)
  {
    if |rootNodeIds| == 0 {
      return Success(map[]);
    }
    if !isAnnotated(rootNodeType) {
      return Failure(IllegalArgument(NotAnnotated));
    }
    var all := set a | a in found;
    var rest := all;
    var m: map<Long, set<IObject>> := map[];
    while rest != {}
      invariant rest <= all
      invariant IsAnnotationMap(m, all - rest)
      decreases |rest|
    {
      var a :| a in rest;
      AnnotationMapStep(m, all - rest, a);
      var id := a.obj.id;
      var s: set<IObject> := if id in m then m[id] else {};
      m := m[id := s + set x | x in a.annotations];
      assert all - (rest - {a}) == (all - rest) + {a};
      rest := rest - {a};
    }
    return Success(m);
  }

  /** Adding one object's annotations to the group of its id keeps the map
      an annotation map of the objects seen so far. */
  lemma AnnotationMapStep(m: map<Long, set<IObject>>, done: set<Annotated>, a: Annotated)
    requires IsAnnotationMap(m, done)
    ensures var id := a.obj.id;
      IsAnnotationMap(m[id := (if id in m then m[id] else {}) + set x | x in a.annotations], done + {a})
  {
    var id := a.obj.id;
    var m' := m[id := (if id in m then m[id] else {}) + set x | x in a.annotations];
    var done' := done + {a};
    assert AnnotatedIds(done') == AnnotatedIds(done) + {id};
    forall j | j in m'
      ensures m'[j] == AnnotationsOf(done', j)
    {
      if j == id {
        if id !in m {
          assert AnnotationsOf(done, id) == {};
        }
        assert AnnotationsOf(done', id) == AnnotationsOf(done, id) + set x | x in a.annotations;
      } else {
        assert AnnotationsOf(done', j) == AnnotationsOf(done, j);
      }
    }
  }

  // ~ Category group paths
  // ==========================================================================

  /** One row of the CGC path query: a category group and the category paired
      with it, `None` when that column is null. */
  datatype CGCRow = CGCRow(group: IObject, category: Option<IObject>)

  /** The groups appearing in the first `n` rows. */
  ghost function GroupsUpTo(rows: seq<CGCRow>, n: nat): set<IObject>
    requires n <= |rows|
  {
    set k | 0 <= k < n :: rows[k].group
  }

  /** The non-null categories paired with `g` in the first `n` rows. */
  ghost function CategoriesUpTo(rows: seq<CGCRow>, n: nat, g: IObject): set<IObject>
    requires n <= |rows|
  {
    set k | 0 <= k < n && rows[k].group == g && rows[k].category.Some? :: rows[k].category.value
  }

  /** `findCGCPaths`: no image ids give the empty set even for an unknown
      algorithm; otherwise the algorithm must be one of `algorithms`
      (`IPojos.ALGORITHMS`). The result maps every group that appears in a
      row, even one paired only with null categories, to exactly the non-null
      categories paired with it. */
  method FindCGCPaths(imgIds: set<Long>, algorithm: string, algorithms: set<string>,
                      po: PojoOptions, rows: seq<CGCRow>)
    returns (r: Result<map<IObject, set<IObject>>, PojosError>)
    ensures |imgIds| == 0 ==> r == Success(map[])
    ensures |imgIds| > 0 && algorithm !in algorithms ==> r == Failure(IllegalArgument(UnknownAlgorithm))
    ensures |imgIds| > 0 && algorithm in algorithms ==>
              && r.Success?
              && r.value.Keys == GroupsUpTo(rows, |rows|)
              && forall g :: g in r.value ==> r.value[g] == CategoriesUpTo(rows, |rows|, g)
  {
    if |imgIds| == 0 {
      return Success(map[]);
    }
    if algorithm !in algorithms {
      return Failure(IllegalArgument(UnknownAlgorithm));
    }
    var m: map<IObject, set<IObject>> := map[];
    var i := 0;
    while i < |rows|
      invariant 0 <= i <= |rows|
      invariant m.Keys == GroupsUpTo(rows, i)
      invariant forall g :: g in m ==> m[g] == CategoriesUpTo(rows, i, g)
    {
      var cg := rows[i].group;
      var c := rows[i].category;
      if cg !in m {
        m := m[cg := {}];
      }
      if c.Some? {
        m := m[cg := m[cg] + {c.value}];
      }
      i := i + 1;
    }
    return Success(m);
  }

  // ~ User details
  // ==========================================================================

  /** An experimenter, known by its login name. */
  datatype Experimenter = Experimenter(omeName: string, id: Long)

  /** The last experimenter of `found` named `name`: the one a later
      `put` leaves in the map. */
  function LastNamed(found: seq<Experimenter>, name: string): (r: Option<Experimenter>)
    ensures r.Some? ==> r.value in found && r.value.omeName == name
    ensures r.None? <==> forall k :: 0 <= k < |found| ==> found[k].omeName != name
  {
    if found == [] then None
    else if Last(found).omeName == name then Some(Last(found))
    else LastNamed(found[..|found| - 1], name)
  }

  /** The names of the experimenters in `found`. */
  ghost function FoundNames(found: seq<Experimenter>): set<string>
  {
    set k | 0 <= k < |found| :: found[k].omeName
  }

  /** `getUserDetails`: the query is made only for a non-empty `names`; every
      requested name is a key, mapped to the last experimenter found with that
      name, or to null when none was found. */
  method GetUserDetails(names: set<string>, found: seq<Experimenter>)
    returns (m: map<string, Option<Experimenter>>)
    ensures names <= m.Keys
    ensures |names| == 0 ==> m == map[]
    ensures |names| > 0 ==> m.Keys == names + FoundNames(found)
    ensures forall n :: n in m ==> m[n] == LastNamed(found, n)
  {
    m := map[];
    if |names| > 0 {
      m := PutFound(found);
    }
    m := PutMissing(m, names, found);
  }

  /** The first loop of `getUserDetails`: each found experimenter is put
      under its name, a later one replacing an earlier one. */
  method PutFound(found: seq<Experimenter>) returns (m: map<string, Option<Experimenter>>)
    ensures m.Keys == FoundNames(found)
    ensures forall n :: n in m ==> m[n] == LastNamed(found, n)
  {
    m := map[];
    var i := 0;
    while i < |found|
      invariant 0 <= i <= |found|
      invariant m.Keys == FoundNames(found[..i])
      invariant forall n :: n in m ==> m[n] == LastNamed(found[..i], n)
    {
      var e := found[i];
      ghost var p := found[..i + 1];
      assert p[..i] == found[..i];
      assert FoundNames(p) == FoundNames(found[..i]) + {e.omeName};
      m := m[e.omeName := Some(e)];
      i := i + 1;
    }
    assert found[..i] == found;
  }

  /** A name no found experimenter has maps to null. */
  lemma UnfoundNameIsNull(found: seq<Experimenter>, name: string)
    requires name !in FoundNames(found)
    ensures LastNamed(found, name) == None
  {
    forall k | 0 <= k < |found|
      ensures found[k].omeName != name
    {
      assert found[k].omeName in FoundNames(found);
    }
  }

  /** The second loop of `getUserDetails`: every requested name that is not
      yet a key is mapped to null. */
  method PutMissing(m0: map<string, Option<Experimenter>>, names: set<string>, found: seq<Experimenter>)
    returns (m: map<string, Option<Experimenter>>)
    requires forall n :: n in m0 ==> m0[n] == LastNamed(found, n)
    requires |names| > 0 ==> FoundNames(found) <= m0.Keys
    ensures m.Keys == m0.Keys + names
    ensures forall n :: n in m ==> m[n] == LastNamed(found, n)
  {
    m := m0;
    var rest := names;
    while rest != {}
      invariant rest <= names
      invariant m0.Keys <= m.Keys && m.Keys <= m0.Keys + names && names - rest <= m.Keys
      invariant forall n :: n in m ==> m[n] == LastNamed(found, n)
      decreases |rest|
    {
      var name :| name in rest;
      if name !in m {
        assert |names| > 0;
        UnfoundNameIsNull(found, name);
        m := m[name := None];
      }
      rest := rest - {name};
    }
  }

  // ~ Collection counts
  // ==========================================================================

  /** Java's `\w`: an ASCII letter, a digit or the underscore. */
  predicate IsWordChar(c: char) {
    'a' <= c <= 'z' || 'A' <= c <= 'Z' || '0' <= c <= '9' || c == '_'
  }

  /** The property pattern `^\w+$`: one or more word characters. */
  predicate IsAlphaNumeric(s: string) {
    |s| >= 1 && forall k :: 0 <= k < |s| ==> IsWordChar(s[k])
  }

  /** The type pattern `^\w[.\w]+$`: a word character followed by at least
      one word character or dot. */
  predicate IsAlphaNumericDotted(s: string) {
    |s| >= 2 && IsWordChar(s[0]) && forall k :: 1 <= k < |s| ==> IsWordChar(s[k]) || s[k] == '.'
  }

  /** `checkType`: the name pattern first, then the type lookup
      (`knownType` stands for `iQuery.checkType`). */
  function CheckType(type_: string, knownType: string -> bool): (r: Outcome<PojosError>)
    ensures r.Pass? <==> IsAlphaNumericDotted(type_) && knownType(type_)
    ensures !IsAlphaNumericDotted(type_) ==> r == Fail(IllegalArgument(BadTypeName))
    ensures IsAlphaNumericDotted(type_) && !knownType(type_) ==> r == Fail(IllegalArgument(UnknownType))
  {
    if !IsAlphaNumericDotted(type_) then Fail(IllegalArgument(BadTypeName))
    else if !knownType(type_) then Fail(IllegalArgument(UnknownType))
    else Pass
  }

  /** `checkProperty`: the name pattern first, then the property lookup
      (`knownProperty` stands for `iQuery.checkProperty`). */
  function CheckProperty(type_: string, property: string, knownProperty: (string, string) -> bool)
    : (r: Outcome<PojosError>)
    ensures r.Pass? <==> IsAlphaNumeric(property) && knownProperty(type_, property)
    ensures !IsAlphaNumeric(property) ==> r == Fail(IllegalArgument(BadPropertyName))
    ensures IsAlphaNumeric(property) && !knownProperty(type_, property) ==>
              r == Fail(IllegalArgument(UnknownProperty))
  {
    if !IsAlphaNumeric(property) then Fail(IllegalArgument(BadPropertyName))
    else if !knownProperty(type_, property) then Fail(IllegalArgument(UnknownProperty))
    else Pass
  }

  /** Names that pass both checks are made of word characters and dots only,
      so they cannot close the `size(table.<property>)` call or start another
      clause of the count query. */
  lemma CheckedNamesStayInQueryAlphabet(type_: string, property: string, knownType: string -> bool,
                                        knownProperty: (string, string) -> bool)
    requires CheckType(type_, knownType).Pass? && CheckProperty(type_, property, knownProperty).Pass?
    ensures forall k :: 0 <= k < |type_| ==> type_[k] != ' ' && type_[k] != ')' && type_[k] != ':'
    ensures forall k :: 0 <= k < |property| ==> IsWordChar(property[k]) && property[k] != '.'
  {
  }

  /** A one-character type name is rejected, while the same character is a
      valid property name. */
  lemma SingleCharacterNames(c: char)
    requires IsWordChar(c)
    ensures !IsAlphaNumericDotted([c]) && IsAlphaNumeric([c])
  {
  }

  /** `getCollectionCount`: the type is checked, then the property
      (`parsedProperty` is the result of `LsidUtils.parseField`); then the
      size query runs once per requested id (`count` stands for it, `None`
      when it returns no row, as for an id with no row of `type_`). Taking the
      first row of an empty answer throws; otherwise the result has exactly
      one entry per requested id, holding that id's count. */
  method GetCollectionCount(type_: string, parsedProperty: string, ids: set<Long>,
                            knownType: string -> bool, knownProperty: (string, string) -> bool,
                            count: Long -> Option<int>)
    returns (r: Result<map<Long, int>, PojosError>)
    ensures CheckType(type_, knownType).Fail? ==> r == Failure(CheckType(type_, knownType).error)
    ensures CheckType(type_, knownType).Pass? && CheckProperty(type_, parsedProperty, knownProperty).Fail? ==>
              r == Failure(CheckProperty(type_, parsedProperty, knownProperty).error)
    ensures CheckType(type_, knownType).Pass? && CheckProperty(type_, parsedProperty, knownProperty).Pass?
            && (exists id :: id in ids && count(id).None?) ==>
              r == Failure(IndexOutOfBounds)
    ensures r.Success? <==>
              && CheckType(type_, knownType).Pass?
              && CheckProperty(type_, parsedProperty, knownProperty).Pass?
              && forall id :: id in ids ==> count(id).Some?
    ensures r.Success? ==>
              r.value.Keys == ids && forall id :: id in ids ==> Some(r.value[id]) == count(id)
  {
    var typeCheck := CheckType(type_, knownType);
    if typeCheck.Fail? {
      return Failure(typeCheck.error);
    }
    var propertyCheck := CheckProperty(type_, parsedProperty, knownProperty);
    if propertyCheck.Fail? {
      return Failure(propertyCheck.error);
    }
    var results: map<Long, int> := map[];
    var rest := ids;
    while rest != {}
      invariant rest <= ids
      invariant results.Keys == ids - rest
      invariant forall id :: id in results ==> Some(results[id]) == count(id)
      decreases |rest|
    {
      var id :| id in rest;
      var rows := count(id);
      if rows.None? {
        return Failure(IndexOutOfBounds);
      }
      results := results[id := rows.value];
      rest := rest - {id};
    }
    return Success(results);
  }

  // ~ Writes
  // ==========================================================================

  /** The update service, reduced to the rows it has been asked to delete, in
      call order. */
  class UpdateService {
    var deleted: seq<IObject>

    constructor ()
      ensures deleted == []
    {
      deleted := [];
    }

    /** `iUpdate.deleteObject`. */
    method DeleteObject(row: IObject)
      modifies this
      ensures deleted == old(deleted) + [row]
    {
      deleted := deleted + [row];
    }
  }

  /** `deleteDataObject`: one delete call for `row`. */
  method DeleteDataObject(update: UpdateService, row: IObject)
    modifies update
    ensures update.deleted == old(update.deleted) + [row]
  {
    update.DeleteObject(row);
  }

  /** `deleteDataObjects`: deletes the rows one by one, in array order. */
  method DeleteDataObjects(update: UpdateService, rows: seq<IObject>)
    modifies update
    ensures update.deleted == old(update.deleted) + rows
  {
    var i := 0;
    while i < |rows|
      invariant 0 <= i <= |rows|
      invariant update.deleted == old(update.deleted) + rows[..i]
    {
      DeleteDataObject(update, rows[i]);
      assert rows[..i + 1] == rows[..i] + [rows[i]];
      i := i + 1;
    }
    assert rows[..i] == rows;
  }

  /** `unlink`: deletes the links exactly as `deleteDataObjects` does. */
  method Unlink(update: UpdateService, links: seq<IObject>)
    modifies update
    ensures update.deleted == old(update.deleted) + links
  {
    DeleteDataObjects(update, links);
  }

  /** `link`: copies the array the save returned (`saved`) into a new array of
      the same length. */
  method Link(saved: array<IObject>) returns (links: array<IObject>)
    ensures fresh(links)
    ensures links[..] == saved[..]
  {
    links := new IObject[saved.Length];
    var i := 0;
    while i < saved.Length
      invariant 0 <= i <= saved.Length
      invariant links[..i] == saved[..i]
    {
      links[i] := saved[i];
      i := i + 1;
    }
  }
}
