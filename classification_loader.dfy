/** The classification loader: it checks its arguments when it is built,
    picks one of four loaders, and when run assembles the category lists
    that loader promises. */
module Classification {
  import opened Common
  import opened ClassificationLists

  /** Algorithm codes. The first three are declared by the data service, which
      is not part of this model; the values below are this model's choice, and
      nothing proved here depends on them beyond the six codes being pairwise
      distinct. */
  const Declassification: int := 0
  const ClassificationMe: int := 1
  const ClassificationNme: int := 2
  const AllTags: int := 100
  const TagsUsed: int := 101
  const TagsAvailable: int := 102

  const SupportedAlgorithms: set<int> :=
    {Declassification, ClassificationMe, ClassificationNme, AllTags, TagsUsed, TagsAvailable}

  /** `checkAlgorithmIndex`: true exactly for the six supported codes. */
  function CheckAlgorithmIndex(i: int): (ok: bool)
    ensures ok <==> i in SupportedAlgorithms
  {
    i == Declassification || i == ClassificationMe || i == ClassificationNme
      || i == AllTags || i == TagsUsed || i == TagsAvailable
  }

  /** Why a constructor rejects its arguments (`IllegalArgumentException`). */
  datatype LoaderError = InvalidImageId | EmptyImageIds | UnsupportedAlgorithm

  /** The loader a constructor selects, with the arguments it captures.
      A `None` id set is `null`. */
  datatype BatchCall =
    | LoadCGCPaths(imageIDs: Option<set<Long>>, algorithm: int, userID: Long)
    | LoadAllTags(imageIDs: Option<set<Long>>, userID: Long)
    | LoadUnlinkedTags(imageIDs: Option<set<Long>>, userID: Long)
    | LoadLinkedTags(imageIDs: Option<set<Long>>, userID: Long)

  /** The switch shared by the two constructors that take an algorithm. */
  function Dispatch(imageIDs: Option<set<Long>>, algorithm: int, userID: Long): (call: BatchCall)
    ensures algorithm == AllTags ==> call == LoadAllTags(imageIDs, userID)
    ensures algorithm == TagsUsed ==> call == LoadLinkedTags(imageIDs, userID)
    ensures algorithm == TagsAvailable ==> call == LoadUnlinkedTags(imageIDs, userID)
    ensures algorithm !in {AllTags, TagsUsed, TagsAvailable} ==>
              call == LoadCGCPaths(imageIDs, algorithm, userID)
  {
    if algorithm == AllTags then LoadAllTags(imageIDs, userID)
    else if algorithm == TagsUsed then LoadLinkedTags(imageIDs, userID)
    else if algorithm == TagsAvailable then LoadUnlinkedTags(imageIDs, userID)
    else LoadCGCPaths(imageIDs, algorithm, userID)
  }

  /** The `(long imageID, boolean leaves, long userID)` constructor: a
      negative id is rejected; otherwise the linked tags of `{imageID}` are
      loaded; `leaves` plays no part. */
  function ForImage(imageID: Long, leaves: bool, userID: Long): (r: Result<BatchCall, LoaderError>)
    ensures r.Failure? <==> imageID < 0
    ensures r.Failure? ==> r.error == InvalidImageId
    ensures r.Success? ==> r.value == LoadLinkedTags(Some({imageID}), userID)
  {
    if imageID < 0 then Failure(InvalidImageId)
    else Success(LoadLinkedTags(Some({imageID}), userID))
  }

  /** The `(Set imagesID, boolean leaves, long userID)` constructor: a null
      or empty set is rejected; otherwise the linked tags are loaded. */
  function ForImages(imagesID: Option<set<Long>>, leaves: bool, userID: Long): (r: Result<BatchCall, LoaderError>)
    ensures r.Failure? <==> imagesID.None? || |imagesID.value| == 0
    ensures r.Failure? ==> r.error == EmptyImageIds
    ensures r.Success? ==> r.value == LoadLinkedTags(imagesID, userID)
  {
    if imagesID.None? || |imagesID.value| == 0 then Failure(EmptyImageIds)
    else Success(LoadLinkedTags(imagesID, userID))
  }

  /** The `(long imageID, int algorithm, long userID)` constructor: the id is
      checked first, then the algorithm; the loader is chosen by `Dispatch`
      on `{imageID}`. */
  function ForImageWithAlgorithm(imageID: Long, algorithm: int, userID: Long): (r: Result<BatchCall, LoaderError>)
    ensures imageID < 0 ==> r == Failure(InvalidImageId)
    ensures imageID >= 0 && !CheckAlgorithmIndex(algorithm) ==> r == Failure(UnsupportedAlgorithm)
    ensures imageID >= 0 && CheckAlgorithmIndex(algorithm) ==>
              r == Success(Dispatch(Some({imageID}), algorithm, userID))
  {
    if imageID < 0 then Failure(InvalidImageId)
    else if !CheckAlgorithmIndex(algorithm) then Failure(UnsupportedAlgorithm)
    else Success(Dispatch(Some({imageID}), algorithm, userID))
  }

  /** The `(Set imageIDs, int algorithm, long userID)` constructor: a null or
      empty set is rejected only for declassification, and before the
      algorithm is checked; any other supported code is dispatched with the
      set as given, null or empty included. */
  function ForImagesWithAlgorithm(imageIDs: Option<set<Long>>, algorithm: int, userID: Long): (r: Result<BatchCall, LoaderError>)
    ensures (imageIDs.None? || |imageIDs.value| == 0) && algorithm == Declassification ==>
              r == Failure(EmptyImageIds)
    ensures imageIDs.Some? && |imageIDs.value| > 0 && !CheckAlgorithmIndex(algorithm) ==>
              r == Failure(UnsupportedAlgorithm)
    ensures algorithm != Declassification && !CheckAlgorithmIndex(algorithm) ==>
              r == Failure(UnsupportedAlgorithm)
    ensures r.Success? <==>
              CheckAlgorithmIndex(algorithm)
              && !(algorithm == Declassification && (imageIDs.None? || |imageIDs.value| == 0))
    ensures r.Success? ==> r.value == Dispatch(imageIDs, algorithm, userID)
  {
    if (imageIDs.None? || |imageIDs.value| == 0) && algorithm == Declassification then
      Failure(EmptyImageIds)
    else if !CheckAlgorithmIndex(algorithm) then Failure(UnsupportedAlgorithm)
    else Success(Dispatch(imageIDs, algorithm, userID))
  }

  /** The single-image constructors behave as the set constructors on the
      singleton set, once the image id is valid. */
  lemma SingleImageConstructorsAgree(imageID: Long, leaves: bool, algorithm: int, userID: Long)
    requires imageID >= 0
    ensures ForImage(imageID, leaves, userID) == ForImages(Some({imageID}), leaves, userID)
    ensures ForImageWithAlgorithm(imageID, algorithm, userID)
         == ForImagesWithAlgorithm(Some({imageID}), algorithm, userID)
  {
    assert |{imageID}| == 1;
  }

  /** Every accepted algorithm selects a loader: the three tag codes their own
      loader, the three classification codes `LoadCGCPaths` with that code. */
  lemma DispatchCoversSupportedCodes(imageIDs: Option<set<Long>>, algorithm: int, userID: Long)
    requires CheckAlgorithmIndex(algorithm)
    ensures Dispatch(imageIDs, algorithm, userID).LoadCGCPaths?
        <==> algorithm in {Declassification, ClassificationMe, ClassificationNme}
    ensures Dispatch(imageIDs, algorithm, userID).imageIDs == imageIDs
    ensures Dispatch(imageIDs, algorithm, userID).userID == userID
  {
  }

  /** The data service calls the loaders make, as functions of their
      arguments. Each returned `Set` is given in its iteration order. */
  datatype DataService = DataService(
    findCategoryPaths: (Option<set<Long>>, bool, Long) -> seq<Category>,
    // the user's whole category hierarchy, without images
    loadCategories: Long -> seq<Category>,
    // the user's whole category-group hierarchy, without images
    loadCategoryGroups: Long -> seq<CategoryGroup>,
    // the user's top-level category groups
    loadTopCategoryGroups: Long -> seq<CategoryGroup>,
    findCGCPaths: (Option<set<Long>>, int, Long) -> seq<CategoryGroup>)

  /** What a loader stores in `rootNodes`. */
  datatype RootNodes =
    | Groups(groups: seq<CategoryGroup>)
    | Categories(categories: seq<Category>)
    | AllTagsLists(linked: seq<Category>, available: seq<Category>, groups: seq<CategoryGroup>)
    | LinkedTagsLists(linked: seq<Category>, declassified: seq<CategoryGroup>)

  /** The linked categories: none without image ids, else the found paths
      de-duplicated by id. */
  function LinkedOf(os: DataService, imageIDs: Option<set<Long>>, userID: Long): seq<Category>
  {
    if imageIDs.None? then [] else DedupById(os.findCategoryPaths(imageIDs, false, userID))
  }

  /** What running `call` against `os` stores in `rootNodes`. */
  function CallResult(call: BatchCall, os: DataService): RootNodes
  {
    match call
    case LoadCGCPaths(imageIDs, algorithm, userID) =>
      if algorithm == ClassificationNme then Groups(os.loadCategoryGroups(userID))
      else Categories(os.findCategoryPaths(imageIDs, false, userID))
    case LoadAllTags(imageIDs, userID) =>
      var linked := LinkedOf(os, imageIDs, userID);
      AllTagsLists(linked, Unlinked(os.loadCategories(userID), IdsOf(linked)),
                   os.loadTopCategoryGroups(userID))
    case LoadUnlinkedTags(imageIDs, userID) =>
      var linked := LinkedOf(os, imageIDs, userID);
      Categories(Unlinked(os.loadCategories(userID), IdsOf(linked)))
    case LoadLinkedTags(imageIDs, userID) =>
      LinkedTagsLists(LinkedOf(os, imageIDs, userID),
                      os.findCGCPaths(imageIDs, Declassification, userID))
  }

  /** All tags: the linked list names each found id once, keeping the first
      category found for it; the available list holds every category of the
      hierarchy whose id is not linked, and only those. */
  lemma AllTagsPartition(imageIDs: Option<set<Long>>, userID: Long, os: DataService)
    ensures var r := CallResult(LoadAllTags(imageIDs, userID), os);
      && (forall j, k :: 0 <= j < k < |r.linked| ==> r.linked[j].id != r.linked[k].id)
      && (imageIDs.Some? ==> r.linked == FirstOccurrences(os.findCategoryPaths(imageIDs, false, userID)))
      && (imageIDs.None? ==> r.linked == [])
      && (forall c :: c in r.available <==>
            c in os.loadCategories(userID) && c.id !in IdsOf(r.linked))
  {
    var linked := LinkedOf(os, imageIDs, userID);
    if imageIDs.Some? {
      var found := os.findCategoryPaths(imageIDs, false, userID);
      DedupByIdDistinct(found);
      DedupByIdKeepsFirstOccurrences(found);
    }
    UnlinkedMembers(os.loadCategories(userID), IdsOf(linked));
  }

  /** The loop over the found paths (`r` and `ids` in all three tag loaders):
      with no image ids nothing is looked up and both lists stay empty. */
  method CollectLinked(os: DataService, imageIDs: Option<set<Long>>, userID: Long)
    returns (r: seq<Category>, ids: seq<Long>)
    ensures imageIDs.None? ==> r == [] && ids == []
    ensures imageIDs.Some? ==> r == DedupById(os.findCategoryPaths(imageIDs, false, userID))
    ensures ids == IdsOf(r)
  {
    r, ids := [], [];
    if imageIDs.Some? {
      var nodes := os.findCategoryPaths(imageIDs, false, userID);
      var i := 0;
      while i < |nodes|
        invariant 0 <= i <= |nodes|
        invariant r == DedupById(nodes[..i])
        invariant ids == IdsOf(r)
      {
        var category := nodes[i];
        assert nodes[..i + 1][..i] == nodes[..i];
        if category.id !in ids {
          r := r + [category];
          ids := ids + [category.id];
        }
        i := i + 1;
      }
      assert nodes[..i] == nodes;
    }
  }

  /** The loop over the full category list: keeps, in order, each category
      whose id is not in `ids`. */
  method CollectAvailable(nodes: seq<Category>, ids: seq<Long>) returns (r: seq<Category>)
    ensures r == Unlinked(nodes, ids)
  {
    r := [];
    var i := 0;
    while i < |nodes|
      invariant 0 <= i <= |nodes|
      invariant r == Unlinked(nodes[..i], ids)
    {
      var category := nodes[i];
      assert nodes[..i + 1][..i] == nodes[..i];
      if category.id !in ids {
        r := r + [category];
      }
      i := i + 1;
    }
    assert nodes[..i] == nodes;
  }

  /** The loop that copies a group set into the list `rg`. */
  method CopyGroups(nodes: seq<CategoryGroup>) returns (rg: seq<CategoryGroup>)
    ensures rg == nodes
  {
    rg := [];
    var i := 0;
    while i < |nodes|
      invariant 0 <= i <= |nodes|
      invariant rg == nodes[..i]
    {
      rg := rg + [nodes[i]];
      i := i + 1;
    }
  }

  /** A loader that passed its constructor's checks. */
  class ClassificationLoader {
    const loadCall: BatchCall
    var rootNodes: Option<RootNodes>

    constructor (loadCall: BatchCall)
      ensures this.loadCall == loadCall && rootNodes == None
    {
      this.loadCall := loadCall;
      rootNodes := None;
    }

    /** `doCall` of the selected loader: stores its result in `rootNodes`. */
    method DoCall(os: DataService)
      modifies this
      ensures rootNodes == Some(CallResult(loadCall, os))
    {
      match loadCall
      case LoadCGCPaths(imageIDs, algorithm, userID) =>
        if algorithm == ClassificationNme {
          rootNodes := Some(Groups(os.loadCategoryGroups(userID)));
        } else {
          rootNodes := Some(Categories(os.findCategoryPaths(imageIDs, false, userID)));
        }
      case LoadAllTags(imageIDs, userID) =>
        var linked, ids := CollectLinked(os, imageIDs, userID);
        var available := CollectAvailable(os.loadCategories(userID), ids);
        var rg := CopyGroups(os.loadTopCategoryGroups(userID));
        rootNodes := Some(AllTagsLists(linked, available, rg));
      case LoadUnlinkedTags(imageIDs, userID) =>
        var linked, ids := CollectLinked(os, imageIDs, userID);
        var available := CollectAvailable(os.loadCategories(userID), ids);
        rootNodes := Some(Categories(available));
      case LoadLinkedTags(imageIDs, userID) =>
        var linked, ids := CollectLinked(os, imageIDs, userID);
        var rg := CopyGroups(os.findCGCPaths(imageIDs, Declassification, userID));
        rootNodes := Some(LinkedTagsLists(linked, rg));
    }
  }
}
