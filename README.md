# OMERO Pojos service, classification loader and graph-delete post-processing

A Dafny model of three pieces of the OpenMicroscopy code base:

- **Graph-delete post-processing** (`StepFactories`, over the plan types in
  `Graphs`). A step factory closes a delete plan with `postProcess`. That
  method records how many steps the plan has, runs the `onPostProcess` hook,
  and wraps the same list in a `GraphSteps`. The base hook does nothing. The
  delete factory's hook scans only the steps that were there on entry. For
  each Image step with a non-empty id array it appends a `DeleteValidation`
  that checks the Fileset of the step's last id.
- **The classification loader** (`Classification`, with the list algebra in
  `ClassificationLists`). Each of the four constructors checks its arguments
  and picks one of the loaders `loadCGCPaths`, `loadAllTags`,
  `loadUnlinkedTags` or `loadLinkedTags`. When that loader runs, it assembles
  the tag (category) lists:
  - the categories linked to the images, de-duplicated by id;
  - the categories not linked;
  - the tag sets (category groups).
- **The Pojos service** (`Pojos`):
  - the argument guards of its hierarchy and image queries;
  - how `findAnnotations`, `findCGCPaths`, `getUserDetails` and
    `getCollectionCount` group the rows their queries return;
  - the name checks that guard the count query;
  - the delete and link calls it passes on to the update service.

Queries, the data service and the update service are not modelled. Their
answers are parameters: functions, or sequences in the order the query
returns them. A Java `null` is `None`. An exception is a `Failure` or `Fail`
value naming its reason. Ids are `Long`, a subset type of `int` bounded to
the signed 64-bit range.

Files:

- `common.dfy`: `Long`, `Option`, `Result`, `Outcome`, `Last`.
- `graphs.dfy`: steps, the mutable step list, `GraphSteps`.
- `step_factories.dfy`: `create`, `postProcess` and both hooks, as a
  `StepFactory` class whose `hook` field selects the override.
- `classification_lists.dfy`: de-duplication and filtering of category
  lists.
- `classification_loader.dfy`: the constructors, the dispatch, and
  `doCall` as a `ClassificationLoader` class.
- `pojos.dfy`: the Pojos service.

## Model

| member | source | states |
|---|---|---|
| StepFactories.Create | components/server/src/ome/services/delete/DeleteStepFactory.java:43-46 | the created step is a delete step carrying exactly the given position, stack, specification, entry and ids; its table is the entry's |
| StepFactories.StepFactory.PostProcess | components/server/src/ome/services/graphs/AbstractStepFactory.java:37-41 | `originalSize` becomes the entry length; the returned plan wraps the very same list; the list ends up as its old steps, unchanged, followed by what the hook appends after scanning exactly those steps |
| StepFactories.StepFactory.OnPostProcess | components/server/src/ome/services/graphs/AbstractStepFactory.java:43-45 | the hook the factory overrides with appends to the list what that hook appends for its first `originalSize` steps, and changes nothing before them |
| StepFactories.StepFactory.DefaultOnPostProcess | components/server/src/ome/services/graphs/AbstractStepFactory.java:43-45 | the base hook leaves the list unchanged |
| StepFactories.StepFactory.FilesetOnPostProcess | components/server/src/ome/services/delete/DeleteStepFactory.java:48-72 | the delete hook keeps the list's prefix and appends `FilesetValidations` of the first `originalSize` steps, so steps appended during the scan are never scanned |
| StepFactories.FilesetValidationsPerCheckedStep | components/server/src/ome/services/delete/DeleteStepFactory.java:50-70 | exactly one validation per Image step with a non-null, non-empty id array, in plan order; each copies its step's idx, stack, spec, entry and ids, is tagged "Fileset", and carries the lookup of the step's last id |
| StepFactories.NoCheckedStepsNoValidations | components/server/src/ome/services/delete/DeleteStepFactory.java:52-56 | a plan without such steps (non-Image steps, null ids or empty ids only) gets no validation |
| StepFactories.FilesetValidationsUseLastIdOnly | components/server/src/ome/services/delete/DeleteStepFactory.java:57-66 | only the last id of each checked step is looked up: two lookups that agree there give identical validations |
| StepFactories.FilesetValidationsAppend | components/server/src/ome/services/delete/DeleteStepFactory.java:50-71 | scanning two parts of a plan appends the validations of the first part, then those of the second |
| StepFactories.ValidationsWouldQualifyAgain | components/server/src/ome/services/delete/DeleteStepFactory.java:50-69 | every appended validation keeps an Image entry and non-empty ids, so it would itself qualify: the scan must stop at `originalSize`, not at the current length |
| StepFactories.CreatedStepValidations | components/server/src/ome/services/delete/DeleteStepFactory.java:43-70 | a created Image step with ids gets exactly one validation for its last id; one with null or empty ids gets none |
| StepFactories.CheckedSteps | components/server/src/ome/services/delete/DeleteStepFactory.java:52-56 | reference list of the steps the hook acts on: exactly the plan's Image steps with non-empty ids, none added |
| Classification.CheckAlgorithmIndex | SRC/org/openmicroscopy/shoola/env/data/views/calls/ClassificationLoader.java:111-123 | true exactly for the six supported codes |
| Classification.Dispatch | SRC/org/openmicroscopy/shoola/env/data/views/calls/ClassificationLoader.java:414-426 | ALL_TAGS selects `loadAllTags`, TAGS_USED `loadLinkedTags`, TAGS_AVAILABLE `loadUnlinkedTags`, and every other code `loadCGCPaths` with that code |
| Classification.ForImage | SRC/org/openmicroscopy/shoola/env/data/views/calls/ClassificationLoader.java:366-373 | rejected if and only if the id is negative; otherwise loads the linked tags of the singleton id set |
| Classification.ForImages | SRC/org/openmicroscopy/shoola/env/data/views/calls/ClassificationLoader.java:387-392 | rejected if and only if the id set is null or empty; otherwise loads its linked tags |
| Classification.ForImageWithAlgorithm | SRC/org/openmicroscopy/shoola/env/data/views/calls/ClassificationLoader.java:406-427 | the id is checked before the algorithm; an accepted call dispatches on the singleton set |
| Classification.ForImagesWithAlgorithm | SRC/org/openmicroscopy/shoola/env/data/views/calls/ClassificationLoader.java:439-461 | a null or empty set is rejected only for declassification, and before the algorithm is checked; success if and only if the code is supported and not that case; the set is passed on as given, null included |
| Classification.SingleImageConstructorsAgree | SRC/org/openmicroscopy/shoola/env/data/views/calls/ClassificationLoader.java:366-461 | for a valid id, each single-image constructor agrees with its set constructor on the singleton set |
| Classification.DispatchCoversSupportedCodes | SRC/org/openmicroscopy/shoola/env/data/views/calls/ClassificationLoader.java:414-426 | among supported codes, `loadCGCPaths` is chosen exactly for the three classification codes; ids and user are passed on unchanged |
| Classification.CollectLinked | SRC/org/openmicroscopy/shoola/env/data/views/calls/ClassificationLoader.java:175-190 | with null ids nothing is looked up and both lists are empty; otherwise the list is the found paths de-duplicated by id, and `ids` holds exactly its ids in order |
| Classification.CollectAvailable | SRC/org/openmicroscopy/shoola/env/data/views/calls/ClassificationLoader.java:195-204 | the result keeps, in order, every category of the hierarchy whose id is not linked |
| Classification.CopyGroups | SRC/org/openmicroscopy/shoola/env/data/views/calls/ClassificationLoader.java:207-213 | the group list is the set's elements in iteration order |
| Classification.ClassificationLoader.DoCall | SRC/org/openmicroscopy/shoola/env/data/views/calls/ClassificationLoader.java:139-316 | the loader's `doCall` stores in `rootNodes` exactly `CallResult` of the selected loader |
| Classification.AllTagsPartition | SRC/org/openmicroscopy/shoola/env/data/views/calls/ClassificationLoader.java:168-218 | the linked list names each id once and keeps the first category found for it (empty for null ids); the available list holds exactly the hierarchy's categories whose id is not linked |
| ClassificationLists.DedupByIdSameIds | SRC/org/openmicroscopy/shoola/env/data/views/calls/ClassificationLoader.java:183-189 | de-duplication keeps exactly the set of ids of its input |
| ClassificationLists.DedupByIdDistinct | SRC/org/openmicroscopy/shoola/env/data/views/calls/ClassificationLoader.java:183-189 | no id occurs twice in the de-duplicated list |
| ClassificationLists.DedupByIdKeepsFirstOccurrences | SRC/org/openmicroscopy/shoola/env/data/views/calls/ClassificationLoader.java:183-189 | the de-duplicated list equals the first occurrence of each id, in input order |
| ClassificationLists.UnlinkedCounts | SRC/org/openmicroscopy/shoola/env/data/views/calls/ClassificationLoader.java:256-261 | each category whose id is not linked appears exactly as often as in the hierarchy; a linked one never appears (filtered, not de-duplicated) |
| ClassificationLists.UnlinkedMembers | SRC/org/openmicroscopy/shoola/env/data/views/calls/ClassificationLoader.java:252-263 | a category is available if and only if it is in the hierarchy and its id is not linked |
| Pojos.LoadContainerHierarchy | components/server/src/ome/logic/PojosImpl.java:96-139 | null ids without the experimenter or group option are rejected first; then a root type outside Project, Dataset, CategoryGroup and Category is rejected; success if and only if both checks pass, with exactly the found objects |
| Pojos.FindContainerHierarchies | components/server/src/ome/logic/PojosImpl.java:143-201 | only Project and CategoryGroup roots, otherwise an API usage error; no image ids give the empty set; otherwise the found images are inverted into the root type's trees |
| Pojos.TopContainersAreContainers | components/server/src/ome/logic/PojosImpl.java:107-115 | every root type accepted by `findContainerHierarchies` is accepted by `loadContainerHierarchy` |
| Pojos.GetImages | components/server/src/ome/logic/PojosImpl.java:332-348 | no root ids give the empty set; otherwise exactly the found images |
| Pojos.GetImagesByOptions | components/server/src/ome/logic/PojosImpl.java:352-368 | rejected if and only if neither a start nor an end time is given |
| Pojos.GetUserImages | components/server/src/ome/logic/PojosImpl.java:372-388 | rejected if and only if neither the experimenter nor the group option is given |
| Pojos.NullIdsNeedOwnerOption | components/server/src/ome/logic/PojosImpl.java:101-105 | with null ids, a container hierarchy loads under exactly the options that `getUserImages` accepts |
| Pojos.FindAnnotations | components/server/src/ome/logic/PojosImpl.java:205-264 | no root ids give the empty map before the type is checked; a non-annotated type is rejected; otherwise each found id maps to the union of the annotations of the objects with that id, and no other key is present |
| Pojos.AnnotationMapStep | components/server/src/ome/logic/PojosImpl.java:250-260 | one more object merged into its id's group keeps the map an annotation map of the objects seen |
| Pojos.FindCGCPaths | components/server/src/ome/logic/PojosImpl.java:268-328 | no image ids give the empty set even for an unknown algorithm; an unknown algorithm is rejected; otherwise every group in a row is a key, even one seen only with null categories, mapped to exactly its non-null categories |
| Pojos.LastNamed | components/server/src/ome/logic/PojosImpl.java:405-408 | the experimenter a later `put` leaves under a name is one of the found ones with that name, and there is none exactly when no found experimenter has that name |
| Pojos.GetUserDetails | components/server/src/ome/logic/PojosImpl.java:392-421 | every requested name is a key; no names give the empty map without a query; otherwise the keys are the requested and found names, each mapped to the last experimenter found with it, or to null |
| Pojos.PutFound | components/server/src/ome/logic/PojosImpl.java:405-408 | the keys are exactly the found names, each mapped to the last experimenter with it |
| Pojos.PutMissing | components/server/src/ome/logic/PojosImpl.java:412-417 | every requested name becomes a key; names already present keep their value; new ones map to null |
| Pojos.UnfoundNameIsNull | components/server/src/ome/logic/PojosImpl.java:412-417 | a name no found experimenter has maps to null |
| Pojos.CheckType | components/server/src/ome/logic/PojosImpl.java:534-545 | passes if and only if the type matches the dotted word pattern and is known; the pattern is checked first |
| Pojos.CheckProperty | components/server/src/ome/logic/PojosImpl.java:547-560 | passes if and only if the property matches the word pattern and is known on the type; the pattern is checked first |
| Pojos.CheckedNamesStayInQueryAlphabet | components/server/src/ome/logic/PojosImpl.java:428-436 | names that pass both checks contain no space, parenthesis or colon, and the property no dot, so they cannot break out of the count query they are spliced into |
| Pojos.SingleCharacterNames | components/server/src/ome/logic/PojosImpl.java:528-530 | a single word character is a valid property name but not a valid type name |
| Pojos.GetCollectionCount | components/server/src/ome/logic/PojosImpl.java:425-448 | the type check fails first, then the property check; once both pass, any requested id whose size query returns no row makes the call throw the out-of-bounds error; success if and only if both checks pass and every id has a row, with exactly one entry per requested id holding that id's count |
| Pojos.DeleteDataObject | components/server/src/ome/logic/PojosImpl.java:512-514 | exactly one delete call, for the row |
| Pojos.DeleteDataObjects | components/server/src/ome/logic/PojosImpl.java:518-523 | one delete call per row, in array order, and nothing else |
| Pojos.Unlink | components/server/src/ome/logic/PojosImpl.java:480-482 | deletes the links exactly as `deleteDataObjects` does |
| Pojos.Link | components/server/src/ome/logic/PojosImpl.java:486-493 | the result is a new array with the same length and elements as the array the save returned |

## Left out

- SQL, the Hibernate session, query building and the query factory are not modelled. Every query answer is a parameter of the member that issues the query.
- The `GraphStep`, `DeleteStep`, `DeleteValidation` and `GraphSteps` constructors are not part of this model. A step's `table` is taken to be its entry's table, and the context and metadata arguments are dropped. A `GraphSteps` is taken to wrap the very list it is given, without copying it.
- StepFactories.Create: the `GraphException` that the `DeleteStep` constructor may throw is not modelled.
- StepFactories.StepFactory.OnPostProcess: requires `originalSize` to lie within the list, which `postProcess` guarantees. A direct call with a stale `originalSize` beyond the list would index out of bounds in the source and is not modelled.
- Classification: `DECLASSIFICATION`, `CLASSIFICATION_ME` and `CLASSIFICATION_NME` take their values from the data service, which is not part of this model. They are fixed to 0, 1 and 2 here. The proofs rely only on the six codes being distinct.
- Classification: `loadPartialClassification` is left out, because no constructor selects it. `buildTree`, the `getResult` accessor and the asynchronous execution of batch calls are left out too: they are framework plumbing, and `rootNodes` is a field of the loader class.
- Classification: the data service may impose conditions on a null id set. Those are not modelled; the set is passed on as the constructor received it.
- Pojos: `IPojos.ALGORITHMS` is given as the parameter `algorithms`. `IAnnotated.class.isAssignableFrom` is given as `isAnnotated`. `iQuery.checkType` and `iQuery.checkProperty` are given as `knownType` and `knownProperty`. The count query is given as `count`.
- Pojos.GetCollectionCount: `LsidUtils.parseField` is not part of this model. Its result is the input `parsedProperty`.
- Pojos: `PojoOptions` is reduced to the four flags the guards read. The options map itself is not modelled.
- Pojos.FindContainerHierarchies: `HierarchyTransformations.invertPDI` and `invertCGCI` are not part of this model. The result names the transformation and the image set it receives.
- Pojos: evictions from the session, the dataset prefetch for Project roots in `loadContainerHierarchy`, and the annotation-link walk in `findAnnotations` only change the session, so they are left out.
- Pojos.FindCGCPaths: the result is the map from each group to its categories. The source returns the group set with each group's category links rebuilt from that map. Those back-links between objects are not modelled.
- Pojos: a null id set or a null name set makes the source throw `NullPointerException`. The model takes such sets as non-null.
- Pojos: the patterns `^\w+$` and `^\w[.\w]+$` are modelled as predicates over ASCII word characters. Java's regular-expression engine is not modelled.
- Pojos: `retrieveCollection`, `createDataObject`, `createDataObjects`, `updateDataObject` and `updateDataObjects` are single calls into the query or update service, so they are left out. The update service keeps only the sequence of rows it was asked to delete.
- Pojos.DeleteDataObjects: a delete that fails is not modelled, because `UpdateService.DeleteObject` always succeeds. In the source, an exception from `iUpdate.deleteObject` partway through the array leaves the remaining rows undeleted.
- Pojos.Link: the save itself is the update service's. The array it returns is the input `saved`.
- The `@RolesAllowed` and `@Transactional` annotations, and the rest of the server and client, are not modelled.
