/** The step factory of the graph-delete subsystem: the template method that
    closes a plan (`postProcess`), its overridable hook, and the delete
    factory's override of that hook, which appends one Fileset validation per
    Image step. */
module StepFactories {
  import opened Common
  import opened Graphs

  /** The table whose steps the delete hook inspects, and the table its
      validations check. */
  const ImageTable: string := "Image"
  const FilesetTable: string := "Fileset"

  /** `DeleteStepFactory.create`: a delete step built from exactly the given
      position, stack, specification, entry and ids. */
  function Create(idx: int, stack: seq<GraphStep>, spec: GraphSpec,
                  entry: GraphEntry, ids: Option<seq<Long>>): (step: GraphStep)
    ensures step.DeleteStep?
    ensures step.idx == idx && step.stack == stack && step.spec == spec
    ensures step.entry == entry && step.ids == ids
    ensures step.Table() == entry.table
  {
    DeleteStep(idx, stack, spec, entry, ids)
  }

  /** A step the delete hook acts on: an Image step with a non-null,
      non-empty id array. */
  predicate NeedsFilesetCheck(step: GraphStep) {
    step.Table() == ImageTable && step.ids.Some? && |step.ids.value| > 0
  }

  /** The validation appended for `step`: a copy of its position, stack,
      specification, entry and ids, checking the Fileset of its last id. */
  function FilesetValidation(step: GraphStep, filesetOf: Long -> Option<Long>): GraphStep
    requires NeedsFilesetCheck(step)
  {
    DeleteValidation(step.idx, step.stack, step.spec, step.entry, step.ids,
                     FilesetTable, filesetOf(Last(step.ids.value)))
  }

  /** The validations the delete hook appends after scanning `steps`, in the
      order the loop appends them. */
  function FilesetValidations(steps: seq<GraphStep>, filesetOf: Long -> Option<Long>): seq<GraphStep>
  {
    if steps == [] then []
    else
      var step := Last(steps);
      FilesetValidations(steps[..|steps| - 1], filesetOf)
        + (if NeedsFilesetCheck(step) then [FilesetValidation(step, filesetOf)] else [])
  }

  /** Reference definition: the steps that need a Fileset check, in plan
      order. */
  function CheckedSteps(steps: seq<GraphStep>): (r: seq<GraphStep>)
    ensures forall k :: 0 <= k < |r| ==> NeedsFilesetCheck(r[k])
    ensures forall x :: x in r <==> x in steps && NeedsFilesetCheck(x)
    ensures |r| <= |steps|
  {
    if steps == [] then []
    else (if NeedsFilesetCheck(steps[0]) then [steps[0]] else []) + CheckedSteps(steps[1..])
  }

  /** Scanning two parts of a plan appends the validations of each part, one
      after the other. */
  lemma {:induction false} FilesetValidationsAppend(a: seq<GraphStep>, b: seq<GraphStep>,
                                                    filesetOf: Long -> Option<Long>)
    ensures FilesetValidations(a + b, filesetOf)
         == FilesetValidations(a, filesetOf) + FilesetValidations(b, filesetOf)
  {
    if b == [] {
      assert a + b == a;
    } else {
      var b' := b[..|b| - 1];
      assert (a + b)[..|a + b| - 1] == a + b';
      assert Last(a + b) == Last(b);
      FilesetValidationsAppend(a, b', filesetOf);
    }
  }

  /** Exactly one validation per Image step with non-empty ids, in the order
      those steps occur; each copies its step's idx, stack, spec, entry and
      ids, is tagged Fileset, and carries the lookup of the step's LAST id. */
  lemma {:induction false} FilesetValidationsPerCheckedStep(steps: seq<GraphStep>,
                                                           filesetOf: Long -> Option<Long>)
    ensures |FilesetValidations(steps, filesetOf)| == |CheckedSteps(steps)|
    ensures forall k :: 0 <= k < |CheckedSteps(steps)| ==>
      var step := CheckedSteps(steps)[k];
      FilesetValidations(steps, filesetOf)[k]
        == DeleteValidation(step.idx, step.stack, step.spec, step.entry, step.ids,
                            FilesetTable, filesetOf(Last(step.ids.value)))
  {
    if steps != [] {
      var head, tail := steps[..1], steps[1..];
      assert steps == head + tail;
      FilesetValidationsAppend(head, tail, filesetOf);
      assert head[..0] == [];
      FilesetValidationsPerCheckedStep(tail, filesetOf);
    }
  }

  /** A plan without Image steps that carry ids gets no validation at all. */
  lemma {:induction false} NoCheckedStepsNoValidations(steps: seq<GraphStep>,
                                                       filesetOf: Long -> Option<Long>)
    requires forall k :: 0 <= k < |steps| ==> !NeedsFilesetCheck(steps[k])
    ensures FilesetValidations(steps, filesetOf) == []
  {
    if steps != [] {
      NoCheckedStepsNoValidations(steps[..|steps| - 1], filesetOf);
    }
  }

  /** The lookup is consulted only at the last id of each checked step: two
      lookups that agree there give the same validations. */
  lemma {:induction false} FilesetValidationsUseLastIdOnly(steps: seq<GraphStep>,
                                                          f: Long -> Option<Long>,
                                                          g: Long -> Option<Long>)
    requires forall k :: 0 <= k < |steps| && NeedsFilesetCheck(steps[k]) ==>
               f(Last(steps[k].ids.value)) == g(Last(steps[k].ids.value))
    ensures FilesetValidations(steps, f) == FilesetValidations(steps, g)
  {
    if steps != [] {
      FilesetValidationsUseLastIdOnly(steps[..|steps| - 1], f, g);
    }
  }

  /** Every appended validation keeps its Image entry and its ids, so it
      would itself qualify for a check: a scan up to the current length rather
      than up to `originalSize` would never stop growing the plan. */
  lemma {:induction false} ValidationsWouldQualifyAgain(steps: seq<GraphStep>,
                                                       filesetOf: Long -> Option<Long>)
    ensures forall k :: 0 <= k < |FilesetValidations(steps, filesetOf)| ==>
              NeedsFilesetCheck(FilesetValidations(steps, filesetOf)[k])
  {
    if steps != [] {
      ValidationsWouldQualifyAgain(steps[..|steps| - 1], filesetOf);
    }
  }

  /** A freshly created Image step with ids gets exactly one validation;
      one whose ids are null or empty gets none. */
  lemma CreatedStepValidations(idx: int, stack: seq<GraphStep>, spec: GraphSpec,
                               entry: GraphEntry, ids: Option<seq<Long>>,
                               filesetOf: Long -> Option<Long>)
    ensures entry.table == ImageTable && ids.Some? && |ids.value| > 0 ==>
      FilesetValidations([Create(idx, stack, spec, entry, ids)], filesetOf)
        == [DeleteValidation(idx, stack, spec, entry, ids, FilesetTable,
                             filesetOf(Last(ids.value)))]
    ensures ids.None? || |ids.value| == 0 ==>
      FilesetValidations([Create(idx, stack, spec, entry, ids)], filesetOf) == []
  {
    var s := [Create(idx, stack, spec, entry, ids)];
    assert s[..0] == [];
  }

  /** Which `onPostProcess` a factory runs: the base class's default or the
      delete factory's override. */
  datatype Hook = NoOpHook | FilesetHook

  /** What a hook appends after scanning `base`. */
  function Appended(hook: Hook, base: seq<GraphStep>, filesetOf: Long -> Option<Long>): seq<GraphStep>
  {
    match hook
    case NoOpHook => []
    case FilesetHook => FilesetValidations(base, filesetOf)
  }

  /** A step factory. `originalSize` is the plan length recorded by
      `PostProcess`; `filesetOf` stands for the session query
      that looks up the Fileset id of an Image by its id. */
  class StepFactory {
    var originalSize: int
    const hook: Hook

    constructor (hook: Hook)
      ensures this.hook == hook && originalSize == 0
    {
      this.hook := hook;
      originalSize := 0;
    }

    /** `postProcess`: records the plan length, runs the hook, and wraps the
        same list, so the plan holds the original steps unchanged followed by
        what the hook appended after scanning exactly those steps. */
    method PostProcess(steps: StepList, filesetOf: Long -> Option<Long>) returns (plan: GraphSteps)
      modifies this, steps
      ensures originalSize == |old(steps.elems)|
      ensures fresh(plan) && plan.steps == steps
      ensures steps.elems == old(steps.elems) + Appended(hook, old(steps.elems), filesetOf)
    {
      originalSize := |steps.elems|;
      assert steps.elems[..originalSize] == steps.elems;
      OnPostProcess(steps, filesetOf);
      plan := new GraphSteps(steps);
    }

    /** Dispatches to the hook this factory overrides with. */
    method OnPostProcess(steps: StepList, filesetOf: Long -> Option<Long>)
      requires 0 <= originalSize <= |steps.elems|
      modifies steps
      ensures steps.elems
           == old(steps.elems) + Appended(hook, old(steps.elems)[..originalSize], filesetOf)
    {
      match hook
      case NoOpHook => DefaultOnPostProcess(steps);
      case FilesetHook => FilesetOnPostProcess(steps, filesetOf);
    }

    /** The base class's hook: leaves the list as it is. */
    method DefaultOnPostProcess(steps: StepList)
      ensures steps.elems == old(steps.elems)
    {
    }

    /** The delete factory's hook: scans positions `0 .. originalSize-1` only
        and appends one validation per Image step with a non-empty id array. */
    method FilesetOnPostProcess(steps: StepList, filesetOf: Long -> Option<Long>)
      requires 0 <= originalSize <= |steps.elems|
      modifies steps
      ensures steps.elems
           == old(steps.elems) + FilesetValidations(old(steps.elems)[..originalSize], filesetOf)
    {
      ghost var base := steps.elems;
      var i := 0;
      while i < originalSize
        invariant 0 <= i <= originalSize
        invariant steps.elems == base + FilesetValidations(base[..i], filesetOf)
      {
        var step := steps.elems[i];
        assert step == base[i];
        assert base[..i + 1][..i] == base[..i];
        if step.Table() == ImageTable {
          var ids := step.ids;
          if ids.None? || |ids.value| == 0 {
            i := i + 1;
            continue;
          }
          var rv := filesetOf(ids.value[|ids.value| - 1]);
          var filesetId: Option<Long> := None;
          if rv.Some? {
            filesetId := rv;
          }
          steps.Add(DeleteValidation(step.idx, step.stack, step.spec, step.entry, step.ids,
                                     FilesetTable, filesetId));
        }
        i := i + 1;
      }
    }
  }
}
