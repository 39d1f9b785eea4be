/** The plan a graph delete is carried out from: its steps, the mutable list
    the plan builder fills, and the `GraphSteps` container that wraps it. */
module Graphs {
  import opened Common

  /** A per-type delete specification. Its contents are configuration that the
      post-processing pass only copies, never inspects. */
  datatype GraphSpec = GraphSpec(name: string)

  /** One entry of a specification: a path, and the table that the steps made
      from it act on. */
  datatype GraphEntry = GraphEntry(path: string, table: string)

  /** One unit of a plan. `stack` holds the steps created before this one;
      `ids` is the resolved row-id array, `None` when it is `null`.
      A `DeleteValidation` also names the table it checks and the foreign id
      it found there (`None` when the lookup found nothing). */
  datatype GraphStep =
    | DeleteStep(idx: int, stack: seq<GraphStep>, spec: GraphSpec,
                 entry: GraphEntry, ids: Option<seq<Long>>)
    | DeleteValidation(idx: int, stack: seq<GraphStep>, spec: GraphSpec,
                       entry: GraphEntry, ids: Option<seq<Long>>,
                       checkTable: string, checkId: Option<Long>)
  {
    /** The table the step acts on, taken from its entry. */
    function Table(): string { entry.table }
  }

  /** The `java.util.List<GraphStep>` that the plan builder fills and that
      post-processing extends in place. */
  class StepList {
    var elems: seq<GraphStep>

    constructor (init: seq<GraphStep>)
      ensures elems == init
    {
      elems := init;
    }

    /** `List.add`: appends at the end and changes nothing else. */
    method Add(step: GraphStep)
      modifies this
      ensures elems == old(elems) + [step]
    {
      elems := elems + [step];
    }
  }

  /** The finished plan: it wraps the very list it was built from. */
  class GraphSteps {
    const steps: StepList

    constructor (steps: StepList)
      ensures this.steps == steps
    {
      this.steps := steps;
    }
  }
}
