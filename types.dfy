/** The planning dashboard's record types (apps/web/src/types/index.ts). */
module Types {
  import opened Wrappers

  /** The six kinds of work a body of work can be. */
  datatype WorkType =
    | FeatureRequest
    | IterativeImprovements
    | BrandNewApp
    | NewIntegration
    | ProcessAlteration
    | Other

  /** The string each kind is stored and displayed as. */
  function WorkTypeName(t: WorkType): string {
    match t
    case FeatureRequest => "Feature Request to existing App"
    case IterativeImprovements => "Iterative Improvements to existing feature(s)"
    case BrandNewApp => "Brand New App/Initiative"
    case NewIntegration => "New Integration to existing App"
    case ProcessAlteration => "Alterations to Process/App Component"
    case Other => "Other"
  }

  /** The kinds in the order the new-work form lists them. */
  const AllWorkTypes: seq<WorkType> :=
    [FeatureRequest, IterativeImprovements, BrandNewApp, NewIntegration, ProcessAlteration, Other]

  /** There are exactly six kinds, each listed once, each with its own name,
      and one of them is "Other". */
  lemma WorkTypesEnumerated()
    ensures |AllWorkTypes| == 6
    ensures forall t: WorkType :: t in AllWorkTypes
    ensures forall i, j :: 0 <= i < j < |AllWorkTypes| ==> AllWorkTypes[i] != AllWorkTypes[j]
    ensures forall t, u :: WorkTypeName(t) == WorkTypeName(u) ==> t == u
    ensures WorkTypeName(Other) == "Other"
  {
    forall t: WorkType ensures t in AllWorkTypes {
      match t
      case FeatureRequest => assert AllWorkTypes[0] == t;
      case IterativeImprovements => assert AllWorkTypes[1] == t;
      case BrandNewApp => assert AllWorkTypes[2] == t;
      case NewIntegration => assert AllWorkTypes[3] == t;
      case ProcessAlteration => assert AllWorkTypes[4] == t;
      case Other => assert AllWorkTypes[5] == t;
    }
  }

  /** The three stages of the planning workflow. */
  datatype WorkflowState = Draft | SpecGenerated | ReadyForDevelopment

  function WorkflowStateName(s: WorkflowState): string {
    match s
    case Draft => "Draft"
    case SpecGenerated => "Spec Generated"
    case ReadyForDevelopment => "Ready for Development"
  }

  const AllWorkflowStates: seq<WorkflowState> := [Draft, SpecGenerated, ReadyForDevelopment]

  /** Exactly three states, told apart by their names. */
  lemma WorkflowStatesEnumerated()
    ensures |AllWorkflowStates| == 3
    ensures forall s: WorkflowState :: s in AllWorkflowStates
    ensures forall i, j :: 0 <= i < j < |AllWorkflowStates| ==> AllWorkflowStates[i] != AllWorkflowStates[j]
    ensures forall s, u :: WorkflowStateName(s) == WorkflowStateName(u) ==> s == u
  {
    forall s: WorkflowState ensures s in AllWorkflowStates {
      match s
      case Draft => assert AllWorkflowStates[0] == s;
      case SpecGenerated => assert AllWorkflowStates[1] == s;
      case ReadyForDevelopment => assert AllWorkflowStates[2] == s;
    }
  }

  /** What a context reference points at: a file path or a markdown document. */
  datatype RefKind = PathRef | MarkdownRef

  function RefKindName(k: RefKind): string {
    match k
    case PathRef => "path"
    case MarkdownRef => "markdown"
  }

  /** A named pointer attached to a body of work; `value` is the path or the
      markdown text, `displayLabel` its display name (the `label` property). */
  datatype ContextReference = ContextReference(id: string, kind: RefKind, value: string, displayLabel: string)

  /** A tracked body of work. Optional properties are `Option`s; timestamps
      are the ISO-8601 strings the store writes. */
  datatype BodyOfWork = BodyOfWork(
    id: string,
    title: string,
    workType: WorkType,
    typeOther: Option<string>,
    description: string,
    repo: Option<string>,
    contextReferences: seq<ContextReference>,
    workflowState: WorkflowState,
    generatedSpec: Option<string>,
    createdAt: string,
    updatedAt: string)

  /** What a caller supplies to create a body of work: a `BodyOfWork` without
      id, workflow state, generated spec and timestamps. */
  datatype CreateBodyOfWorkInput = CreateBodyOfWorkInput(
    title: string,
    workType: WorkType,
    typeOther: Option<string>,
    description: string,
    repo: Option<string>,
    contextReferences: seq<ContextReference>)

  /** The clarifying text is meant to accompany the "Other" kind only. */
  predicate TypeOtherOnlyForOther(typeOther: Option<string>, workType: WorkType) {
    typeOther.Some? ==> workType == Other
  }

  /** Context reference ids are distinct within one list. */
  predicate DistinctRefIds(refs: seq<ContextReference>) {
    forall i, j :: 0 <= i < j < |refs| ==> refs[i].id != refs[j].id
  }

  /** Body-of-work ids are distinct within the collection. */
  predicate DistinctIds(items: seq<BodyOfWork>) {
    forall i, j :: 0 <= i < j < |items| ==> items[i].id != items[j].id
  }

  /** Whether some item carries `id`. */
  predicate HasId(items: seq<BodyOfWork>, id: string) {
    exists i :: 0 <= i < |items| && items[i].id == id
  }
}
