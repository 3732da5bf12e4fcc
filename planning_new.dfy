/** The new-work form (apps/web/src/routes/planning.new.tsx): the editable
    context-reference list and the validation and input construction done on
    submit, which hands the input to the work-item store. */
module PlanningNew {
  import opened Wrappers
  import opened Text
  import opened Types
  import Seqs
  import Storage

  /** Why a submit is refused (the two `alert` branches). */
  datatype SubmitError =
    | MissingRequired   // title or description blank
    | MissingOtherType  // "Other" chosen without saying which

  /** The input `handleSubmit` builds from the form fields, or the reason it
      refuses to build one. */
  function BuildInput(
    title: string, workType: WorkType, typeOther: string,
    description: string, repo: string, refs: seq<ContextReference>
  ): (r: Result<CreateBodyOfWorkInput, SubmitError>)
    ensures r == Failure(MissingRequired) <==> IsBlank(title) || IsBlank(description)
    ensures r == Failure(MissingOtherType) <==>
      !IsBlank(title) && !IsBlank(description) && workType == Other && IsBlank(typeOther)
    ensures r.Success? ==> r.value.workType == workType && r.value.contextReferences == refs
    ensures r.Success? ==> r.value.title == Trim(title) && r.value.description == Trim(description)
    ensures r.Success? ==> (r.value.typeOther.Some? <==> workType == Other)
    ensures r.Success? && workType == Other ==> r.value.typeOther == Some(Trim(typeOther))
    ensures r.Success? ==> (r.value.repo.Some? <==> !IsBlank(repo))
    ensures r.Success? && !IsBlank(repo) ==> r.value.repo == Some(Trim(repo))
  {
    if IsBlank(title) || IsBlank(description) then Failure(MissingRequired)
    else if workType == Other && IsBlank(typeOther) then Failure(MissingOtherType)
    else
      Success(CreateBodyOfWorkInput(
        Trim(title),
        workType,
        if workType == Other then Some(Trim(typeOther)) else None,
        Trim(description),
        if Trim(repo) == [] then None else Some(Trim(repo)),
        refs))
  }

  /** Text that is non-blank and has nothing left to trim. */
  predicate Clean(s: string) {
    !IsBlank(s) && Trim(s) == s
  }

  /** Trimming a non-blank string leaves clean text. */
  lemma TrimIsClean(s: string)
    requires !IsBlank(s)
    ensures Clean(Trim(s))
  {
    TrimIdempotent(s);
  }

  /** Every input the form lets through is well formed: title and description
      are clean, the clarifying text appears only for "Other" and is clean,
      and a repository, when given, is clean. */
  lemma SubmittedInputIsClean(
    title: string, workType: WorkType, typeOther: string,
    description: string, repo: string, refs: seq<ContextReference>)
    requires BuildInput(title, workType, typeOther, description, repo, refs).Success?
    ensures var v := BuildInput(title, workType, typeOther, description, repo, refs).value;
      && TypeOtherOnlyForOther(v.typeOther, v.workType)
      && Clean(v.title) && Clean(v.description)
      && (v.typeOther.Some? ==> Clean(v.typeOther.value))
      && (v.repo.Some? ==> Clean(v.repo.value))
  {
    TrimIsClean(title);
    TrimIsClean(description);
    if workType == Other {
      TrimIsClean(typeOther);
    }
    if !IsBlank(repo) {
      TrimIsClean(repo);
    }
  }

  /** Re-submitting the fields of an accepted input yields the same input:
      building is idempotent on its own output. */
  lemma BuildInputIdempotent(
    title: string, workType: WorkType, typeOther: string,
    description: string, repo: string, refs: seq<ContextReference>)
    requires BuildInput(title, workType, typeOther, description, repo, refs).Success?
    ensures var v := BuildInput(title, workType, typeOther, description, repo, refs).value;
      BuildInput(v.title, v.workType, v.typeOther.GetOr(""), v.description, v.repo.GetOr(""), v.contextReferences)
        == Success(v)
  {
    SubmittedInputIsClean(title, workType, typeOther, description, repo, refs);
    assert Trim("") == [];
  }

  /** The predicate `ref => ref.id !== id`. */
  function RefNotId(id: string): ContextReference -> bool {
    (ref: ContextReference) => ref.id != id
  }

  /** The list without every reference carrying `id`. */
  function WithoutRef(refs: seq<ContextReference>, id: string): (r: seq<ContextReference>)
    ensures forall ref :: ref in r <==> ref in refs && ref.id != id
    ensures |r| <= |refs|
  {
    Seqs.Filter(refs, RefNotId(id))
  }

  /** No reference in the list carries `id`. */
  predicate FreshRefId(refs: seq<ContextReference>, id: string) {
    forall i :: 0 <= i < |refs| ==> refs[i].id != id
  }

  /** Removing a reference that was just added with a fresh id restores the
      list as it was. */
  lemma RemoveUndoesAdd(refs: seq<ContextReference>, ref: ContextReference)
    requires FreshRefId(refs, ref.id)
    ensures WithoutRef(refs + [ref], ref.id) == refs
  {
    var keep := RefNotId(ref.id);
    Seqs.FilterAppend(refs, [ref], keep);
    Seqs.FilterKeepsAll(refs, keep);
    assert Seqs.Filter([ref], keep) == [] by {
      assert !keep(ref);
      assert [ref][1..] == [];
    }
    assert refs + [] == refs;
  }

  /** Removal keeps the order of what remains: it distributes over
      concatenation. */
  lemma RemoveKeepsOrder(a: seq<ContextReference>, b: seq<ContextReference>, id: string)
    ensures WithoutRef(a + b, id) == WithoutRef(a, id) + WithoutRef(b, id)
  {
    Seqs.FilterAppend(a, b, RefNotId(id));
  }

  /** Removal keeps reference ids distinct. */
  lemma {:induction false} RemoveKeepsDistinct(refs: seq<ContextReference>, id: string)
    requires DistinctRefIds(refs)
    ensures DistinctRefIds(WithoutRef(refs, id))
  {
    if refs != [] {
      var rest := refs[1..];
      assert DistinctRefIds(rest) by {
        forall i, j | 0 <= i < j < |rest| ensures rest[i].id != rest[j].id {
          assert rest[i] == refs[i + 1] && rest[j] == refs[j + 1];
        }
      }
      RemoveKeepsDistinct(rest, id);
      assert refs == [refs[0]] + rest;
      RemoveKeepsOrder([refs[0]], rest, id);
      var tail := WithoutRef(rest, id);
      forall j | 0 <= j < |tail| ensures refs[0].id != tail[j].id {
        assert tail[j] in rest;
      }
    }
  }

  /** The form's state variables. */
  class NewBodyOfWorkForm {
    var title: string
    var workType: WorkType
    var typeOther: string
    var description: string
    var repo: string
    var contextReferences: seq<ContextReference>
    var newRefType: RefKind
    var newRefValue: string
    var newRefLabel: string

    /** The initial field values. */
    constructor ()
      ensures title == "" && workType == FeatureRequest && typeOther == ""
      ensures description == "" && repo == "" && contextReferences == []
      ensures newRefType == PathRef && newRefValue == "" && newRefLabel == ""
    {
      title := "";
      workType := FeatureRequest;
      typeOther := "";
      description := "";
      repo := "";
      contextReferences := [];
      newRefType := PathRef;
      newRefValue := "";
      newRefLabel := "";
    }

    /** `handleAddContextReference`, with `freshId` for the generated
        `ref_…` id. A blank value or label changes nothing; otherwise the
        reference is appended with its value and label as typed, and both
        inputs are cleared. */
    method AddContextReference(freshId: string)
      modifies this
      ensures IsBlank(old(newRefValue)) || IsBlank(old(newRefLabel)) ==>
        contextReferences == old(contextReferences)
        && newRefValue == old(newRefValue) && newRefLabel == old(newRefLabel)
      ensures !IsBlank(old(newRefValue)) && !IsBlank(old(newRefLabel)) ==>
        contextReferences == old(contextReferences)
          + [ContextReference(freshId, newRefType, old(newRefValue), old(newRefLabel))]
        && newRefValue == "" && newRefLabel == ""
      ensures DistinctRefIds(old(contextReferences)) && FreshRefId(old(contextReferences), freshId) ==>
        DistinctRefIds(contextReferences)
      ensures title == old(title) && workType == old(workType) && typeOther == old(typeOther)
      ensures description == old(description) && repo == old(repo) && newRefType == old(newRefType)
    {
      if IsBlank(newRefValue) || IsBlank(newRefLabel) {
        return;
      }
      var ref := ContextReference(freshId, newRefType, newRefValue, newRefLabel);
      contextReferences := contextReferences + [ref];
      newRefValue := "";
      newRefLabel := "";
    }

    /** `handleRemoveContextReference`: drops every reference with `id`. */
    method RemoveContextReference(id: string)
      modifies this
      ensures contextReferences == WithoutRef(old(contextReferences), id)
      ensures DistinctRefIds(old(contextReferences)) ==> DistinctRefIds(contextReferences)
      ensures title == old(title) && workType == old(workType) && typeOther == old(typeOther)
      ensures description == old(description) && repo == old(repo) && newRefType == old(newRefType)
      ensures newRefValue == old(newRefValue) && newRefLabel == old(newRefLabel)
    {
      if DistinctRefIds(contextReferences) {
        RemoveKeepsDistinct(contextReferences, id);
      }
      contextReferences := Seqs.Filter(contextReferences, RefNotId(id));
    }

    /** What submitting the current fields builds, or why it is refused. */
    function Submission(): Result<CreateBodyOfWorkInput, SubmitError>
      reads this
    {
      BuildInput(title, workType, typeOther, description, repo, contextReferences)
    }

    /** `handleSubmit`: refuses with nothing created when validation fails,
        and otherwise creates the body of work in `store` (with `id` and
        `now` for the generated id and the clock) and returns it. */
    method HandleSubmit(store: Storage.StorageService, id: string, now: string)
      returns (r: Result<BodyOfWork, SubmitError>)
      requires !HasId(store.All(), id)
      modifies store
      ensures r == Outcome(old(Submission()), id, now)
      ensures r.Failure? ==> store.slot == old(store.slot)
      ensures r.Success? ==> store.slot == Storage.Saved(old(store.All()) + [r.value])
    {
      r := Submit(store, Submission(), id, now);
    }
  }

  /** What a submit returns for a built input: the refusal, or the body of
      work the store creates from the input. */
  function Outcome(built: Result<CreateBodyOfWorkInput, SubmitError>, id: string, now: string)
    : Result<BodyOfWork, SubmitError>
  {
    match built
    case Failure(e) => Failure(e)
    case Success(input) => Success(Storage.NewBodyOfWork(input, id, now))
  }

  /** The store side of `handleSubmit`, given what validation built. */
  method Submit(store: Storage.StorageService, built: Result<CreateBodyOfWorkInput, SubmitError>, id: string, now: string)
    returns (r: Result<BodyOfWork, SubmitError>)
    requires !HasId(store.All(), id)
    modifies store
    ensures r == Outcome(built, id, now)
    ensures r.Failure? ==> store.slot == old(store.slot)
    ensures r.Success? ==> store.slot == Storage.Saved(old(store.All()) + [r.value])
  {
    if built.Failure? {
      return Failure(built.error);
    }
    var b := store.CreateBodyOfWork(built.value, id, now);
    r := Success(b);
  }

  /** A submit is refused exactly when a required field is blank, and an
      accepted submit yields a new Draft item with id `id` whose title and
      description are the clean, trimmed text typed into the form. */
  lemma SubmitOutcomeIff(
    title: string, workType: WorkType, typeOther: string,
    description: string, repo: string, refs: seq<ContextReference>, id: string, now: string)
    ensures var o := Outcome(BuildInput(title, workType, typeOther, description, repo, refs), id, now);
      o.Failure? <==> IsBlank(title) || IsBlank(description) || (workType == Other && IsBlank(typeOther))
    ensures var o := Outcome(BuildInput(title, workType, typeOther, description, repo, refs), id, now);
      o.Success? ==>
        && o.value.id == id && o.value.workflowState == Draft && o.value.generatedSpec == None
        && o.value.title == Trim(title) && Clean(o.value.title)
        && o.value.description == Trim(description) && Clean(o.value.description)
        && o.value.contextReferences == refs
  {
    var built := BuildInput(title, workType, typeOther, description, repo, refs);
    if built.Success? {
      SubmittedInputIsClean(title, workType, typeOther, description, repo, refs);
    }
  }
}
