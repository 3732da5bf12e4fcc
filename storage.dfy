/** The work-item store (apps/web/src/services/storage.ts): one ordered list
    of bodies of work kept under a single local-storage key. Every mutator
    reads the whole list, changes it and writes it back. */
module Storage {
  import opened Wrappers
  import opened Types
  import Seqs

  /** The local-storage key the list lives under. */
  const StorageKey: string := "apdevflow_bodies_of_work"

  /** What the storage key holds: nothing, text that does not parse, or a
      serialised list. */
  datatype Slot = Absent | Corrupt | Saved(items: seq<BodyOfWork>)

  /** A partial update. Properties the caller leaves out are `None`; an
      optional property set to `undefined` is `Some(None)` and clears it.
      There is no `id` and no `createdAt`; a supplied `updatedAt` is
      overwritten by the store. */
  datatype BodyOfWorkUpdate = BodyOfWorkUpdate(
    title: Option<string>,
    workType: Option<WorkType>,
    typeOther: Option<Option<string>>,
    description: Option<string>,
    repo: Option<Option<string>>,
    contextReferences: Option<seq<ContextReference>>,
    workflowState: Option<WorkflowState>,
    generatedSpec: Option<Option<string>>,
    updatedAt: Option<string>)

  const NoChanges: BodyOfWorkUpdate :=
    BodyOfWorkUpdate(None, None, None, None, None, None, None, None, None)

  /** The update `updateWorkflowState` passes on: `{ workflowState: state }`. */
  function StateUpdate(state: WorkflowState): BodyOfWorkUpdate {
    NoChanges.(workflowState := Some(state))
  }

  /** `all.findIndex(bow => bow.id === id)`: the first index holding `id`,
      or -1. */
  function IndexOfId(items: seq<BodyOfWork>, id: string): (r: int)
    ensures -1 <= r < |items|
    ensures r == -1 <==> !HasId(items, id)
    ensures 0 <= r ==> items[r].id == id
    ensures 0 <= r ==> forall j :: 0 <= j < r ==> items[j].id != id
  {
    if items == [] then -1
    else if items[0].id == id then 0
    else
      var k := IndexOfId(items[1..], id);
      assert forall j :: 1 <= j < |items| ==> items[j] == items[1..][j - 1];
      if k == -1 then -1 else k + 1
  }

  /** `all.find(bow => bow.id === id) || null`. */
  function FindById(items: seq<BodyOfWork>, id: string): (r: Option<BodyOfWork>)
    ensures r.None? <==> !HasId(items, id)
    ensures r.Some? ==> r.value.id == id
    ensures r.Some? ==> exists i :: (0 <= i < |items| && items[i] == r.value
                                     && forall j :: 0 <= j < i ==> items[j].id != id)
  {
    var i := IndexOfId(items, id);
    if i == -1 then None else Some(items[i])
  }

  /** The predicate `bow => bow.id !== id`. */
  function NotId(id: string): BodyOfWork -> bool {
    (b: BodyOfWork) => b.id != id
  }

  /** `all.filter(bow => bow.id !== id)`. */
  function WithoutId(items: seq<BodyOfWork>, id: string): (r: seq<BodyOfWork>)
    ensures forall b :: b in r <==> b in items && b.id != id
    ensures |r| == |items| <==> !HasId(items, id)
    ensures !HasId(items, id) ==> r == items
  {
    Seqs.FilterKeepsAll(items, NotId(id));
    Seqs.Filter(items, NotId(id))
  }

  /** Filtering cannot make two ids collide. */
  lemma {:induction false} FilterKeepsDistinctIds(items: seq<BodyOfWork>, keep: BodyOfWork -> bool)
    requires DistinctIds(items)
    ensures DistinctIds(Seqs.Filter(items, keep))
  {
    if items != [] {
      var rest := Seqs.Filter(items[1..], keep);
      FilterKeepsDistinctIds(items[1..], keep);
      if keep(items[0]) {
        forall j | 0 <= j < |rest| ensures items[0].id != rest[j].id {
          assert rest[j] in items[1..];
        }
      }
    }
  }

  /** Deleting keeps the ids distinct. */
  lemma WithoutIdKeepsDistinctIds(items: seq<BodyOfWork>, id: string)
    requires DistinctIds(items)
    ensures DistinctIds(WithoutId(items, id))
  {
    FilterKeepsDistinctIds(items, NotId(id));
  }

  /** The record `createBodyOfWork` builds: the generated id, then the input's
      properties, then the state and the two timestamps, which the input
      therefore cannot override. */
  function NewBodyOfWork(input: CreateBodyOfWorkInput, id: string, now: string): (b: BodyOfWork)
    ensures b.id == id && b.workflowState == Draft
    ensures b.createdAt == now && b.updatedAt == now && b.generatedSpec == None
    ensures b.title == input.title && b.workType == input.workType && b.typeOther == input.typeOther
    ensures b.description == input.description && b.repo == input.repo
    ensures b.contextReferences == input.contextReferences
  {
    BodyOfWork(id, input.title, input.workType, input.typeOther, input.description, input.repo,
               input.contextReferences, Draft, None, now, now)
  }

  /** `{ ...existing, ...updates, updatedAt: now }`. */
  function Merge(b: BodyOfWork, u: BodyOfWorkUpdate, now: string): (r: BodyOfWork)
    ensures r.id == b.id && r.createdAt == b.createdAt && r.updatedAt == now
    ensures r.title == u.title.GetOr(b.title)
    ensures r.workType == u.workType.GetOr(b.workType)
    ensures r.typeOther == u.typeOther.GetOr(b.typeOther)
    ensures r.description == u.description.GetOr(b.description)
    ensures r.repo == u.repo.GetOr(b.repo)
    ensures r.contextReferences == u.contextReferences.GetOr(b.contextReferences)
    ensures r.workflowState == u.workflowState.GetOr(b.workflowState)
    ensures r.generatedSpec == u.generatedSpec.GetOr(b.generatedSpec)
  {
    BodyOfWork(
      b.id,
      u.title.GetOr(b.title),
      u.workType.GetOr(b.workType),
      u.typeOther.GetOr(b.typeOther),
      u.description.GetOr(b.description),
      u.repo.GetOr(b.repo),
      u.contextReferences.GetOr(b.contextReferences),
      u.workflowState.GetOr(b.workflowState),
      u.generatedSpec.GetOr(b.generatedSpec),
      b.createdAt,
      now)
  }

  /** Reading back a freshly created item by its id finds it, in the Draft
      state with equal creation and update times. */
  lemma {:induction false} CreateThenFind(items: seq<BodyOfWork>, input: CreateBodyOfWorkInput, id: string, now: string)
    requires !HasId(items, id)
    ensures var b := NewBodyOfWork(input, id, now);
      FindById(items + [b], id) == Some(b) && b.workflowState == Draft && b.createdAt == b.updatedAt
  {
    var b := NewBodyOfWork(input, id, now);
    var all := items + [b];
    assert all[|items|] == b;
    assert forall j :: 0 <= j < |items| ==> all[j] == items[j];
    assert IndexOfId(all, id) == |items|;
  }

  /** After an update the item is found under the same id, carrying the
      merged fields. */
  lemma UpdateThenFind(items: seq<BodyOfWork>, id: string, u: BodyOfWorkUpdate, now: string)
    requires 0 <= IndexOfId(items, id)
    ensures var i := IndexOfId(items, id);
      FindById(items[i := Merge(items[i], u, now)], id) == Some(Merge(items[i], u, now))
  {
    var i := IndexOfId(items, id);
    var after := items[i := Merge(items[i], u, now)];
    assert after[i].id == id;
    assert HasId(after, id);
    assert forall j :: 0 <= j < i ==> after[j] == items[j];
    var k := IndexOfId(after, id);
    assert !(k < i) && !(i < k);
  }

  /** After a delete nothing carries the id any more. */
  lemma DeleteThenFind(items: seq<BodyOfWork>, id: string)
    ensures FindById(WithoutId(items, id), id) == None
  {
  }

  /** With distinct ids, deleting a present id removes exactly one item and
      keeps the others in their order. */
  lemma DeleteRemovesExactlyOne(items: seq<BodyOfWork>, id: string)
    requires DistinctIds(items)
    requires HasId(items, id)
    ensures var i := IndexOfId(items, id);
      WithoutId(items, id) == items[..i] + items[i + 1..]
  {
    var i := IndexOfId(items, id);
    NoIdBefore(items, i, id);
    NoIdAfter(items, i, id);
    assert items == items[..i] + [items[i]] + items[i + 1..];
    SplitAtMatch(items[..i], items[i], items[i + 1..], id);
  }

  /** The items before the first match do not carry the id. */
  lemma NoIdBefore(items: seq<BodyOfWork>, i: int, id: string)
    requires 0 <= i <= |items|
    requires forall j :: 0 <= j < i ==> items[j].id != id
    ensures !HasId(items[..i], id)
  {
    forall k | 0 <= k < i ensures items[..i][k].id != id {
      assert items[..i][k] == items[k];
    }
  }

  /** With distinct ids, the items after a match do not carry its id. */
  lemma NoIdAfter(items: seq<BodyOfWork>, i: int, id: string)
    requires DistinctIds(items)
    requires 0 <= i < |items| && items[i].id == id
    ensures !HasId(items[i + 1..], id)
  {
    var post := items[i + 1..];
    forall k | 0 <= k < |post| ensures post[k].id != id {
      assert post[k] == items[i + 1 + k];
    }
  }

  /** Deleting from `pre + [x] + post`, where only `x` carries the id. */
  lemma SplitAtMatch(pre: seq<BodyOfWork>, x: BodyOfWork, post: seq<BodyOfWork>, id: string)
    requires x.id == id
    requires !HasId(pre, id) && !HasId(post, id)
    ensures WithoutId(pre + [x] + post, id) == pre + post
  {
    var keep := NotId(id);
    assert Seqs.Filter([x], keep) == [] by {
      assert !keep(x);
      assert [x][1..] == [];
    }
    Seqs.FilterAppend(pre, [x], keep);
    Seqs.FilterAppend(pre + [x], post, keep);
    assert WithoutId(pre, id) == pre;
    assert WithoutId(post, id) == post;
    assert pre + [] == pre;
  }

  /** Applying the same update twice is applying it once. */
  lemma MergeIdempotent(b: BodyOfWork, u: BodyOfWorkUpdate, now: string)
    ensures Merge(Merge(b, u, now), u, now) == Merge(b, u, now)
  {
  }

  /** A state update changes the workflow state and the update time and
      nothing else, whichever state the item was in and whichever it moves
      to. */
  lemma StateUpdateOnlyChangesState(b: BodyOfWork, state: WorkflowState, now: string)
    ensures Merge(b, StateUpdate(state), now) == b.(workflowState := state, updatedAt := now)
  {
  }

  /** The store facade. `slot` is the content of the storage key; `now` and
      fresh ids are supplied by the caller in place of the clock and the
      random generator. */
  class StorageService {
    var slot: Slot

    constructor (initial: Slot)
      ensures slot == initial
    {
      slot := initial;
    }

    /** The list as `getAllBodiesOfWork` reads it: absent and unparsable
        content both read as the empty list. */
    function All(): (r: seq<BodyOfWork>)
      reads this
      ensures slot.Saved? ==> r == slot.items
      ensures !slot.Saved? ==> r == []
    {
      if slot.Saved? then slot.items else []
    }

    method GetAllBodiesOfWork() returns (r: seq<BodyOfWork>)
      ensures slot.Saved? ==> r == slot.items
      ensures slot == Absent || slot == Corrupt ==> r == []
    {
      match slot
      case Saved(items) => r := items;
      case _ => r := [];
    }

    method GetBodyOfWorkById(id: string) returns (r: Option<BodyOfWork>)
      ensures r == FindById(All(), id)
    {
      var all := GetAllBodiesOfWork();
      r := FindById(all, id);
    }

    /** `saveBodiesOfWork`; a failing write is swallowed by the source and
        is not modelled. */
    method SaveBodiesOfWork(bodies: seq<BodyOfWork>)
      modifies this
      ensures slot == Saved(bodies)
    {
      slot := Saved(bodies);
    }

    method CreateBodyOfWork(input: CreateBodyOfWorkInput, id: string, now: string) returns (b: BodyOfWork)
      requires !HasId(All(), id)
      modifies this
      ensures b == NewBodyOfWork(input, id, now)
      ensures slot == Saved(old(All()) + [b])
      ensures DistinctIds(old(All())) ==> DistinctIds(All())
    {
      b := NewBodyOfWork(input, id, now);
      var all := GetAllBodiesOfWork();
      all := all + [b];
      SaveBodiesOfWork(all);
    }

    method UpdateBodyOfWork(id: string, updates: BodyOfWorkUpdate, now: string) returns (r: Option<BodyOfWork>)
      modifies this
      ensures IndexOfId(old(All()), id) == -1 ==> r == None && slot == old(slot)
      ensures var i := IndexOfId(old(All()), id);
        0 <= i ==> r == Some(Merge(old(All())[i], updates, now)) && slot == Saved(old(All())[i := r.value])
      ensures DistinctIds(old(All())) ==> DistinctIds(All())
    {
      var all := GetAllBodiesOfWork();
      var index := IndexOfId(all, id);
      if index == -1 {
        return None;
      }
      var updated := Merge(all[index], updates, now);
      all := all[index := updated];
      SaveBodiesOfWork(all);
      r := Some(updated);
    }

    /** Any state may follow any other: there is no transition guard. */
    method UpdateWorkflowState(id: string, state: WorkflowState, now: string) returns (r: Option<BodyOfWork>)
      modifies this
      ensures !HasId(old(All()), id) ==> r == None && slot == old(slot)
      ensures var i := IndexOfId(old(All()), id);
        0 <= i ==> (r == Some(old(All())[i].(workflowState := state, updatedAt := now))
                    && slot == Saved(old(All())[i := r.value]))
    {
      r := UpdateBodyOfWork(id, StateUpdate(state), now);
    }

    method DeleteBodyOfWork(id: string) returns (deleted: bool)
      modifies this
      ensures deleted == HasId(old(All()), id)
      ensures deleted ==> slot == Saved(WithoutId(old(All()), id))
      ensures !deleted ==> slot == old(slot)
      ensures DistinctIds(old(All())) ==> DistinctIds(All())
    {
      var all := GetAllBodiesOfWork();
      var filtered := WithoutId(all, id);
      if |filtered| == |all| {
        return false;
      }
      if DistinctIds(all) {
        WithoutIdKeepsDistinctIds(all, id);
      }
      SaveBodiesOfWork(filtered);
      deleted := true;
    }
  }
}
