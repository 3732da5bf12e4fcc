/** The dashboard (apps/web/src/routes/index.tsx): per-state counts over the
    stored work items, the "recent work" list and the state badge colour. */
module Dashboard {
  import opened Types
  import Seqs
  import Storage

  /** The predicate `b => b.workflowState === s`. */
  function InState(s: WorkflowState): BodyOfWork -> bool {
    (b: BodyOfWork) => b.workflowState == s
  }

  /** `items.filter(b => b.workflowState === s).length`. */
  function CountIn(items: seq<BodyOfWork>, s: WorkflowState): (r: nat)
    ensures r <= |items|
    ensures r == 0 <==> forall i :: 0 <= i < |items| ==> items[i].workflowState != s
  {
    var matching := Seqs.Filter(items, InState(s));
    assert matching == [] ==> forall i :: 0 <= i < |items| ==> items[i].workflowState != s by {
      if matching == [] {
        forall i | 0 <= i < |items| ensures items[i].workflowState != s {
          assert items[i] !in matching;
        }
      }
    }
    assert matching != [] ==> matching[0] in items;
    |matching|
  }

  /** The `stateCounts` record shown on the three stat cards. */
  datatype StateCounts = StateCounts(draft: nat, specGenerated: nat, readyForDevelopment: nat)

  function Counts(items: seq<BodyOfWork>): StateCounts {
    StateCounts(
      CountIn(items, Draft),
      CountIn(items, SpecGenerated),
      CountIn(items, ReadyForDevelopment))
  }

  /** How one more item changes a count: by one exactly when it is in that
      state. */
  lemma CountAppend(items: seq<BodyOfWork>, b: BodyOfWork, s: WorkflowState)
    ensures CountIn(items + [b], s) == CountIn(items, s) + (if b.workflowState == s then 1 else 0)
  {
    var keep := InState(s);
    Seqs.FilterAppend(items, [b], keep);
    assert [b][1..] == [];
  }

  /** The three counts add up to the number of items, because every item is
      in exactly one of the three workflow states. */
  lemma {:induction false} CountsSumToLength(items: seq<BodyOfWork>)
    ensures var c := Counts(items);
      c.draft + c.specGenerated + c.readyForDevelopment == |items|
  {
    if items != [] {
      var init := items[..|items| - 1];
      var last := items[|items| - 1];
      assert items == init + [last];
      CountsSumToLength(init);
      CountAppend(init, last, Draft);
      CountAppend(init, last, SpecGenerated);
      CountAppend(init, last, ReadyForDevelopment);
    }
  }

  /** Creating a body of work raises the Draft count by one and leaves the
      other two counts as they were. */
  lemma CreateRaisesDraftCount(items: seq<BodyOfWork>, input: CreateBodyOfWorkInput, id: string, now: string)
    ensures var before := Counts(items);
      Counts(items + [Storage.NewBodyOfWork(input, id, now)])
        == before.(draft := before.draft + 1)
  {
    var b := Storage.NewBodyOfWork(input, id, now);
    CountAppend(items, b, Draft);
    CountAppend(items, b, SpecGenerated);
    CountAppend(items, b, ReadyForDevelopment);
  }

  /** At most this many items are listed under "Recent Work". */
  const RecentLimit: nat := 5

  /** `items.slice(0, 5)`: the first five items in stored order. */
  function Recent(items: seq<BodyOfWork>): (r: seq<BodyOfWork>)
    ensures |r| == if |items| < RecentLimit then |items| else RecentLimit
    ensures r <= items
  {
    Seqs.Take(items, RecentLimit)
  }

  /** Since the store appends new items at the end, "recent" lists the
      oldest five: once five items exist, creating another does not change
      it. */
  lemma RecentIgnoresNewItems(items: seq<BodyOfWork>, b: BodyOfWork)
    requires |items| >= RecentLimit
    ensures Recent(items + [b]) == Recent(items)
  {
    var r := Recent(items);
    var r2 := Recent(items + [b]);
    assert |r| == |r2| == RecentLimit;
    forall i | 0 <= i < RecentLimit ensures r2[i] == r[i] {
      assert r2[i] == (items + [b])[i] == items[i] == r[i];
    }
  }

  /** What the "Recent Work" panel shows. */
  datatype RecentPanel = EmptyMessage | ItemList(shown: seq<BodyOfWork>)

  function RecentSection(items: seq<BodyOfWork>): (r: RecentPanel)
    ensures r == EmptyMessage <==> items == []
    ensures r.ItemList? ==> r.shown == Recent(items) && 0 < |r.shown| <= RecentLimit
  {
    if |items| == 0 then EmptyMessage else ItemList(Recent(items))
  }

  /** The colour classes of the badges and stat cards. */
  datatype Colour = Blue | Yellow | Green

  /** The badge colour chosen by the nested conditional: Draft, then
      Spec Generated, and everything else green. */
  function BadgeColour(s: WorkflowState): (r: Colour)
    ensures r == Blue <==> s == Draft
    ensures r == Yellow <==> s == SpecGenerated
    ensures r == Green <==> s == ReadyForDevelopment
  {
    if s == Draft then Blue
    else if s == SpecGenerated then Yellow
    else assert s.ReadyForDevelopment?; Green
  }

  /** The colour of the stat card that counts state `s`. */
  function StatCardColour(s: WorkflowState): Colour {
    match s
    case Draft => Blue
    case SpecGenerated => Yellow
    case ReadyForDevelopment => Green
  }

  /** An item's badge has the colour of the stat card that counts it. */
  lemma BadgeMatchesStatCard(s: WorkflowState)
    ensures BadgeColour(s) == StatCardColour(s)
  {
  }
}
