/** The file-path autocomplete (apps/web/src/components/FilePathAutocomplete.tsx):
    a case-insensitive substring filter over repository paths, capped at 50
    results, and the dropdown's open/selected-index state. */
module Autocomplete {
  import opened Wrappers
  import opened Text
  import Seqs

  /** The cap on the number of suggestions. */
  const MaxMatches: nat := 50

  /** `file => file.path.toLowerCase().includes(query)` for `query =
      value.toLowerCase()`. The query keeps its surrounding whitespace. */
  function PathMatches(value: string): string -> bool {
    (path: string) => Contains(ToLower(path), ToLower(value))
  }

  /** Every path whose lower-cased form contains the lower-cased value. */
  function AllMatches(files: seq<string>, value: string): seq<string> {
    Seqs.Filter(files, PathMatches(value))
  }

  /** The suggestion list the filter effect computes: nothing for a blank
      value, otherwise the first 50 matching paths in their original order. */
  function Matches(files: seq<string>, value: string): (r: seq<string>)
    ensures IsBlank(value) ==> r == []
    ensures !IsBlank(value) ==> r <= AllMatches(files, value)
    ensures |r| <= MaxMatches
    ensures !IsBlank(value) && |AllMatches(files, value)| > MaxMatches ==> |r| == MaxMatches
    ensures !IsBlank(value) && |AllMatches(files, value)| <= MaxMatches ==> r == AllMatches(files, value)
    ensures forall i :: 0 <= i < |r| ==> r[i] in files && Contains(ToLower(r[i]), ToLower(value))
  {
    if IsBlank(value) then []
    else
      var all := AllMatches(files, value);
      var r := Seqs.Take(all, MaxMatches);
      r
  }

  /** The matches keep the order of `files`: the matches of a concatenation
      are the matches of its first part followed by those of its second. */
  lemma AllMatchesKeepOrder(a: seq<string>, b: seq<string>, value: string)
    ensures AllMatches(a + b, value) == AllMatches(a, value) + AllMatches(b, value)
  {
    Seqs.FilterAppend(a, b, PathMatches(value));
  }

  /** Matching ignores ASCII case on both sides. */
  lemma MatchIgnoresCase(path: string, value: string)
    ensures PathMatches(value)(path) == PathMatches(ToLower(value))(ToLower(path))
  {
    LowerIdempotent(path);
    LowerIdempotent(value);
  }

  lemma LowerIdempotent(s: string)
    ensures ToLower(ToLower(s)) == ToLower(s)
  {
  }

  /** The query "app" finds "src/App.tsx" but not "README.md". */
  lemma AppQueryMatchesExample()
    ensures PathMatches("app")("src/App.tsx")
    ensures !PathMatches("app")("README.md")
  {
    assert ToLower("app") == "app" by {
      var q := ToLower("app");
      assert q[0] == 'a' && q[1] == 'p' && q[2] == 'p';
    }
    AppQueryHit();
    AppQueryMiss();
  }

  /** "app" occurs in the lowered "src/App.tsx" at offset 4. */
  lemma AppQueryHit()
    ensures Contains(ToLower("src/App.tsx"), "app")
  {
    var hit := ToLower("src/App.tsx");
    assert hit[4] == 'a' && hit[5] == 'p' && hit[6] == 'p';
    assert hit[4..7] == "app";
    assert OccursAt(hit, "app", 4);
  }

  /** "app" occurs nowhere in the lowered "README.md". */
  lemma AppQueryMiss()
    ensures !Contains(ToLower("README.md"), "app")
  {
    var miss := ToLower("README.md");
    assert miss == "readme.md";
    assert forall i :: 0 <= i <= |miss| - 3 ==> miss[i] != 'a' || miss[i + 1] != 'p';
    forall i | 0 <= i <= |miss| - 3 ensures !OccursAt(miss, "app", i) {
      assert miss[i..i + 3][0] == miss[i] && miss[i..i + 3][1] == miss[i + 1];
    }
  }

  /** An upper-case letter in a path does not stop a lower-case query from
      finding it, and a path without the query is left out. */
  lemma CaseInsensitiveExample()
    ensures Matches(["src/App.tsx", "README.md"], "app") == ["src/App.tsx"]
  {
    AppQueryMatchesExample();
    assert !IsBlank("app") by { BlankIffAllWhitespace("app"); }
    var keep := PathMatches("app");
    assert Seqs.Filter(["README.md"], keep) == [];
    assert Seqs.Filter(["src/App.tsx", "README.md"], keep) == ["src/App.tsx"] + Seqs.Filter(["README.md"], keep);
  }

  /** With its trailing space, the query "app " misses "src/App.tsx". */
  lemma SpacedQueryMissesExample()
    ensures !PathMatches("app ")("src/App.tsx")
  {
    assert ToLower("app ") == "app " by {
      var q := ToLower("app ");
      assert q[0] == 'a' && q[1] == 'p' && q[2] == 'p' && q[3] == ' ';
    }
    SpacedQueryMiss();
  }

  /** "app " occurs nowhere in the lowered "src/App.tsx". */
  lemma SpacedQueryMiss()
    ensures !Contains(ToLower("src/App.tsx"), "app ")
  {
    var path := ToLower("src/App.tsx");
    assert path == "src/app.tsx";
    assert forall i :: 0 <= i <= |path| - 4 ==> path[i] != 'a' || path[i + 3] != ' ';
    forall i | 0 <= i <= |path| - 4 ensures !OccursAt(path, "app ", i) {
      assert path[i..i + 4][0] == path[i] && path[i..i + 4][3] == path[i + 3];
    }
  }

  /** The query is not trimmed: a trailing space is part of what is
      searched for. */
  lemma UntrimmedQueryExample()
    ensures Matches(["src/App.tsx"], "app ") == []
  {
    SpacedQueryMissesExample();
    assert Seqs.Filter(["src/App.tsx"], PathMatches("app ")) == [];
    assert !IsBlank("app ") by { BlankIffAllWhitespace("app "); }
  }

  /** The `setSelectedIndex` updater for ArrowDown. */
  function ArrowDownIndex(prev: nat, len: nat): (r: nat)
    ensures prev < len ==> r < len
    ensures r == prev + 1 || r == prev
    ensures r == prev <==> prev + 1 >= len
  {
    if prev < len - 1 then prev + 1 else prev
  }

  /** The `setSelectedIndex` updater for ArrowUp. */
  function ArrowUpIndex(prev: nat): (r: nat)
    ensures r <= prev
    ensures r == if prev == 0 then 0 else prev - 1
  {
    if prev > 0 then prev - 1 else 0
  }

  /** The keys the dropdown reacts to; every other key is `OtherKey`. */
  datatype KeyPress = ArrowDown | ArrowUp | Enter | Escape | OtherKey

  /** The component's state: whether the dropdown is open, the last filtered
      list and the highlighted index. */
  class FilePathAutocomplete {
    var isOpen: bool
    var filteredFiles: seq<string>
    var selectedIndex: nat

    /** While there are suggestions the index points at one of them, and the
        dropdown is only open when there are suggestions. */
    ghost predicate Valid()
      reads this
    {
      && (isOpen ==> |filteredFiles| > 0)
      && (|filteredFiles| > 0 ==> selectedIndex < |filteredFiles|)
    }

    constructor ()
      ensures Valid()
      ensures !isOpen && filteredFiles == [] && selectedIndex == 0
    {
      isOpen := false;
      filteredFiles := [];
      selectedIndex := 0;
    }

    /** The filter effect, run whenever `value` or `files` change. A blank
        value leaves the index where it was. */
    method Refilter(value: string, files: seq<string>)
      requires Valid()
      modifies this
      ensures Valid()
      ensures filteredFiles == Matches(files, value)
      ensures isOpen <==> |filteredFiles| > 0
      ensures selectedIndex == if IsBlank(value) then old(selectedIndex) else 0
    {
      if IsBlank(value) {
        filteredFiles := [];
        isOpen := false;
        return;
      }
      var matches := Seqs.Take(AllMatches(files, value), MaxMatches);
      filteredFiles := matches;
      isOpen := |matches| > 0;
      selectedIndex := 0;
    }

    /** `selectFile(path)`: reports `path` through `onChange` and closes. */
    method SelectFile(path: string) returns (chosen: string)
      requires Valid()
      modifies this
      ensures Valid()
      ensures chosen == path && !isOpen
      ensures filteredFiles == old(filteredFiles) && selectedIndex == old(selectedIndex)
    {
      chosen := path;
      isOpen := false;
    }

    /** `handleKeyDown`: `selected` is the path passed to `onChange`, if any. */
    method HandleKeyDown(key: KeyPress) returns (selected: Option<string>)
      requires Valid()
      modifies this
      ensures Valid()
      ensures filteredFiles == old(filteredFiles)
      ensures !old(isOpen) ==> selected == None && isOpen == old(isOpen) && selectedIndex == old(selectedIndex)
      ensures isOpen ==> selectedIndex < |filteredFiles|
      ensures old(isOpen) && key == ArrowDown ==>
        isOpen && selected == None && selectedIndex == ArrowDownIndex(old(selectedIndex), |filteredFiles|)
      ensures old(isOpen) && key == ArrowUp ==>
        isOpen && selected == None && selectedIndex == ArrowUpIndex(old(selectedIndex))
      ensures old(isOpen) && key == Enter ==>
        !isOpen && selected == Some(filteredFiles[old(selectedIndex)]) && selectedIndex == old(selectedIndex)
      ensures old(isOpen) && key == Escape ==>
        !isOpen && selected == None && selectedIndex == old(selectedIndex)
      ensures old(isOpen) && key == OtherKey ==>
        isOpen && selected == None && selectedIndex == old(selectedIndex)
    {
      selected := None;
      if !isOpen {
        return;
      }
      match key
      case ArrowDown =>
        selectedIndex := ArrowDownIndex(selectedIndex, |filteredFiles|);
      case ArrowUp =>
        selectedIndex := ArrowUpIndex(selectedIndex);
      case Enter =>
        if selectedIndex < |filteredFiles| {
          var path := SelectFile(filteredFiles[selectedIndex]);
          selected := Some(path);
        }
      case Escape =>
        isOpen := false;
      case OtherKey =>
    }

    /** `onFocus`: reopens only when the last filtered list is non-empty. */
    method OnFocus()
      requires Valid()
      modifies this
      ensures Valid()
      ensures isOpen == (old(isOpen) || |filteredFiles| > 0)
      ensures filteredFiles == old(filteredFiles) && selectedIndex == old(selectedIndex)
    {
      if |filteredFiles| > 0 {
        isOpen := true;
      }
    }
  }
}
