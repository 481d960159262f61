/**
 * The bounded multi-file picker used for the optional photo lists and the previous
 * certificates: appending a selection truncated to the remaining capacity, removing one entry
 * by position, and whether the picker is offered. Each handler is a function from the current
 * list to the list passed to `onChange`, or `None` when `onChange` is not called.
 */
module MultiFileUpload {
  import opened Wrappers
  import opened FormTypes
  import Js

  /** `Array.from(e.target.files || [])`: a missing file list is an empty selection. */
  function SelectedFiles(selection: Option<seq<File>>): seq<File> {
    if selection.Some? then selection.value else []
  }

  /**
   * `handleFileChange`: the selection cut with `slice(0, maxFiles - files.length)` (a negative
   * end counts from the back), appended when it is not empty.
   */
  function HandleFileChange(files: seq<File>, selected: seq<File>, maxFiles: int): (r: Option<seq<File>>)
    ensures r.Some? ==> files <= r.value && r.value[|files|..] <= selected && |r.value| > |files|
  {
    var remainingSlots := maxFiles - |files|;
    var filesToAdd := Js.SliceTo(selected, remainingSlots);
    if |filesToAdd| > 0 then Some(files + filesToAdd) else None
  }

  /**
   * Within capacity, a change adds as many files as fit, in the order picked, and never takes
   * the list past `maxFiles`; it calls `onChange` exactly when there is room and something was picked.
   */
  lemma HandleFileChangeWithinCapacity(files: seq<File>, selected: seq<File>, maxFiles: int)
    requires |files| <= maxFiles
    ensures var r := HandleFileChange(files, selected, maxFiles);
      && (r.Some? <==> |files| < maxFiles && selected != [])
      && (r.Some? ==> |r.value| <= maxFiles)
      && (r.Some? ==> var added := if |selected| <= maxFiles - |files| then |selected| else maxFiles - |files|;
            r.value == files + selected[..added])
  {
  }

  /** A full list ignores every selection. */
  lemma FullListIgnoresSelection(files: seq<File>, selected: seq<File>, maxFiles: int)
    requires |files| == maxFiles
    ensures HandleFileChange(files, selected, maxFiles).None?
  {
  }

  /**
   * Past capacity the end of the slice is negative and counts from the back of the selection:
   * a list of 4 with capacity 3 still takes 2 of 3 picked files and grows to 6.
   */
  lemma OverCapacityStillAppends(a: File, b: File, c: File, d: File, x: File, y: File, z: File)
    ensures HandleFileChange([a, b, c, d], [x, y, z], 3) == Some([a, b, c, d, x, y])
  {
    assert Js.SliceTo([x, y, z], -1) == [x, y];
    assert [a, b, c, d] + [x, y] == [a, b, c, d, x, y];
  }

  /** `handleRemove(index)`: `files.filter((_, i) => i !== index)`, the entry at `index` counted from `offset`. */
  function FilterIndex(files: seq<File>, index: int, offset: int): seq<File>
    decreases |files|
  {
    if files == [] then []
    else (if offset != index then [files[0]] else []) + FilterIndex(files[1..], index, offset + 1)
  }

  function HandleRemove(files: seq<File>, index: int): seq<File> {
    FilterIndex(files, index, 0)
  }

  lemma {:induction false} FilterIndexSpec(files: seq<File>, index: int, offset: int)
    ensures offset <= index < offset + |files| ==>
      FilterIndex(files, index, offset) == files[..index - offset] + files[index - offset + 1..]
    ensures !(offset <= index < offset + |files|) ==> FilterIndex(files, index, offset) == files
    decreases |files|
  {
    if files != [] {
      var rest := files[1..];
      FilterIndexSpec(rest, index, offset + 1);
      if offset == index {
        assert FilterIndex(files, index, offset) == FilterIndex(rest, index, offset + 1);
        assert files[..0] + files[1..] == rest;
      } else {
        assert FilterIndex(files, index, offset) == [files[0]] + FilterIndex(rest, index, offset + 1);
        if offset < index < offset + |files| {
          var j := index - offset;
          assert FilterIndex(rest, index, offset + 1) == rest[..j - 1] + rest[j..];
          assert files[..j] == [files[0]] + rest[..j - 1];
          assert files[j + 1..] == rest[j..];
        } else {
          assert FilterIndex(rest, index, offset + 1) == rest;
          assert files == [files[0]] + rest;
        }
      }
    }
  }

  /** Removing a valid position drops exactly that entry and keeps the others in order; any other index leaves the list as it is. */
  lemma HandleRemoveSpec(files: seq<File>, index: int)
    ensures 0 <= index < |files| ==> HandleRemove(files, index) == files[..index] + files[index + 1..]
    ensures 0 <= index < |files| ==> |HandleRemove(files, index)| == |files| - 1
    ensures !(0 <= index < |files|) ==> HandleRemove(files, index) == files
  {
    FilterIndexSpec(files, index, 0);
  }

  /** `canAddMore`: the "Add file" area is shown only while the list is below capacity. */
  predicate CanAddMore(files: seq<File>, maxFiles: int) {
    |files| < maxFiles
  }

  /** The area is offered exactly when a non-empty selection would be added. */
  lemma CanAddMoreIff(files: seq<File>, f: File, maxFiles: int)
    requires |files| <= maxFiles
    ensures CanAddMore(files, maxFiles) <==> HandleFileChange(files, [f], maxFiles).Some?
  {
    HandleFileChangeWithinCapacity(files, [f], maxFiles);
  }

  /** An edit of the list: a selection (possibly missing) or the removal of an entry. */
  datatype Edit = Pick(selection: Option<seq<File>>) | Remove(index: int)

  /** The list after an edit: the value passed to `onChange`, or the old list when it is not called. */
  function Apply(files: seq<File>, e: Edit, maxFiles: int): seq<File> {
    match e
    case Pick(selection) => HandleFileChange(files, SelectedFiles(selection), maxFiles).GetOr(files)
    case Remove(index) => HandleRemove(files, index)
  }

  function ApplyAll(files: seq<File>, es: seq<Edit>, maxFiles: int): seq<File>
    decreases |es|
  {
    if es == [] then files else ApplyAll(Apply(files, es[0], maxFiles), es[1..], maxFiles)
  }

  /** Starting within capacity, no sequence of edits takes the list past `maxFiles`: the negative slice is never reached. */
  lemma {:induction false} EditsStayWithinCapacity(files: seq<File>, es: seq<Edit>, maxFiles: int)
    requires |files| <= maxFiles
    ensures |ApplyAll(files, es, maxFiles)| <= maxFiles
    decreases |es|
  {
    if es != [] {
      var next := Apply(files, es[0], maxFiles);
      match es[0] {
        case Pick(selection) =>
          HandleFileChangeWithinCapacity(files, SelectedFiles(selection), maxFiles);
        case Remove(index) =>
          HandleRemoveSpec(files, index);
      }
      EditsStayWithinCapacity(next, es[1..], maxFiles);
    }
  }
}
