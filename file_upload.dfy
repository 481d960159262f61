/**
 * The single-file picker used for every required photo and report: what a selection or a
 * removal passes to `onChange`, and the picker's display (drop area or chosen file, the
 * required marker, the native `required` attribute and the accepted-type hint).
 */
module FileUpload {
  import opened Wrappers
  import opened FormTypes

  /** `e.target.files?.[0]`: the first picked file, if the browser reported any. */
  function FirstSelected(selection: Option<seq<File>>): Option<File> {
    if selection.Some? && selection.value != [] then Some(selection.value[0]) else None
  }

  /** An event of the picker: a selection from the file dialog, or the remove button. */
  datatype Edit = Pick(selection: Option<seq<File>>) | Clear

  /** What the picker passes to `onChange`, or `None` when it does not call it. */
  function OnChangeValue(e: Edit): Option<Option<File>> {
    match e
    case Pick(selection) => if FirstSelected(selection).Some? then Some(FirstSelected(selection)) else None
    case Clear => Some(None)
  }

  /** The slot after an event, given that the parent stores what `onChange` receives. */
  function Apply(slot: Option<File>, e: Edit): Option<File> {
    OnChangeValue(e).GetOr(slot)
  }

  /**
   * A non-empty selection passes its first file to `onChange`, which puts it in the slot; a
   * missing or empty selection does not call `onChange` and leaves the slot as it was;
   * removing passes null and empties the slot.
   */
  lemma ApplySpec(slot: Option<File>, selection: Option<seq<File>>)
    ensures selection.Some? && selection.value != [] ==> OnChangeValue(Pick(selection)) == Some(Some(selection.value[0]))
    ensures !(selection.Some? && selection.value != []) ==> OnChangeValue(Pick(selection)).None?
    ensures OnChangeValue(Clear) == Some(None)
    ensures selection.Some? && selection.value != [] ==> Apply(slot, Pick(selection)) == Some(selection.value[0])
    ensures !(selection.Some? && selection.value != []) ==> Apply(slot, Pick(selection)) == slot
    ensures Apply(slot, Clear) == None
  {
  }

  /** The drop area is shown while the slot is empty (`!file`); otherwise the chosen file is. */
  predicate ShowsPicker(file: Option<File>) {
    file.None?
  }

  /** `required && !file`: the native attribute is set only while a required slot is empty. */
  predicate NativeRequired(required: bool, file: Option<File>) {
    required && ShowsPicker(file)
  }

  /** The hint under the drop area. */
  function AcceptHint(accept: string): string {
    if accept == "application/pdf" then "PDF files only" else "Image files only"
  }

  const DefaultAccept: string := "image/*"

  /**
   * The display: the native `required` holds exactly for a required, empty slot, so a removal
   * of a required file sets it again and a selection clears it; the hint reads "PDF files
   * only" exactly for `application/pdf` and "Image files only" for anything else, the default included.
   */
  lemma DisplaySpec(required: bool, slot: Option<File>, f: File, accept: string)
    ensures NativeRequired(required, slot) <==> required && slot.None?
    ensures NativeRequired(required, Apply(slot, Clear)) == required
    ensures !NativeRequired(required, Apply(slot, Pick(Some([f]))))
    ensures AcceptHint(accept) == "PDF files only" <==> accept == "application/pdf"
    ensures AcceptHint(accept) != "PDF files only" ==> AcceptHint(accept) == "Image files only"
    ensures AcceptHint(DefaultAccept) == "Image files only"
  {
  }
}
