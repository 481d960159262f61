/**
 * The three-page inspection wizard: the shallow merge of page updates into the form record,
 * the per-page validators, the page navigation and the enabling of its buttons, and the submit
 * handler that stores the inspection (whose calls are described in module `Submission`).
 */
module InspectionForm {
  import opened Wrappers
  import opened FormTypes
  import opened Backend
  import Js
  import StoragePath
  import Submission

  const TotalPages: int := 3

  // ---------------------------------------------------------------------------------------
  // Updates

  /** `Partial<InspectionFormData>`: some of the fields, each with a new value. */
  type Patch = map<Field, FieldValue>

  /** Every value of the patch has the type of its field, as the record type demands. */
  predicate WellTyped(p: Patch) {
    forall k :: k in p ==> KindOfValue(p[k]) == KindOf(k)
  }

  function TextOr(p: Patch, k: Field, prev: string): string {
    if k in p && p[k].Text? then p[k].text else prev
  }

  function MakeOr(p: Patch, k: Field, prev: VdrMake): VdrMake {
    if k in p && p[k].MakeValue? then p[k].make else prev
  }

  function FileOr(p: Patch, k: Field, prev: Option<File>): Option<File> {
    if k in p && p[k].FileValue? then p[k].file else prev
  }

  function FilesOr(p: Patch, k: Field, prev: seq<File>): seq<File> {
    if k in p && p[k].FilesValue? then p[k].files else prev
  }

  /** `{ ...prev, ...data }`. */
  function Merge(f: FormData, p: Patch): FormData {
    FormData(
      TextOr(p, EngineerName, f.engineerName),
      TextOr(p, VesselName, f.vesselName),
      TextOr(p, Location, f.location),
      TextOr(p, InspectionDate, f.inspectionDate),
      MakeOr(p, VdrMake, f.vdrMake),
      TextOr(p, ImoNumber, f.imoNumber),
      TextOr(p, MmsiNumber, f.mmsiNumber),
      FileOr(p, DauDoorOpen, f.dauDoorOpen),
      TextOr(p, SerialNumber, f.serialNumber),
      FileOr(p, Grounding, f.grounding),
      FileOr(p, BatteryPhoto, f.batteryPhoto),
      FilesOr(p, DauOptional, f.dauOptional),
      FileOr(p, CapsulePhoto, f.capsulePhoto),
      FileOr(p, CableGland, f.cableGland),
      FileOr(p, BeaconExpiry, f.beaconExpiry),
      FilesOr(p, CapsuleOptional, f.capsuleOptional),
      FileOr(p, FloatFree, f.floatFree),
      FileOr(p, CoverRemoved, f.coverRemoved),
      FileOr(p, JunctionBox, f.junctionBox),
      FileOr(p, Hru, f.hru),
      FilesOr(p, FloatOptional, f.floatOptional),
      FileOr(p, BcpDisplay, f.bcpDisplay),
      FilesOr(p, BcpOptional, f.bcpOptional),
      FileOr(p, VideoUnit1, f.videoUnit1),
      FileOr(p, VideoUnit2, f.videoUnit2),
      FilesOr(p, VideoOptional, f.videoOptional),
      FileOr(p, EpirbReport, f.epirbReport),
      FileOr(p, MakerReport, f.makerReport),
      FileOr(p, ClassReport, f.classReport),
      TextOr(p, ClassName, f.className),
      FilesOr(p, PreviousCoc, f.previousCoc))
  }

  /** One field of the merged record: the patch's value if the patch names the field, the old value otherwise. */
  lemma MergeField(f: FormData, p: Patch, k: Field)
    requires k in p ==> KindOfValue(p[k]) == KindOf(k)
    ensures Get(Merge(f, p), k) == if k in p then p[k] else Get(f, k)
  {
  }

  /** The merge is shallow: a field named in the patch takes the patch's value, every other field keeps its value. */
  lemma MergeIsShallow(f: FormData, p: Patch)
    requires WellTyped(p)
    ensures forall k :: Get(Merge(f, p), k) == if k in p then p[k] else Get(f, k)
  {
    forall k
      ensures Get(Merge(f, p), k) == if k in p then p[k] else Get(f, k)
    {
      MergeField(f, p, k);
    }
  }

  /** An empty update changes nothing. */
  lemma MergeEmpty(f: FormData)
    ensures Merge(f, map[]) == f
  {
  }

  // ---------------------------------------------------------------------------------------
  // Validation

  /** A file slot as a JavaScript value: the browser's `File` object, or null. */
  function FileJs(slot: Option<File>): (v: Js.Value)
    ensures Js.Truthy(v) <==> slot.Some?
  {
    if slot.Some? then Js.Object else Js.Null
  }

  /** `validatePage1()`: the `&&` of the seven page-1 fields. */
  function ValidatePage1(f: FormData): Js.Value {
    Js.AndChain([Js.Str(f.engineerName), Js.Str(f.vesselName), Js.Str(f.location), Js.Str(f.inspectionDate),
                 Js.Str(MakeText(f.vdrMake)), Js.Str(f.imoNumber), Js.Str(f.mmsiNumber)])
  }

  /** `validatePage2()`: the `&&` of the thirteen required photos and the serial number. */
  function ValidatePage2(f: FormData): Js.Value {
    Js.AndChain([FileJs(f.dauDoorOpen), Js.Str(f.serialNumber), FileJs(f.grounding), FileJs(f.batteryPhoto),
                 FileJs(f.capsulePhoto), FileJs(f.cableGland), FileJs(f.beaconExpiry),
                 FileJs(f.floatFree), FileJs(f.coverRemoved), FileJs(f.junctionBox), FileJs(f.hru),
                 FileJs(f.bcpDisplay), FileJs(f.videoUnit1), FileJs(f.videoUnit2)])
  }

  /** `validatePage3()`: both reports, and the class report or the class name. */
  function ValidatePage3(f: FormData): Js.Value {
    Js.AndChain([FileJs(f.epirbReport), FileJs(f.makerReport), Js.Or(FileJs(f.classReport), Js.Str(f.className))])
  }

  /** Page 1 is complete when every text field is filled in and a make is picked. */
  predicate Page1Complete(f: FormData) {
    f.engineerName != "" && f.vesselName != "" && f.location != "" && f.inspectionDate != "" &&
    f.vdrMake != NoMake && f.imoNumber != "" && f.mmsiNumber != ""
  }

  /** Page 2 is complete when the serial number is filled in and every required photo is picked; the optional lists play no part. */
  predicate Page2Complete(f: FormData) {
    f.serialNumber != "" && f.dauDoorOpen.Some? && f.grounding.Some? && f.batteryPhoto.Some? &&
    f.capsulePhoto.Some? && f.cableGland.Some? && f.beaconExpiry.Some? &&
    f.floatFree.Some? && f.coverRemoved.Some? && f.junctionBox.Some? && f.hru.Some? &&
    f.bcpDisplay.Some? && f.videoUnit1.Some? && f.videoUnit2.Some?
  }

  /** Page 3 is complete when both reports are picked, and the class report is picked or the class name filled in. */
  predicate Page3Complete(f: FormData) {
    f.epirbReport.Some? && f.makerReport.Some? && (f.classReport.Some? || f.className != "")
  }

  lemma ValidatePage1Iff(f: FormData)
    ensures Js.Truthy(ValidatePage1(f)) <==> Page1Complete(f)
  {
    var vs := [Js.Str(f.engineerName), Js.Str(f.vesselName), Js.Str(f.location), Js.Str(f.inspectionDate),
               Js.Str(MakeText(f.vdrMake)), Js.Str(f.imoNumber), Js.Str(f.mmsiNumber)];
    Js.AndChainTruthy(vs);
    assert vs[0].s == f.engineerName && vs[1].s == f.vesselName && vs[2].s == f.location && vs[3].s == f.inspectionDate;
    assert vs[4].s == MakeText(f.vdrMake) && vs[5].s == f.imoNumber && vs[6].s == f.mmsiNumber;
  }

  lemma ValidatePage2Iff(f: FormData)
    ensures Js.Truthy(ValidatePage2(f)) <==> Page2Complete(f)
  {
    var vs := [FileJs(f.dauDoorOpen), Js.Str(f.serialNumber), FileJs(f.grounding), FileJs(f.batteryPhoto),
               FileJs(f.capsulePhoto), FileJs(f.cableGland), FileJs(f.beaconExpiry),
               FileJs(f.floatFree), FileJs(f.coverRemoved), FileJs(f.junctionBox), FileJs(f.hru),
               FileJs(f.bcpDisplay), FileJs(f.videoUnit1), FileJs(f.videoUnit2)];
    Js.AndChainTruthy(vs);
    assert vs[1].s == f.serialNumber;
    assert vs[0] == FileJs(f.dauDoorOpen) && vs[2] == FileJs(f.grounding) && vs[3] == FileJs(f.batteryPhoto);
    assert vs[4] == FileJs(f.capsulePhoto) && vs[5] == FileJs(f.cableGland) && vs[6] == FileJs(f.beaconExpiry);
    assert vs[7] == FileJs(f.floatFree) && vs[8] == FileJs(f.coverRemoved) && vs[9] == FileJs(f.junctionBox);
    assert vs[10] == FileJs(f.hru) && vs[11] == FileJs(f.bcpDisplay) && vs[12] == FileJs(f.videoUnit1) && vs[13] == FileJs(f.videoUnit2);
  }

  /** Either the class report or the class name alone satisfies the third condition; with neither, page 3 fails. */
  lemma ValidatePage3Iff(f: FormData)
    ensures Js.Truthy(ValidatePage3(f)) <==> Page3Complete(f)
  {
    Js.AndChainTruthy([FileJs(f.epirbReport), FileJs(f.makerReport), Js.Or(FileJs(f.classReport), Js.Str(f.className))]);
  }

  // ---------------------------------------------------------------------------------------
  // Navigation

  /** `canProceed()`: the current page's validator; `false` on any other page number. */
  function CanProceed(page: int, f: FormData): (r: Js.Value)
    ensures !(1 <= page <= TotalPages) ==> r == Js.Bool(false)
  {
    if page == 1 then ValidatePage1(f)
    else if page == 2 then ValidatePage2(f)
    else if page == 3 then ValidatePage3(f)
    else Js.Bool(false)
  }

  /** The wizard may leave a page exactly when that page is complete. */
  lemma CanProceedIff(page: int, f: FormData)
    ensures Js.Truthy(CanProceed(page, f)) <==>
      (page == 1 && Page1Complete(f)) || (page == 2 && Page2Complete(f)) || (page == 3 && Page3Complete(f))
  {
    ValidatePage1Iff(f);
    ValidatePage2Iff(f);
    ValidatePage3Iff(f);
  }

  /** The page after `handleNext()`. */
  function NextPage(page: int, f: FormData): int {
    if Js.Truthy(CanProceed(page, f)) && page < TotalPages then page + 1 else page
  }

  /** The page after `handlePrevious()`. */
  function PreviousPage(page: int): int {
    if page > 1 then page - 1 else page
  }

  /** Next moves forward by one page from a complete first or second page, and otherwise stays put. */
  lemma NextPageIff(page: int, f: FormData)
    ensures NextPage(page, f) == page + 1 <==> (page == 1 && Page1Complete(f)) || (page == 2 && Page2Complete(f))
    ensures NextPage(page, f) != page + 1 ==> NextPage(page, f) == page
  {
    CanProceedIff(page, f);
  }

  /** Neither handler takes the wizard off its three pages. */
  lemma NavigationStaysInRange(page: int, f: FormData)
    requires 1 <= page <= TotalPages
    ensures 1 <= NextPage(page, f) <= TotalPages
    ensures 1 <= PreviousPage(page) <= TotalPages
  {
  }

  /** The Previous button is disabled on the first page. */
  predicate PreviousDisabled(page: int) {
    page == 1
  }

  /** The Next button is shown before the last page. */
  predicate NextShown(page: int) {
    page < TotalPages
  }

  predicate NextDisabled(page: int, f: FormData) {
    !Js.Truthy(CanProceed(page, f))
  }

  /** Save Draft and Submit are shown on the last page. */
  predicate SubmitShown(page: int) {
    page == TotalPages
  }

  /** Both Save Draft and Submit are disabled while loading or while the page cannot proceed. */
  predicate SubmitDisabled(page: int, loading: bool, f: FormData) {
    loading || !Js.Truthy(CanProceed(page, f))
  }

  /**
   * The buttons: an enabled Next button moves forward and is enabled exactly on a complete
   * first or second page; the submit buttons can be pressed exactly on page 3, not loading,
   * with page 3 complete; they never share a page with Next; and a disabled Previous button is
   * the case where Previous would not move on the first page.
   */
  lemma ButtonsIff(page: int, loading: bool, f: FormData)
    ensures NextShown(page) && !NextDisabled(page, f) <==> NextPage(page, f) == page + 1
    ensures NextShown(page) && !NextDisabled(page, f) <==>
      (page == 1 && Page1Complete(f)) || (page == 2 && Page2Complete(f))
    ensures SubmitShown(page) && !SubmitDisabled(page, loading, f) <==> page == 3 && !loading && Page3Complete(f)
    ensures !(SubmitShown(page) && NextShown(page))
    ensures 1 <= page ==> (PreviousDisabled(page) <==> PreviousPage(page) == page)
  {
    CanProceedIff(page, f);
  }

  // ---------------------------------------------------------------------------------------
  // The component's state

  class Wizard {
    var currentPage: int
    var formData: FormData
    var loading: bool
    var error: string

    /** The wizard is on one of its pages. */
    ghost predicate Valid()
      reads this
    {
      1 <= currentPage <= TotalPages
    }

    /** A fresh wizard: page 1, the initial record, not loading, no error. */
    constructor (isoNow: string)
      ensures Valid()
      ensures currentPage == 1 && formData == InitialFormData(isoNow)
      ensures !loading && error == ""
    {
      currentPage := 1;
      formData := InitialFormData(isoNow);
      loading := false;
      error := "";
    }

    /** `updateFormData(data)`. */
    method UpdateFormData(p: Patch)
      requires Valid()
      modifies this
      ensures Valid()
      ensures formData == Merge(old(formData), p)
      ensures currentPage == old(currentPage) && loading == old(loading) && error == old(error)
    {
      formData := Merge(formData, p);
    }

    /** `handleNext()`. */
    method HandleNext()
      requires Valid()
      modifies this
      ensures Valid()
      ensures currentPage == NextPage(old(currentPage), formData)
      ensures formData == old(formData) && loading == old(loading) && error == old(error)
    {
      if Js.Truthy(CanProceed(currentPage, formData)) && currentPage < TotalPages {
        currentPage := currentPage + 1;
      }
    }

    /** `handlePrevious()`. */
    method HandlePrevious()
      requires Valid()
      modifies this
      ensures Valid()
      ensures currentPage == PreviousPage(old(currentPage))
      ensures formData == old(formData) && loading == old(loading) && error == old(error)
    {
      if currentPage > 1 {
        currentPage := currentPage - 1;
      }
    }

    // -------------------------------------------------------------------------------------
    // Submitting

    /** `uploadFile(file, tag)`: `None` stands for the thrown upload error. */
    method UploadFile(client: Client, userId: string, file: File, tag: StoragePath.Tag) returns (url: Option<string>)
      modifies client
      ensures Submission.Outcome(client.trace, url) == Submission.UploadFile(client.oracle, old(client.trace), userId, file, tag)
    {
      var now := client.Now();
      var key := StoragePath.Key(userId, tag, now, file.name);
      var failed := client.Upload(key, file);
      if failed {
        return None;
      }
      var u := client.GetPublicUrl(key);
      return Some(u);
    }

    /** `uploadFiles(files, base)`: the URLs in the order of the files, or `None` for a thrown error. */
    method UploadFiles(client: Client, userId: string, files: seq<File>, base: string) returns (urls: Option<seq<string>>)
      modifies client
      ensures Submission.Outcome(client.trace, urls) == Submission.UploadFiles(client.oracle, old(client.trace), userId, files, base, |files|)
    {
      var acc: seq<string> := [];
      for i := 0 to |files|
        invariant Submission.UploadFiles(client.oracle, old(client.trace), userId, files, base, i) == Submission.Outcome(client.trace, Some(acc))
      {
        var url := UploadFile(client, userId, files[i], StoragePath.Indexed(base, i));
        if url.None? {
          Submission.UploadFilesStaysFailed(client.oracle, old(client.trace), userId, files, base, i + 1, |files|);
          return None;
        }
        acc := acc + [url.value];
      }
      return Some(acc);
    }

    /** `slot ? await uploadFile(slot, tag) : <placeholder>`: `Some(None)` when the slot is empty, `None` for a thrown error. */
    method UploadSlot(client: Client, userId: string, slot: Option<File>, tag: StoragePath.Tag) returns (url: Option<Option<string>>)
      modifies client
      ensures Submission.Outcome(client.trace, url) == Submission.UploadSlot(client.oracle, old(client.trace), userId, Submission.Slot(slot, tag))
    {
      if slot.None? {
        return Some(None);
      }
      var u := UploadFile(client, userId, slot.value, tag);
      if u.None? {
        return None;
      }
      return Some(Some(u.value));
    }
  
    /** The DAU section: three slots, the optional list, then the `dau_photos` insert. */
    method SubmitDauPhotos(client: Client, userId: string, id: string) returns (ok: bool)
      modifies client
      ensures var st := Submission.SectionStep(client.oracle, old(client.trace), userId, id, formData, Submission.SectionFor(Submission.DauPart, formData));
        client.trace == st.trace && ok == st.value.Some?
    {
      ghost var o, slots := client.oracle, Submission.SectionFor(Submission.DauPart, formData).slots;
      ghost var goal := Submission.UploadSlots(o, client.trace, userId, slots, []);
      ghost var t0 := client.trace;
      var doorUrl := UploadSlot(client, userId, formData.dauDoorOpen, StoragePath.Named("dau_door"));
      Submission.UploadSlotsCons(o, t0, userId, slots[0..], []);
      if doorUrl.None? {
        return false;
      }
      assert [] + [doorUrl.value] == [doorUrl.value];
      assert slots[0..][1..] == slots[1..];
      assert goal == Submission.UploadSlots(o, client.trace, userId, slots[1..], [doorUrl.value]);
      ghost var t1 := client.trace;
      var groundingUrl := UploadSlot(client, userId, formData.grounding, StoragePath.Named("grounding"));
      Submission.UploadSlotsCons(o, t1, userId, slots[1..], [doorUrl.value]);
      if groundingUrl.None? {
        return false;
      }
      assert [doorUrl.value] + [groundingUrl.value] == [doorUrl.value, groundingUrl.value];
      assert slots[1..][1..] == slots[2..];
      assert goal == Submission.UploadSlots(o, client.trace, userId, slots[2..], [doorUrl.value, groundingUrl.value]);
      ghost var t2 := client.trace;
      var batteryUrl := UploadSlot(client, userId, formData.batteryPhoto, StoragePath.Named("battery"));
      Submission.UploadSlotsCons(o, t2, userId, slots[2..], [doorUrl.value, groundingUrl.value]);
      if batteryUrl.None? {
        return false;
      }
      assert [doorUrl.value, groundingUrl.value] + [batteryUrl.value] == [doorUrl.value, groundingUrl.value, batteryUrl.value];
      assert slots[2..][1..] == slots[3..];
      assert goal == Submission.UploadSlots(o, client.trace, userId, slots[3..], [doorUrl.value, groundingUrl.value, batteryUrl.value]);
      assert slots[3..] == [];
      var optionalUrls := UploadFiles(client, userId, formData.dauOptional, "dau_optional");
      if optionalUrls.None? {
        return false;
      }
      var _ := client.Insert(DauPhotosRow(id, doorUrl.value.GetOr(""), formData.serialNumber, groundingUrl.value.GetOr(""),
                                          batteryUrl.value.GetOr(""), optionalUrls.value));
      return true;
    }

    /** The fixed-capsule section: three slots, the optional list, then the `fixed_capsule` insert. */
    method SubmitFixedCapsule(client: Client, userId: string, id: string) returns (ok: bool)
      modifies client
      ensures var st := Submission.SectionStep(client.oracle, old(client.trace), userId, id, formData, Submission.SectionFor(Submission.CapsulePart, formData));
        client.trace == st.trace && ok == st.value.Some?
    {
      ghost var o, slots := client.oracle, Submission.SectionFor(Submission.CapsulePart, formData).slots;
      ghost var goal := Submission.UploadSlots(o, client.trace, userId, slots, []);
      ghost var t0 := client.trace;
      var capsuleUrl := UploadSlot(client, userId, formData.capsulePhoto, StoragePath.Named("capsule"));
      Submission.UploadSlotsCons(o, t0, userId, slots[0..], []);
      if capsuleUrl.None? {
        return false;
      }
      assert [] + [capsuleUrl.value] == [capsuleUrl.value];
      assert slots[0..][1..] == slots[1..];
      assert goal == Submission.UploadSlots(o, client.trace, userId, slots[1..], [capsuleUrl.value]);
      ghost var t1 := client.trace;
      var cableGlandUrl := UploadSlot(client, userId, formData.cableGland, StoragePath.Named("cable_gland"));
      Submission.UploadSlotsCons(o, t1, userId, slots[1..], [capsuleUrl.value]);
      if cableGlandUrl.None? {
        return false;
      }
      assert [capsuleUrl.value] + [cableGlandUrl.value] == [capsuleUrl.value, cableGlandUrl.value];
      assert slots[1..][1..] == slots[2..];
      assert goal == Submission.UploadSlots(o, client.trace, userId, slots[2..], [capsuleUrl.value, cableGlandUrl.value]);
      ghost var t2 := client.trace;
      var beaconUrl := UploadSlot(client, userId, formData.beaconExpiry, StoragePath.Named("beacon"));
      Submission.UploadSlotsCons(o, t2, userId, slots[2..], [capsuleUrl.value, cableGlandUrl.value]);
      if beaconUrl.None? {
        return false;
      }
      assert [capsuleUrl.value, cableGlandUrl.value] + [beaconUrl.value] == [capsuleUrl.value, cableGlandUrl.value, beaconUrl.value];
      assert slots[2..][1..] == slots[3..];
      assert goal == Submission.UploadSlots(o, client.trace, userId, slots[3..], [capsuleUrl.value, cableGlandUrl.value, beaconUrl.value]);
      assert slots[3..] == [];
      var optionalUrls := UploadFiles(client, userId, formData.capsuleOptional, "capsule_optional");
      if optionalUrls.None? {
        return false;
      }
      var _ := client.Insert(FixedCapsuleRow(id, capsuleUrl.value.GetOr(""), cableGlandUrl.value.GetOr(""), beaconUrl.value.GetOr(""),
                                             optionalUrls.value));
      return true;
    }

    /** The float-free section: four slots, the optional list, then the `float_free` insert. */
    method SubmitFloatFree(client: Client, userId: string, id: string) returns (ok: bool)
      modifies client
      ensures var st := Submission.SectionStep(client.oracle, old(client.trace), userId, id, formData, Submission.SectionFor(Submission.FloatPart, formData));
        client.trace == st.trace && ok == st.value.Some?
    {
      ghost var o, slots := client.oracle, Submission.SectionFor(Submission.FloatPart, formData).slots;
      ghost var goal := Submission.UploadSlots(o, client.trace, userId, slots, []);
      ghost var t0 := client.trace;
      var floatFreeUrl := UploadSlot(client, userId, formData.floatFree, StoragePath.Named("float_free"));
      Submission.UploadSlotsCons(o, t0, userId, slots[0..], []);
      if floatFreeUrl.None? {
        return false;
      }
      assert [] + [floatFreeUrl.value] == [floatFreeUrl.value];
      assert slots[0..][1..] == slots[1..];
      assert goal == Submission.UploadSlots(o, client.trace, userId, slots[1..], [floatFreeUrl.value]);
      ghost var t1 := client.trace;
      var coverUrl := UploadSlot(client, userId, formData.coverRemoved, StoragePath.Named("cover"));
      Submission.UploadSlotsCons(o, t1, userId, slots[1..], [floatFreeUrl.value]);
      if coverUrl.None? {
        return false;
      }
      assert [floatFreeUrl.value] + [coverUrl.value] == [floatFreeUrl.value, coverUrl.value];
      assert slots[1..][1..] == slots[2..];
      assert goal == Submission.UploadSlots(o, client.trace, userId, slots[2..], [floatFreeUrl.value, coverUrl.value]);
      ghost var t2 := client.trace;
      var junctionUrl := UploadSlot(client, userId, formData.junctionBox, StoragePath.Named("junction"));
      Submission.UploadSlotsCons(o, t2, userId, slots[2..], [floatFreeUrl.value, coverUrl.value]);
      if junctionUrl.None? {
        return false;
      }
      assert [floatFreeUrl.value, coverUrl.value] + [junctionUrl.value] == [floatFreeUrl.value, coverUrl.value, junctionUrl.value];
      assert slots[2..][1..] == slots[3..];
      assert goal == Submission.UploadSlots(o, client.trace, userId, slots[3..], [floatFreeUrl.value, coverUrl.value, junctionUrl.value]);
      ghost var t3 := client.trace;
      var hruUrl := UploadSlot(client, userId, formData.hru, StoragePath.Named("hru"));
      Submission.UploadSlotsCons(o, t3, userId, slots[3..], [floatFreeUrl.value, coverUrl.value, junctionUrl.value]);
      if hruUrl.None? {
        return false;
      }
      assert [floatFreeUrl.value, coverUrl.value, junctionUrl.value] + [hruUrl.value] == [floatFreeUrl.value, coverUrl.value, junctionUrl.value, hruUrl.value];
      assert slots[3..][1..] == slots[4..];
      assert goal == Submission.UploadSlots(o, client.trace, userId, slots[4..], [floatFreeUrl.value, coverUrl.value, junctionUrl.value, hruUrl.value]);
      assert slots[4..] == [];
      var optionalUrls := UploadFiles(client, userId, formData.floatOptional, "float_optional");
      if optionalUrls.None? {
        return false;
      }
      var _ := client.Insert(FloatFreeRow(id, floatFreeUrl.value.GetOr(""), coverUrl.value.GetOr(""), junctionUrl.value.GetOr(""),
                                          hruUrl.value.GetOr(""), optionalUrls.value));
      return true;
    }

    /** The BCP section: one slot, the optional list, then the `bcp_display` insert. */
    method SubmitBcpDisplay(client: Client, userId: string, id: string) returns (ok: bool)
      modifies client
      ensures var st := Submission.SectionStep(client.oracle, old(client.trace), userId, id, formData, Submission.SectionFor(Submission.BcpPart, formData));
        client.trace == st.trace && ok == st.value.Some?
    {
      ghost var o, slots := client.oracle, Submission.SectionFor(Submission.BcpPart, formData).slots;
      ghost var goal := Submission.UploadSlots(o, client.trace, userId, slots, []);
      ghost var t0 := client.trace;
      var bcpUrl := UploadSlot(client, userId, formData.bcpDisplay, StoragePath.Named("bcp"));
      Submission.UploadSlotsCons(o, t0, userId, slots[0..], []);
      if bcpUrl.None? {
        return false;
      }
      assert [] + [bcpUrl.value] == [bcpUrl.value];
      assert slots[0..][1..] == slots[1..];
      assert goal == Submission.UploadSlots(o, client.trace, userId, slots[1..], [bcpUrl.value]);
      assert slots[1..] == [];
      var optionalUrls := UploadFiles(client, userId, formData.bcpOptional, "bcp_optional");
      if optionalUrls.None? {
        return false;
      }
      var _ := client.Insert(BcpDisplayRow(id, bcpUrl.value.GetOr(""), optionalUrls.value));
      return true;
    }

    /** The video-interface section: two slots, the optional list, then the `video_interface` insert. */
    method SubmitVideoInterface(client: Client, userId: string, id: string) returns (ok: bool)
      modifies client
      ensures var st := Submission.SectionStep(client.oracle, old(client.trace), userId, id, formData, Submission.SectionFor(Submission.VideoPart, formData));
        client.trace == st.trace && ok == st.value.Some?
    {
      ghost var o, slots := client.oracle, Submission.SectionFor(Submission.VideoPart, formData).slots;
      ghost var goal := Submission.UploadSlots(o, client.trace, userId, slots, []);
      ghost var t0 := client.trace;
      var unit1Url := UploadSlot(client, userId, formData.videoUnit1, StoragePath.Named("video1"));
      Submission.UploadSlotsCons(o, t0, userId, slots[0..], []);
      if unit1Url.None? {
        return false;
      }
      assert [] + [unit1Url.value] == [unit1Url.value];
      assert slots[0..][1..] == slots[1..];
      assert goal == Submission.UploadSlots(o, client.trace, userId, slots[1..], [unit1Url.value]);
      ghost var t1 := client.trace;
      var unit2Url := UploadSlot(client, userId, formData.videoUnit2, StoragePath.Named("video2"));
      Submission.UploadSlotsCons(o, t1, userId, slots[1..], [unit1Url.value]);
      if unit2Url.None? {
        return false;
      }
      assert [unit1Url.value] + [unit2Url.value] == [unit1Url.value, unit2Url.value];
      assert slots[1..][1..] == slots[2..];
      assert goal == Submission.UploadSlots(o, client.trace, userId, slots[2..], [unit1Url.value, unit2Url.value]);
      assert slots[2..] == [];
      var optionalUrls := UploadFiles(client, userId, formData.videoOptional, "video_optional");
      if optionalUrls.None? {
        return false;
      }
      var _ := client.Insert(VideoInterfaceRow(id, unit1Url.value.GetOr(""), unit2Url.value.GetOr(""), optionalUrls.value));
      return true;
    }

    /** The reports section: three slots (a missing class report stays null), the previous certificates, then the `reports` insert. */
    method SubmitReports(client: Client, userId: string, id: string) returns (ok: bool)
      modifies client
      ensures var st := Submission.SectionStep(client.oracle, old(client.trace), userId, id, formData, Submission.SectionFor(Submission.ReportsPart, formData));
        client.trace == st.trace && ok == st.value.Some?
    {
      ghost var o, slots := client.oracle, Submission.SectionFor(Submission.ReportsPart, formData).slots;
      ghost var goal := Submission.UploadSlots(o, client.trace, userId, slots, []);
      ghost var t0 := client.trace;
      var epirbUrl := UploadSlot(client, userId, formData.epirbReport, StoragePath.Named("epirb"));
      Submission.UploadSlotsCons(o, t0, userId, slots[0..], []);
      if epirbUrl.None? {
        return false;
      }
      assert [] + [epirbUrl.value] == [epirbUrl.value];
      assert slots[0..][1..] == slots[1..];
      assert goal == Submission.UploadSlots(o, client.trace, userId, slots[1..], [epirbUrl.value]);
      ghost var t1 := client.trace;
      var makerUrl := UploadSlot(client, userId, formData.makerReport, StoragePath.Named("maker"));
      Submission.UploadSlotsCons(o, t1, userId, slots[1..], [epirbUrl.value]);
      if makerUrl.None? {
        return false;
      }
      assert [epirbUrl.value] + [makerUrl.value] == [epirbUrl.value, makerUrl.value];
      assert slots[1..][1..] == slots[2..];
      assert goal == Submission.UploadSlots(o, client.trace, userId, slots[2..], [epirbUrl.value, makerUrl.value]);
      ghost var t2 := client.trace;
      var classUrl := UploadSlot(client, userId, formData.classReport, StoragePath.Named("class"));
      Submission.UploadSlotsCons(o, t2, userId, slots[2..], [epirbUrl.value, makerUrl.value]);
      if classUrl.None? {
        return false;
      }
      assert [epirbUrl.value, makerUrl.value] + [classUrl.value] == [epirbUrl.value, makerUrl.value, classUrl.value];
      assert slots[2..][1..] == slots[3..];
      assert goal == Submission.UploadSlots(o, client.trace, userId, slots[3..], [epirbUrl.value, makerUrl.value, classUrl.value]);
      assert slots[3..] == [];
      var optionalUrls := UploadFiles(client, userId, formData.previousCoc, "coc");
      if optionalUrls.None? {
        return false;
      }
      var _ := client.Insert(ReportsRow(id, epirbUrl.value.GetOr(""), makerUrl.value.GetOr(""), classUrl.value,
                                        if formData.className == "" then None else Some(formData.className), optionalUrls.value));
      return true;
    }

    /** The six sections in their fixed order, stopping at the first thrown error. */
    method SubmitSections(client: Client, userId: string, id: string) returns (ok: bool)
      modifies client
      ensures var r := Submission.RunSections(client.oracle, old(client.trace), userId, id, formData, Submission.Sections(formData));
        client.trace == r.trace && ok == r.completed
    {
      ghost var ss := Submission.Sections(formData);
      ghost var goal := Submission.RunSections(client.oracle, client.trace, userId, id, formData, ss[0..]);
      ghost var t0 := client.trace;
      var ok0 := SubmitDauPhotos(client, userId, id);
      Submission.RunSectionsCons(client.oracle, t0, userId, id, formData, ss[0..]);
      if !ok0 {
        return false;
      }
      assert ss[0..][1..] == ss[1..];
      assert goal == Submission.RunSections(client.oracle, client.trace, userId, id, formData, ss[1..]);
      ghost var t1 := client.trace;
      var ok1 := SubmitFixedCapsule(client, userId, id);
      Submission.RunSectionsCons(client.oracle, t1, userId, id, formData, ss[1..]);
      if !ok1 {
        return false;
      }
      assert ss[1..][1..] == ss[2..];
      assert goal == Submission.RunSections(client.oracle, client.trace, userId, id, formData, ss[2..]);
      ghost var t2 := client.trace;
      var ok2 := SubmitFloatFree(client, userId, id);
      Submission.RunSectionsCons(client.oracle, t2, userId, id, formData, ss[2..]);
      if !ok2 {
        return false;
      }
      assert ss[2..][1..] == ss[3..];
      assert goal == Submission.RunSections(client.oracle, client.trace, userId, id, formData, ss[3..]);
      ghost var t3 := client.trace;
      var ok3 := SubmitBcpDisplay(client, userId, id);
      Submission.RunSectionsCons(client.oracle, t3, userId, id, formData, ss[3..]);
      if !ok3 {
        return false;
      }
      assert ss[3..][1..] == ss[4..];
      assert goal == Submission.RunSections(client.oracle, client.trace, userId, id, formData, ss[4..]);
      ghost var t4 := client.trace;
      var ok4 := SubmitVideoInterface(client, userId, id);
      Submission.RunSectionsCons(client.oracle, t4, userId, id, formData, ss[4..]);
      if !ok4 {
        return false;
      }
      assert ss[4..][1..] == ss[5..];
      assert goal == Submission.RunSections(client.oracle, client.trace, userId, id, formData, ss[5..]);
      ghost var t5 := client.trace;
      var ok5 := SubmitReports(client, userId, id);
      Submission.RunSectionsCons(client.oracle, t5, userId, id, formData, ss[5..]);
      if !ok5 {
        return false;
      }
      assert ss[5..][1..] == ss[6..];
      assert goal == Submission.RunSections(client.oracle, client.trace, userId, id, formData, ss[6..]);
      assert ss[6..] == [];
      return true;
    }

    /** The `catch` and `finally` of the submit handler: the error message, and the end of loading. */
    method Fail()
      modifies this
      ensures error == Submission.SubmitFailedMessage && !loading
      ensures currentPage == old(currentPage) && formData == old(formData)
    {
      error := Submission.SubmitFailedMessage;
      loading := false;
    }

    /**
     * `handleSubmit(asDraft)`: issues exactly the calls `Submission.Submit` describes and reports
     * whether `onComplete` was called. Without a user nothing happens; otherwise loading ends
     * false, and the error message is set exactly when the run stopped early.
     */
    method HandleSubmit(asDraft: bool, user: Option<Backend.User>, client: Client) returns (completed: bool)
      requires Valid()
      modifies this, client
      ensures Valid()
      ensures currentPage == old(currentPage) && formData == old(formData)
      ensures var r := Submission.Submit(client.oracle, old(client.trace), formData, user, asDraft);
        client.trace == r.trace && completed == r.completed
      ensures user.None? ==> loading == old(loading) && error == old(error)
      ensures user.Some? ==> !loading && error == (if completed then "" else Submission.SubmitFailedMessage)
    {
      if user.None? {
        return false;
      }
      var u := user.value;
      loading := true;
      error := "";
      ghost var goal := Submission.Submit(client.oracle, client.trace, formData, user, asDraft);
      var inspection := client.Insert(Submission.ParentRow(u.id, formData, asDraft));
      if inspection.InsertFailed? {
        Fail();
        return false;
      }
      assert goal == Submission.RunSections(client.oracle, client.trace, u.id, inspection.id, formData, Submission.Sections(formData));
      var ok := SubmitSections(client, u.id, inspection.id);
      if !ok {
        Fail();
        return false;
      }
      loading := false;
      return true;
    }
  }
}
