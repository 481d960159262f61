/**
 * What the inspection wizard's submit handler does against the backend, as functions of the
 * oracle, the history of calls before the submit, the form record, the signed-in user and the
 * draft flag. The handler itself (a method of `InspectionForm.Wizard`) is proved to issue exactly
 * the calls these functions describe; the lemmas below state what those calls are.
 *
 * Order of events: one insert of the parent inspection row; if that fails, nothing else. Then,
 * for each of six sections in a fixed order, one upload per present single-file slot, one
 * upload per file of the section's optional list, and one insert of the section's row. The
 * first upload error stops the run. The replies to the six section inserts are not looked at.
 */
module Submission {
  import opened Wrappers
  import opened FormTypes
  import opened Backend
  import Js
  import StoragePath

  /** The calls issued so far, and the value computed, or `None` once an error was thrown. */
  datatype Outcome<T> = Outcome(trace: seq<Call>, value: Option<T>)

  /** A finished submit: all calls issued, and whether `onComplete` was called. */
  datatype Submission = Submission(trace: seq<Call>, completed: bool)

  const SubmitFailedMessage: string := "Failed to submit inspection. Please try again."

  // ---------------------------------------------------------------------------------------
  // Uploads

  /** `uploadFile(file, tag)`: read the clock, upload under the user's folder, throw on error, else return the public URL. */
  function UploadFile(o: Oracle, h: seq<Call>, userId: string, file: File, tag: StoragePath.Tag): Outcome<string> {
    var key := StoragePath.Key(userId, tag, o.clock(h), file.name);
    var t := h + [Call.Upload(key, file)];
    if o.uploadFails(t) then Outcome(t, None) else Outcome(t, Some(o.publicUrl(key)))
  }

  /** One single-file slot of a section and the tag its file is stored under. */
  datatype Slot = Slot(file: Option<File>, tag: StoragePath.Tag)

  /** `slot ? await uploadFile(slot, tag) : <placeholder>`: an empty slot issues no call and yields no URL. */
  function UploadSlot(o: Oracle, h: seq<Call>, userId: string, s: Slot): Outcome<Option<string>> {
    match s.file
    case None => Outcome(h, Some(None))
    case Some(file) =>
      var r := UploadFile(o, h, userId, file, s.tag);
      match r.value
      case None => Outcome(r.trace, None)
      case Some(url) => Outcome(r.trace, Some(Some(url)))
  }

  /** The single-file slots of a section, one after the other; `done` holds the results of the slots before them. */
  function UploadSlots(o: Oracle, h: seq<Call>, userId: string, slots: seq<Slot>, done: seq<Option<string>>): Outcome<seq<Option<string>>>
    decreases |slots|
  {
    if slots == [] then Outcome(h, Some(done))
    else
      var r := UploadSlot(o, h, userId, slots[0]);
      match r.value
      case None => Outcome(r.trace, None)
      case Some(url) => UploadSlots(o, r.trace, userId, slots[1..], done + [url])
  }

  /** `uploadFiles(files, base)` after the first `k` iterations of its loop. */
  function UploadFiles(o: Oracle, h: seq<Call>, userId: string, files: seq<File>, base: string, k: nat): Outcome<seq<string>>
    requires k <= |files|
    decreases k
  {
    if k == 0 then Outcome(h, Some([]))
    else
      var prev := UploadFiles(o, h, userId, files, base, k - 1);
      match prev.value
      case None => prev
      case Some(urls) =>
        var r := UploadFile(o, prev.trace, userId, files[k - 1], StoragePath.Indexed(base, k - 1));
        match r.value
        case None => Outcome(r.trace, None)
        case Some(url) => Outcome(r.trace, Some(urls + [url]))
  }

  // ---------------------------------------------------------------------------------------
  // Sections

  /** The six dependent sections, in the order the handler processes them. */
  datatype Part = DauPart | CapsulePart | FloatPart | BcpPart | VideoPart | ReportsPart

  function PartTable(p: Part): Table {
    match p
    case DauPart => DauPhotosTable
    case CapsulePart => FixedCapsuleTable
    case FloatPart => FloatFreeTable
    case BcpPart => BcpDisplayTable
    case VideoPart => VideoInterfaceTable
    case ReportsPart => ReportsTable
  }

  /** A section: its single-file slots with their tags, its optional list and the list's base tag. */
  datatype Section = Section(part: Part, slots: seq<Slot>, optional: seq<File>, base: string)

  function SectionFor(p: Part, f: FormData): Section {
    match p
    case DauPart =>
      Section(DauPart, [Slot(f.dauDoorOpen, StoragePath.Named("dau_door")), Slot(f.grounding, StoragePath.Named("grounding")), Slot(f.batteryPhoto, StoragePath.Named("battery"))],
              f.dauOptional, "dau_optional")
    case CapsulePart =>
      Section(CapsulePart, [Slot(f.capsulePhoto, StoragePath.Named("capsule")), Slot(f.cableGland, StoragePath.Named("cable_gland")), Slot(f.beaconExpiry, StoragePath.Named("beacon"))],
              f.capsuleOptional, "capsule_optional")
    case FloatPart =>
      Section(FloatPart, [Slot(f.floatFree, StoragePath.Named("float_free")), Slot(f.coverRemoved, StoragePath.Named("cover")), Slot(f.junctionBox, StoragePath.Named("junction")), Slot(f.hru, StoragePath.Named("hru"))],
              f.floatOptional, "float_optional")
    case BcpPart =>
      Section(BcpPart, [Slot(f.bcpDisplay, StoragePath.Named("bcp"))], f.bcpOptional, "bcp_optional")
    case VideoPart =>
      Section(VideoPart, [Slot(f.videoUnit1, StoragePath.Named("video1")), Slot(f.videoUnit2, StoragePath.Named("video2"))], f.videoOptional, "video_optional")
    case ReportsPart =>
      Section(ReportsPart, [Slot(f.epirbReport, StoragePath.Named("epirb")), Slot(f.makerReport, StoragePath.Named("maker")), Slot(f.classReport, StoragePath.Named("class"))],
              f.previousCoc, "coc")
  }

  function Sections(f: FormData): seq<Section> {
    [SectionFor(DauPart, f), SectionFor(CapsulePart, f), SectionFor(FloatPart, f),
     SectionFor(BcpPart, f), SectionFor(VideoPart, f), SectionFor(ReportsPart, f)]
  }

  function SlotUrl(urls: seq<Option<string>>, i: nat): Option<string> {
    if i < |urls| then urls[i] else None
  }

  /**
   * The row a section inserts. A missing required photo becomes `''`; a missing class report
   * stays null, and so does an empty class name (`formData.className || null`).
   */
  function MakeRow(p: Part, id: string, f: FormData, su: seq<Option<string>>, ou: seq<string>): Row {
    match p
    case DauPart =>
      DauPhotosRow(id, SlotUrl(su, 0).GetOr(""), f.serialNumber, SlotUrl(su, 1).GetOr(""), SlotUrl(su, 2).GetOr(""), ou)
    case CapsulePart =>
      FixedCapsuleRow(id, SlotUrl(su, 0).GetOr(""), SlotUrl(su, 1).GetOr(""), SlotUrl(su, 2).GetOr(""), ou)
    case FloatPart =>
      FloatFreeRow(id, SlotUrl(su, 0).GetOr(""), SlotUrl(su, 1).GetOr(""), SlotUrl(su, 2).GetOr(""), SlotUrl(su, 3).GetOr(""), ou)
    case BcpPart =>
      BcpDisplayRow(id, SlotUrl(su, 0).GetOr(""), ou)
    case VideoPart =>
      VideoInterfaceRow(id, SlotUrl(su, 0).GetOr(""), SlotUrl(su, 1).GetOr(""), ou)
    case ReportsPart =>
      ReportsRow(id, SlotUrl(su, 0).GetOr(""), SlotUrl(su, 1).GetOr(""), SlotUrl(su, 2),
                 if f.className == "" then None else Some(f.className), ou)
  }

  /** One section: its slots, its optional list, then the insert of its row (whose reply is ignored). */
  function SectionStep(o: Oracle, h: seq<Call>, userId: string, id: string, f: FormData, s: Section): Outcome<Row> {
    var a := UploadSlots(o, h, userId, s.slots, []);
    match a.value
    case None => Outcome(a.trace, None)
    case Some(su) =>
      var b := UploadFiles(o, a.trace, userId, s.optional, s.base, |s.optional|);
      match b.value
      case None => Outcome(b.trace, None)
      case Some(ou) =>
        var row := MakeRow(s.part, id, f, su, ou);
        Outcome(b.trace + [Call.Insert(row)], Some(row))
  }

  /** The sections `ss`, in order, stopping at the first one that throws; reaching the end calls `onComplete`. */
  function RunSections(o: Oracle, h: seq<Call>, userId: string, id: string, f: FormData, ss: seq<Section>): Submission
    decreases |ss|
  {
    if ss == [] then Submission(h, true)
    else
      var st := SectionStep(o, h, userId, id, f, ss[0]);
      match st.value
      case None => Submission(st.trace, false)
      case Some(_) => RunSections(o, st.trace, userId, id, f, ss[1..])
  }

  /** The parent row: the page-1 fields and the status chosen by the button pressed. */
  function ParentRow(userId: string, f: FormData, asDraft: bool): Row {
    InspectionRow(userId, f.engineerName, f.vesselName, f.location, f.inspectionDate, f.vdrMake,
                  f.imoNumber, f.mmsiNumber, if asDraft then Draft else Submitted)
  }

  /** `handleSubmit(asDraft)` for the calls it issues, starting after the history `h`. */
  function Submit(o: Oracle, h: seq<Call>, f: FormData, user: Option<User>, asDraft: bool): Submission {
    match user
    case None => Submission(h, false)
    case Some(u) =>
      var t := h + [Call.Insert(ParentRow(u.id, f, asDraft))];
      match o.insertReply(t)
      case InsertFailed(_) => Submission(t, false)
      case Inserted(id) => RunSections(o, t, u.id, id, f, Sections(f))
  }

  // ---------------------------------------------------------------------------------------
  // The shape of a trace

  /** What a call is, with paths and rows left out: an upload of a given file, or an insert into a given table. */
  datatype Marker = UploadOf(file: File) | InsertInto(table: Table)

  function MarkerOf(c: Call): Marker {
    match c
    case Upload(_, file) => UploadOf(file)
    case Insert(row) => InsertInto(TableOf(row))
  }

  function Shape(t: seq<Call>): (m: seq<Marker>)
    ensures |m| == |t|
  {
    seq(|t|, i requires 0 <= i < |t| => MarkerOf(t[i]))
  }

  function Uploads(files: seq<File>): (m: seq<Marker>)
    ensures |m| == |files|
  {
    seq(|files|, i requires 0 <= i < |files| => UploadOf(files[i]))
  }

  /** The files of the slots that hold one, in slot order. */
  function PresentFiles(slots: seq<Slot>): seq<File>
    decreases |slots|
  {
    if slots == [] then []
    else (if slots[0].file.Some? then [slots[0].file.value] else []) + PresentFiles(slots[1..])
  }

  /** A section's calls when nothing fails: its present slots, its optional files, its insert. */
  function SectionShape(s: Section): seq<Marker> {
    Uploads(PresentFiles(s.slots) + s.optional) + [InsertInto(PartTable(s.part))]
  }

  function SectionsShape(ss: seq<Section>): seq<Marker>
    decreases |ss|
  {
    if ss == [] then [] else SectionShape(ss[0]) + SectionsShape(ss[1..])
  }

  /** The calls a submit issues when nothing fails. */
  function ExpectedShape(f: FormData): seq<Marker> {
    [InsertInto(InspectionsTable)] + SectionsShape(Sections(f))
  }

  /** The tables inserted into, in order. */
  function InsertedTables(m: seq<Marker>): seq<Table>
    decreases |m|
  {
    if m == [] then []
    else (if m[0].InsertInto? then [m[0].table] else []) + InsertedTables(m[1..])
  }

  const TableOrder: seq<Table> :=
    [InspectionsTable, DauPhotosTable, FixedCapsuleTable, FloatFreeTable, BcpDisplayTable, VideoInterfaceTable, ReportsTable]

  // ---------------------------------------------------------------------------------------
  // Segments of a trace

  /** Every upload issued at an index in [lo, hi) of `t` was accepted by the storage service. */
  ghost predicate UploadsOk(o: Oracle, t: seq<Call>, lo: int, hi: int) {
    0 <= lo <= hi <= |t| &&
    forall j :: lo <= j < hi && t[j].Upload? ==> !o.uploadFails(t[..j + 1])
  }

  /**
   * `t` extends `h`, and the calls after `h` either all went through (`ok`), or all went
   * through except the last, which is a failed upload.
   */
  ghost predicate Segment(o: Oracle, h: seq<Call>, t: seq<Call>, ok: bool) {
    h <= t &&
    if ok then UploadsOk(o, t, |h|, |t|)
    else |h| < |t| && t[|t| - 1].Upload? && o.uploadFails(t) && UploadsOk(o, t, |h|, |t| - 1)
  }

  lemma UploadsOkExtend(o: Oracle, t: seq<Call>, t': seq<Call>, lo: int, hi: int)
    requires UploadsOk(o, t, lo, hi) && t <= t'
    ensures UploadsOk(o, t', lo, hi)
  {
    forall j | lo <= j < hi && t'[j].Upload?
      ensures !o.uploadFails(t'[..j + 1])
    {
      assert t'[..j + 1] == t[..j + 1];
    }
  }

  lemma SegmentChain(o: Oracle, h: seq<Call>, t1: seq<Call>, t2: seq<Call>, ok: bool)
    requires Segment(o, h, t1, true) && Segment(o, t1, t2, ok)
    ensures Segment(o, h, t2, ok)
  {
    UploadsOkExtend(o, t1, t2, |h|, |t1|);
    assert t2[..|h|] == t1[..|h|];
  }

  lemma SegmentInsert(o: Oracle, h: seq<Call>, t: seq<Call>, row: Row)
    requires Segment(o, h, t, true)
    ensures Segment(o, h, t + [Call.Insert(row)], true)
  {
    UploadsOkExtend(o, t, t + [Call.Insert(row)], |h|, |t|);
  }

  lemma ShapeAppend(a: seq<Call>, b: seq<Call>)
    ensures Shape(a + b) == Shape(a) + Shape(b)
  {
    assert forall i :: 0 <= i < |a + b| ==> Shape(a + b)[i] == (Shape(a) + Shape(b))[i];
  }

  lemma UploadsAppend(a: seq<File>, b: seq<File>)
    ensures Uploads(a + b) == Uploads(a) + Uploads(b)
  {
    assert forall i :: 0 <= i < |a + b| ==> Uploads(a + b)[i] == (Uploads(a) + Uploads(b))[i];
  }

  /** The calls after `h` in `t2`, split at the intermediate trace `t1`. */
  lemma ExtensionSplit(h: seq<Call>, t1: seq<Call>, t2: seq<Call>)
    requires h <= t1 <= t2
    ensures t2[|h|..] == t1[|h|..] + t2[|t1|..]
    ensures Shape(t2[|h|..]) == Shape(t1[|h|..]) + Shape(t2[|t1|..])
  {
    assert t2[|h|..] == t1[|h|..] + t2[|t1|..];
    ShapeAppend(t1[|h|..], t2[|t1|..]);
  }

  /** Below the end of `a`, a sequence that extends `a` agrees with it, element by element and prefix by prefix. */
  lemma TakeOfExtension<T>(a: seq<T>, b: seq<T>, j: int)
    requires a <= b && 0 <= j <= |b|
    ensures j < |a| ==> b[j] == a[j]
    ensures j <= |a| ==> b[..j] == a[..j]
    ensures j == |a| ==> b[..j] == a
  {
  }

  lemma PrefixAppend<T>(a: seq<T>, b: seq<T>, c: seq<T>)
    requires b <= c
    ensures a + b <= a + c
  {
    assert (a + c)[..|a + b|] == a + b;
  }

  lemma PrefixOfAppend<T>(a: seq<T>, b: seq<T>, c: seq<T>)
    requires a <= b
    ensures a <= b + c
  {
    assert (b + c)[..|a|] == a;
  }

  // ---------------------------------------------------------------------------------------
  // What each stage issues

  /** A single upload: one call, which either went through with the path's public URL, or failed and threw. */
  lemma UploadFileFacts(o: Oracle, h: seq<Call>, userId: string, file: File, tag: StoragePath.Tag)
    ensures var r := UploadFile(o, h, userId, file, tag);
      r.trace == h + [Call.Upload(StoragePath.Key(userId, tag, o.clock(h), file.name), file)]
    ensures var r := UploadFile(o, h, userId, file, tag);
      r.value.None? <==> o.uploadFails(r.trace)
    ensures var r := UploadFile(o, h, userId, file, tag);
      r.value.Some? ==> r.value.value == o.publicUrl(StoragePath.Key(userId, tag, o.clock(h), file.name))
    ensures var r := UploadFile(o, h, userId, file, tag);
      Segment(o, h, r.trace, r.value.Some?)
    ensures var r := UploadFile(o, h, userId, file, tag);
      Shape(r.trace[|h|..]) == [UploadOf(file)]
  {
    var r := UploadFile(o, h, userId, file, tag);
    assert r.trace[|h|..] == [r.trace[|h|]];
    assert r.trace[..|r.trace|] == r.trace;
  }

  /** One slot: no call when it is empty, one upload of its file otherwise; a result is missing exactly for an empty slot. */
  lemma UploadSlotFacts(o: Oracle, h: seq<Call>, userId: string, s: Slot)
    ensures var r := UploadSlot(o, h, userId, s);
      Segment(o, h, r.trace, r.value.Some?)
    ensures var r := UploadSlot(o, h, userId, s);
      Shape(r.trace[|h|..]) == Uploads(if s.file.Some? then [s.file.value] else [])
    ensures var r := UploadSlot(o, h, userId, s);
      r.value.Some? ==> (r.value.value.None? <==> s.file.None?)
  {
    var r := UploadSlot(o, h, userId, s);
    if s.file.Some? {
      UploadFileFacts(o, h, userId, s.file.value, s.tag);
      assert r.trace == UploadFile(o, h, userId, s.file.value, s.tag).trace;
      assert Uploads([s.file.value]) == [UploadOf(s.file.value)];
    } else {
      assert r.trace == h;
      assert r.trace[|h|..] == [];
    }
  }

  /** The uploads of a section's slots all went through, except possibly a last failed one. */
  lemma {:induction false} UploadSlotsSegment(o: Oracle, h: seq<Call>, userId: string, slots: seq<Slot>, done: seq<Option<string>>)
    ensures var r := UploadSlots(o, h, userId, slots, done);
      Segment(o, h, r.trace, r.value.Some?)
    decreases |slots|
  {
    if slots == [] {
      assert UploadSlots(o, h, userId, slots, done).trace == h;
    } else {
      var r := UploadSlots(o, h, userId, slots, done);
      var first := UploadSlot(o, h, userId, slots[0]);
      UploadSlotFacts(o, h, userId, slots[0]);
      if first.value.None? {
        assert r.trace == first.trace && r.value.None?;
      } else {
        var url := first.value.value;
        assert r == UploadSlots(o, first.trace, userId, slots[1..], done + [url]);
        UploadSlotsSegment(o, first.trace, userId, slots[1..], done + [url]);
        SegmentChain(o, h, first.trace, r.trace, r.value.Some?);
      }
    }
  }

  /** The slots of a section issue an upload per present slot, in slot order. */
  lemma {:induction false} UploadSlotsShape(o: Oracle, h: seq<Call>, userId: string, slots: seq<Slot>, done: seq<Option<string>>)
    ensures h <= UploadSlots(o, h, userId, slots, done).trace
    ensures var r := UploadSlots(o, h, userId, slots, done);
      Shape(r.trace[|h|..]) <= Uploads(PresentFiles(slots))
    ensures var r := UploadSlots(o, h, userId, slots, done);
      r.value.Some? ==> Shape(r.trace[|h|..]) == Uploads(PresentFiles(slots))
    decreases |slots|
  {
    var r := UploadSlots(o, h, userId, slots, done);
    if slots == [] {
      assert r.trace == h;
      assert r.trace[|h|..] == [];
    } else {
      var s := slots[0];
      var first := UploadSlot(o, h, userId, s);
      UploadSlotFacts(o, h, userId, s);
      var pf := if s.file.Some? then [s.file.value] else [];
      assert PresentFiles(slots) == pf + PresentFiles(slots[1..]);
      UploadsAppend(pf, PresentFiles(slots[1..]));
      assert h <= first.trace;
      if first.value.None? {
        assert r.trace == first.trace;
        PrefixOfAppend(Uploads(pf), Uploads(pf), Uploads(PresentFiles(slots[1..])));
      } else {
        var url := first.value.value;
        assert r == UploadSlots(o, first.trace, userId, slots[1..], done + [url]);
        UploadSlotsShape(o, first.trace, userId, slots[1..], done + [url]);
        ExtensionSplit(h, first.trace, r.trace);
        PrefixAppend(Uploads(pf), Shape(r.trace[|first.trace|..]), Uploads(PresentFiles(slots[1..])));
      }
    }
  }

  /** When the slots all went through, there is one result per slot, missing exactly where the slot is empty. */
  lemma {:induction false} UploadSlotsValues(o: Oracle, h: seq<Call>, userId: string, slots: seq<Slot>, done: seq<Option<string>>)
    ensures var r := UploadSlots(o, h, userId, slots, done);
      r.value.Some? ==> |r.value.value| == |done| + |slots| && r.value.value[..|done|] == done
    ensures var r := UploadSlots(o, h, userId, slots, done);
      r.value.Some? ==> forall i :: |done| <= i < |done| + |slots| ==> (r.value.value[i].None? <==> slots[i - |done|].file.None?)
    decreases |slots|
  {
    var r := UploadSlots(o, h, userId, slots, done);
    if slots == [] {
      assert r.value == Some(done);
    } else {
      var s := slots[0];
      var first := UploadSlot(o, h, userId, s);
      UploadSlotFacts(o, h, userId, s);
      if first.value.Some? {
        var url := first.value.value;
        assert r == UploadSlots(o, first.trace, userId, slots[1..], done + [url]);
        UploadSlotsValues(o, first.trace, userId, slots[1..], done + [url]);
        if r.value.Some? {
          var v := r.value.value;
          assert v[..|done|] == (done + [url])[..|done|];
          forall i | |done| <= i < |done| + |slots|
            ensures v[i].None? <==> slots[i - |done|].file.None?
          {
            if i > |done| {
              assert slots[i - |done|] == slots[1..][i - |done + [url]|];
            } else {
              assert v[|done|] == (done + [url])[|done|];
            }
          }
        }
      }
    }
  }

  /**
   * From index `lo` on, `t` holds the uploads of `files` in order: upload number j is `files[j]`
   * under the tag `base_j`, keyed with the clock read just before it.
   */
  ghost predicate ListUploads(o: Oracle, t: seq<Call>, lo: int, userId: string, files: seq<File>, base: string) {
    0 <= lo <= |t| && |t| - lo <= |files| &&
    forall j :: lo <= j < |t| ==>
      t[j] == Call.Upload(StoragePath.Key(userId, StoragePath.Indexed(base, j - lo), o.clock(t[..j]), files[j - lo].name), files[j - lo])
  }

  lemma ListUploadsExtend(o: Oracle, t: seq<Call>, lo: int, userId: string, files: seq<File>, base: string)
    requires ListUploads(o, t, lo, userId, files, base) && |t| - lo < |files|
    ensures var i := |t| - lo;
      ListUploads(o, t + [Call.Upload(StoragePath.Key(userId, StoragePath.Indexed(base, i), o.clock(t), files[i].name), files[i])],
                  lo, userId, files, base)
  {
    var i := |t| - lo;
    var t' := t + [Call.Upload(StoragePath.Key(userId, StoragePath.Indexed(base, i), o.clock(t), files[i].name), files[i])];
    forall j | lo <= j < |t'|
      ensures t'[j] == Call.Upload(StoragePath.Key(userId, StoragePath.Indexed(base, j - lo), o.clock(t'[..j]), files[j - lo].name), files[j - lo])
    {
      TakeOfExtension(t, t', j);
    }
  }

  /** `uploadFiles` after `k` iterations has issued at most `k` calls, exactly `k` when it returns, one URL per call. */
  lemma {:induction false} UploadFilesLength(o: Oracle, h: seq<Call>, userId: string, files: seq<File>, base: string, k: nat)
    requires k <= |files|
    ensures var r := UploadFiles(o, h, userId, files, base, k);
      h <= r.trace && |r.trace| - |h| <= k && (r.value.Some? ==> |r.trace| - |h| == k && |r.value.value| == k)
    decreases k
  {
    var r := UploadFiles(o, h, userId, files, base, k);
    if k == 0 {
      assert r.trace == h && r.value == Some([]);
    } else {
      var prev := UploadFiles(o, h, userId, files, base, k - 1);
      UploadFilesLength(o, h, userId, files, base, k - 1);
      if prev.value.None? {
        assert r == prev;
      } else {
        var file := files[k - 1];
        var key := StoragePath.Key(userId, StoragePath.Indexed(base, k - 1), o.clock(prev.trace), file.name);
        UploadFileFacts(o, prev.trace, userId, file, StoragePath.Indexed(base, k - 1));
        assert r.trace == prev.trace + [Call.Upload(key, file)];
        assert r.value.Some? ==> |r.value.value| == |prev.value.value| + 1;
      }
    }
  }

  /** `uploadFiles` after `k` iterations: the uploads of a prefix of the files, in order. */
  lemma {:induction false} UploadFilesCalls(o: Oracle, h: seq<Call>, userId: string, files: seq<File>, base: string, k: nat)
    requires k <= |files|
    ensures ListUploads(o, UploadFiles(o, h, userId, files, base, k).trace, |h|, userId, files, base)
    decreases k
  {
    var r := UploadFiles(o, h, userId, files, base, k);
    UploadFilesLength(o, h, userId, files, base, k);
    if k == 0 {
      assert r.trace == h;
    } else {
      var prev := UploadFiles(o, h, userId, files, base, k - 1);
      UploadFilesCalls(o, h, userId, files, base, k - 1);
      if prev.value.None? {
        assert r.trace == prev.trace;
      } else {
        UploadFilesLength(o, h, userId, files, base, k - 1);
        var file := files[k - 1];
        var key := StoragePath.Key(userId, StoragePath.Indexed(base, k - 1), o.clock(prev.trace), file.name);
        assert r.trace == prev.trace + [Call.Upload(key, file)];
        ListUploadsExtend(o, prev.trace, |h|, userId, files, base);
      }
    }
  }

  /** When `uploadFiles` returns, URL number j is the public URL of its upload number j. */
  lemma {:induction false} UploadFilesUrls(o: Oracle, h: seq<Call>, userId: string, files: seq<File>, base: string, k: nat)
    requires k <= |files|
    ensures var r := UploadFiles(o, h, userId, files, base, k);
      r.value.Some? ==>
        h <= r.trace && |r.value.value| == |r.trace| - |h| &&
        forall j :: |h| <= j < |r.trace| ==> r.trace[j].Upload? && r.value.value[j - |h|] == o.publicUrl(r.trace[j].key)
    decreases k
  {
    var r := UploadFiles(o, h, userId, files, base, k);
    if k == 0 {
      assert r.trace == h && r.value == Some([]);
    } else {
      var prev := UploadFiles(o, h, userId, files, base, k - 1);
      UploadFilesUrls(o, h, userId, files, base, k - 1);
      if prev.value.Some? {
        var urls := prev.value.value;
        var file := files[k - 1];
        var key := StoragePath.Key(userId, StoragePath.Indexed(base, k - 1), o.clock(prev.trace), file.name);
        UploadFileFacts(o, prev.trace, userId, file, StoragePath.Indexed(base, k - 1));
        assert r.trace == prev.trace + [Call.Upload(key, file)];
        if r.value.Some? {
          assert r.value.value == urls + [o.publicUrl(key)];
          forall j | |h| <= j < |r.trace|
            ensures r.trace[j].Upload? && r.value.value[j - |h|] == o.publicUrl(r.trace[j].key)
          {
            if j < |prev.trace| {
              assert r.value.value[j - |h|] == urls[j - |h|];
              assert r.trace[j] == prev.trace[j];
            }
          }
        }
      }
    }
  }

  /** All uploads of `uploadFiles` went through, except a last one that failed and stopped the loop. */
  lemma {:induction false} UploadFilesSegment(o: Oracle, h: seq<Call>, userId: string, files: seq<File>, base: string, k: nat)
    requires k <= |files|
    ensures var r := UploadFiles(o, h, userId, files, base, k);
      Segment(o, h, r.trace, r.value.Some?)
    decreases k
  {
    if k == 0 {
      assert UploadFiles(o, h, userId, files, base, k).trace == h;
    } else {
      UploadFilesSegment(o, h, userId, files, base, k - 1);
      var prev := UploadFiles(o, h, userId, files, base, k - 1);
      if prev.value.Some? {
        var one := UploadFile(o, prev.trace, userId, files[k - 1], StoragePath.Indexed(base, k - 1));
        UploadFileFacts(o, prev.trace, userId, files[k - 1], StoragePath.Indexed(base, k - 1));
        assert UploadFiles(o, h, userId, files, base, k).trace == one.trace;
        assert UploadFiles(o, h, userId, files, base, k).value.Some? == one.value.Some?;
        SegmentChain(o, h, prev.trace, one.trace, one.value.Some?);
      }
    }
  }

  /** A stretch of uploads of the files `fs`, one each in order, has the shape of those uploads. */
  lemma ShapeOfUploads(t: seq<Call>, lo: int, fs: seq<File>)
    requires 0 <= lo <= |t| && |t| - lo <= |fs|
    requires forall j :: lo <= j < |t| ==> t[j].Upload? && t[j].file == fs[j - lo]
    ensures Shape(t[lo..]) == Uploads(fs[..|t| - lo])
  {
    assert forall i :: 0 <= i < |t| - lo ==> Shape(t[lo..])[i] == MarkerOf(t[lo + i]);
  }

  /** `uploadFiles` uploads a prefix of its files, all of them when it returns. */
  lemma UploadFilesShape(o: Oracle, h: seq<Call>, userId: string, files: seq<File>, base: string)
    ensures h <= UploadFiles(o, h, userId, files, base, |files|).trace
    ensures var r := UploadFiles(o, h, userId, files, base, |files|);
      Shape(r.trace[|h|..]) <= Uploads(files)
    ensures var r := UploadFiles(o, h, userId, files, base, |files|);
      r.value.Some? ==> Shape(r.trace[|h|..]) == Uploads(files)
  {
    var r := UploadFiles(o, h, userId, files, base, |files|);
    UploadFilesLength(o, h, userId, files, base, |files|);
    UploadFilesCalls(o, h, userId, files, base, |files|);
    assert files[..|files|] == files;
    ShapeOfUploads(r.trace, |h|, files);
    var n := |r.trace| - |h|;
    assert Uploads(files)[..n] == Uploads(files[..n]);
  }

  /** A dependent row that references the parent `id` and carries the right placeholders for absent files. */
  predicate RowFills(row: Row, id: string, f: FormData) {
    match row
    case InspectionRow(_, _, _, _, _, _, _, _, _) => false
    case DauPhotosRow(rid, door, serial, grounding, battery, opt) =>
      rid == id && (f.dauDoorOpen.None? ==> door == "") && serial == f.serialNumber
      && (f.grounding.None? ==> grounding == "") && (f.batteryPhoto.None? ==> battery == "")
      && |opt| == |f.dauOptional|
    case FixedCapsuleRow(rid, capsule, gland, beacon, opt) =>
      rid == id && (f.capsulePhoto.None? ==> capsule == "") && (f.cableGland.None? ==> gland == "")
      && (f.beaconExpiry.None? ==> beacon == "") && |opt| == |f.capsuleOptional|
    case FloatFreeRow(rid, float, cover, junction, hru, opt) =>
      rid == id && (f.floatFree.None? ==> float == "") && (f.coverRemoved.None? ==> cover == "")
      && (f.junctionBox.None? ==> junction == "") && (f.hru.None? ==> hru == "") && |opt| == |f.floatOptional|
    case BcpDisplayRow(rid, display, opt) =>
      rid == id && (f.bcpDisplay.None? ==> display == "") && |opt| == |f.bcpOptional|
    case VideoInterfaceRow(rid, unit1, unit2, opt) =>
      rid == id && (f.videoUnit1.None? ==> unit1 == "") && (f.videoUnit2.None? ==> unit2 == "") && |opt| == |f.videoOptional|
    case ReportsRow(rid, epirb, maker, classUrl, className, coc) =>
      rid == id && (f.epirbReport.None? ==> epirb == "") && (f.makerReport.None? ==> maker == "")
      && (classUrl.None? <==> f.classReport.None?)
      && className == (if f.className == "" then None else Some(f.className))
      && |coc| == |f.previousCoc|
  }

  /** Built from one URL result per slot (missing exactly for the empty slots), a section's row fills correctly. */
  lemma MakeRowFills(p: Part, id: string, f: FormData, su: seq<Option<string>>, ou: seq<string>)
    requires |su| == |SectionFor(p, f).slots| && |ou| == |SectionFor(p, f).optional|
    requires forall i :: 0 <= i < |su| ==> (su[i].None? <==> SectionFor(p, f).slots[i].file.None?)
    ensures RowFills(MakeRow(p, id, f, su, ou), id, f)
  {
    var slots := SectionFor(p, f).slots;
    assert forall i :: 0 <= i < |su| ==> SlotUrl(su, i) == su[i];
    if |su| > 0 { assert su[0].None? <==> slots[0].file.None?; }
    if |su| > 1 { assert su[1].None? <==> slots[1].file.None?; }
    if |su| > 2 { assert su[2].None? <==> slots[2].file.None?; }
    if |su| > 3 { assert su[3].None? <==> slots[3].file.None?; }
  }

  /** One section's uploads all went through, except possibly a last failed one, after which nothing was issued. */
  lemma SectionStepSegment(o: Oracle, h: seq<Call>, userId: string, id: string, f: FormData, s: Section)
    ensures var r := SectionStep(o, h, userId, id, f, s);
      Segment(o, h, r.trace, r.value.Some?)
  {
    var r := SectionStep(o, h, userId, id, f, s);
    var a := UploadSlots(o, h, userId, s.slots, []);
    UploadSlotsSegment(o, h, userId, s.slots, []);
    UploadSlotsShape(o, h, userId, s.slots, []);
    UploadSlotsValues(o, h, userId, s.slots, []);
    if a.value.None? {
      assert r.trace == a.trace && r.value.None?;
    } else {
      var b := UploadFiles(o, a.trace, userId, s.optional, s.base, |s.optional|);
      UploadFilesSegment(o, a.trace, userId, s.optional, s.base, |s.optional|);
      SegmentChain(o, h, a.trace, b.trace, b.value.Some?);
      if b.value.None? {
        assert r.trace == b.trace && r.value.None?;
      } else {
        var row := MakeRow(s.part, id, f, a.value.value, b.value.value);
        assert r.trace == b.trace + [Call.Insert(row)] && r.value.Some?;
        SegmentInsert(o, h, b.trace, row);
      }
    }
  }

  /** One section issues a prefix of its uploads and its insert, all of them when it finishes. */
  lemma SectionStepShape(o: Oracle, h: seq<Call>, userId: string, id: string, f: FormData, s: Section)
    ensures h <= SectionStep(o, h, userId, id, f, s).trace
    ensures var r := SectionStep(o, h, userId, id, f, s);
      Shape(r.trace[|h|..]) <= SectionShape(s)
    ensures var r := SectionStep(o, h, userId, id, f, s);
      r.value.Some? ==> Shape(r.trace[|h|..]) == SectionShape(s)
  {
    var r := SectionStep(o, h, userId, id, f, s);
    var a := UploadSlots(o, h, userId, s.slots, []);
    UploadSlotsSegment(o, h, userId, s.slots, []);
    UploadSlotsShape(o, h, userId, s.slots, []);
    UploadSlotsValues(o, h, userId, s.slots, []);
    var upSlots := Uploads(PresentFiles(s.slots));
    var upOpt := Uploads(s.optional);
    var ins := [InsertInto(PartTable(s.part))];
    UploadsAppend(PresentFiles(s.slots), s.optional);
    assert SectionShape(s) == upSlots + (upOpt + ins);
    if a.value.None? {
      assert r.trace == a.trace;
      PrefixOfAppend(Shape(a.trace[|h|..]), upSlots, upOpt + ins);
    } else {
      var b := UploadFiles(o, a.trace, userId, s.optional, s.base, |s.optional|);
      UploadFilesShape(o, a.trace, userId, s.optional, s.base);
      ExtensionSplit(h, a.trace, b.trace);
      assert Shape(a.trace[|h|..]) == upSlots;
      PrefixAppend(upSlots, Shape(b.trace[|a.trace|..]), upOpt);
      if b.value.None? {
        assert r.trace == b.trace;
        PrefixOfAppend(Shape(b.trace[|h|..]), upSlots + upOpt, ins);
        assert upSlots + upOpt + ins == upSlots + (upOpt + ins);
      } else {
        var row := MakeRow(s.part, id, f, a.value.value, b.value.value);
        assert r.trace == b.trace + [Call.Insert(row)];
        MakeRowTable(s.part, id, f, a.value.value, b.value.value);
        ExtensionSplit(h, b.trace, r.trace);
        assert r.trace[|b.trace|..] == [Call.Insert(row)];
        assert Shape([Call.Insert(row)]) == ins;
        assert Shape(r.trace[|h|..]) == upSlots + upOpt + ins;
      }
    }
  }

  lemma MakeRowTable(p: Part, id: string, f: FormData, su: seq<Option<string>>, ou: seq<string>)
    ensures TableOf(MakeRow(p, id, f, su, ou)) == PartTable(p)
  {
  }

  /** The only insert of a section is its own row, which references the parent and fills correctly. */
  lemma SectionStepRows(o: Oracle, h: seq<Call>, userId: string, id: string, f: FormData, s: Section)
    requires s == SectionFor(s.part, f)
    ensures h <= SectionStep(o, h, userId, id, f, s).trace
    ensures var r := SectionStep(o, h, userId, id, f, s);
      forall j :: |h| <= j < |r.trace| && r.trace[j].Insert? ==> RowFills(r.trace[j].row, id, f)
  {
    var r := SectionStep(o, h, userId, id, f, s);
    var a := UploadSlots(o, h, userId, s.slots, []);
    UploadSlotsSegment(o, h, userId, s.slots, []);
    UploadSlotsShape(o, h, userId, s.slots, []);
    UploadSlotsValues(o, h, userId, s.slots, []);
    UploadsOnly(h, a.trace, PresentFiles(s.slots));
    if a.value.None? {
      assert r.trace == a.trace;
    } else {
      var su := a.value.value;
      var b := UploadFiles(o, a.trace, userId, s.optional, s.base, |s.optional|);
      UploadFilesLength(o, a.trace, userId, s.optional, s.base, |s.optional|);
      UploadFilesCalls(o, a.trace, userId, s.optional, s.base, |s.optional|);
      assert forall j :: |h| <= j < |a.trace| ==> b.trace[j] == a.trace[j];
      if b.value.None? {
        assert r.trace == b.trace;
      } else {
        var ou := b.value.value;
        var row := MakeRow(s.part, id, f, su, ou);
        assert r.trace == b.trace + [Call.Insert(row)];
        assert forall i :: 0 <= i < |su| ==> (su[i].None? <==> s.slots[i].file.None?);
        MakeRowFills(s.part, id, f, su, ou);
        assert forall j :: |h| <= j < |b.trace| ==> r.trace[j] == b.trace[j];
      }
    }
  }

  /** A stretch whose shape is a prefix of a run of uploads holds no insert. */
  lemma UploadsOnly(h: seq<Call>, t: seq<Call>, files: seq<File>)
    requires h <= t && Shape(t[|h|..]) <= Uploads(files)
    ensures forall j :: |h| <= j < |t| ==> t[j].Upload?
  {
    forall j | |h| <= j < |t|
      ensures t[j].Upload?
    {
      assert Shape(t[|h|..])[j - |h|] == MarkerOf(t[j]);
      assert Uploads(files)[j - |h|] == UploadOf(files[j - |h|]);
    }
  }

  /** The sections in order; every row inserted references the parent and fills correctly. */
  lemma {:induction false} RunSectionsFacts(o: Oracle, h: seq<Call>, userId: string, id: string, f: FormData, ss: seq<Section>)
    requires forall i :: 0 <= i < |ss| ==> ss[i] == SectionFor(ss[i].part, f)
    ensures var r := RunSections(o, h, userId, id, f, ss);
      Segment(o, h, r.trace, r.completed)
      && Shape(r.trace[|h|..]) <= SectionsShape(ss)
      && (r.completed ==> Shape(r.trace[|h|..]) == SectionsShape(ss))
      && (forall j :: |h| <= j < |r.trace| && r.trace[j].Insert? ==> RowFills(r.trace[j].row, id, f))
    decreases |ss|
  {
    var r := RunSections(o, h, userId, id, f, ss);
    if ss == [] {
      assert r.trace[|h|..] == [];
    } else {
      var st := SectionStep(o, h, userId, id, f, ss[0]);
      SectionStepSegment(o, h, userId, id, f, ss[0]);
      SectionStepShape(o, h, userId, id, f, ss[0]);
      SectionStepRows(o, h, userId, id, f, ss[0]);
      assert SectionsShape(ss) == SectionShape(ss[0]) + SectionsShape(ss[1..]);
      if st.value.None? {
        PrefixOfAppend(Shape(r.trace[|h|..]), SectionShape(ss[0]), SectionsShape(ss[1..]));
      } else {
        forall i | 0 <= i < |ss[1..]| ensures ss[1..][i] == SectionFor(ss[1..][i].part, f) {
          assert ss[1..][i] == ss[i + 1];
        }
        RunSectionsFacts(o, st.trace, userId, id, f, ss[1..]);
        SegmentChain(o, h, st.trace, r.trace, r.completed);
        ExtensionSplit(h, st.trace, r.trace);
        PrefixAppend(SectionShape(ss[0]), Shape(r.trace[|st.trace|..]), SectionsShape(ss[1..]));
        assert forall j :: |h| <= j < |st.trace| ==> r.trace[j] == st.trace[j];
      }
    }
  }

  // ---------------------------------------------------------------------------------------
  // Shapes: which tables a run inserts into

  lemma {:induction false} InsertedTablesAppend(a: seq<Marker>, b: seq<Marker>)
    ensures InsertedTables(a + b) == InsertedTables(a) + InsertedTables(b)
    decreases |a|
  {
    if a == [] {
      assert a + b == b;
    } else {
      assert (a + b)[0] == a[0] && (a + b)[1..] == a[1..] + b;
      InsertedTablesAppend(a[1..], b);
    }
  }

  lemma {:induction false} InsertedTablesOfUploads(fs: seq<File>)
    ensures InsertedTables(Uploads(fs)) == []
    decreases |fs|
  {
    if fs != [] {
      assert Uploads(fs)[1..] == Uploads(fs[1..]);
      InsertedTablesOfUploads(fs[1..]);
    }
  }

  /** A prefix of a run inserts into a prefix of its tables. */
  lemma {:induction false} InsertedTablesPrefix(a: seq<Marker>, b: seq<Marker>)
    requires a <= b
    ensures InsertedTables(a) <= InsertedTables(b)
    decreases |a|
  {
    if a != [] {
      assert a[0] == b[0] && a[1..] <= b[1..];
      assert InsertedTables(b) == (if b[0].InsertInto? then [b[0].table] else []) + InsertedTables(b[1..]);
      InsertedTablesPrefix(a[1..], b[1..]);
      PrefixAppend(if a[0].InsertInto? then [a[0].table] else [], InsertedTables(a[1..]), InsertedTables(b[1..]));
    }
  }

  /** Each section inserts exactly into its own table. */
  lemma {:induction false} SectionsTables(ss: seq<Section>)
    ensures InsertedTables(SectionsShape(ss)) == seq(|ss|, i requires 0 <= i < |ss| => PartTable(ss[i].part))
    decreases |ss|
  {
    if ss != [] {
      var s := ss[0];
      InsertedTablesAppend(Uploads(PresentFiles(s.slots) + s.optional), [InsertInto(PartTable(s.part))]);
      InsertedTablesOfUploads(PresentFiles(s.slots) + s.optional);
      assert InsertedTables([InsertInto(PartTable(s.part))]) == [PartTable(s.part)];
      InsertedTablesAppend(SectionShape(s), SectionsShape(ss[1..]));
      SectionsTables(ss[1..]);
    }
  }

  /** A finished run of sections ends with the insert of the last section's row. */
  lemma {:induction false} SectionsShapeLast(ss: seq<Section>)
    requires ss != []
    ensures SectionsShape(ss) != [] && SectionsShape(ss)[|SectionsShape(ss)| - 1] == InsertInto(PartTable(ss[|ss| - 1].part))
    decreases |ss|
  {
    if |ss| > 1 {
      SectionsShapeLast(ss[1..]);
    }
  }

  /** With nothing failing, a submit inserts into the seven tables in order, the inspection first. */
  lemma ExpectedShapeTables(f: FormData)
    ensures InsertedTables(ExpectedShape(f)) == TableOrder
    ensures ExpectedShape(f)[|ExpectedShape(f)| - 1] == InsertInto(ReportsTable)
  {
    InsertedTablesAppend([InsertInto(InspectionsTable)], SectionsShape(Sections(f)));
    SectionsTables(Sections(f));
    SectionsShapeLast(Sections(f));
  }

  // ---------------------------------------------------------------------------------------
  // The submit as a whole

  /** The sections the submit processes satisfy the precondition of the section lemmas. */
  lemma SectionsWellFormed(f: FormData)
    ensures forall i :: 0 <= i < |Sections(f)| ==> Sections(f)[i] == SectionFor(Sections(f)[i].part, f)
  {
  }

  /**
   * Without a user nothing is issued. Otherwise the first call is the insert of the parent row,
   * whose status is `draft` exactly for a draft; when that insert fails, nothing else is issued.
   */
  lemma SubmitStartsWithParent(o: Oracle, h: seq<Call>, f: FormData, user: Option<User>, asDraft: bool)
    ensures user.None? ==> Submit(o, h, f, user, asDraft) == Submission(h, false)
    ensures var r := Submit(o, h, f, user, asDraft);
      user.Some? ==> |r.trace| > |h| && r.trace[..|h|] == h && r.trace[|h|] == Call.Insert(ParentRow(user.value.id, f, asDraft))
    ensures user.Some? ==> (StatusText(ParentRow(user.value.id, f, asDraft).status) == "draft" <==> asDraft)
    ensures user.Some? ==>
      var t := h + [Call.Insert(ParentRow(user.value.id, f, asDraft))];
      o.insertReply(t).InsertFailed? ==> Submit(o, h, f, user, asDraft) == Submission(t, false)
  {
    if user.Some? {
      var t := h + [Call.Insert(ParentRow(user.value.id, f, asDraft))];
      var r := Submit(o, h, f, user, asDraft);
      if o.insertReply(t).Inserted? {
        SectionsWellFormed(f);
        RunSectionsFacts(o, t, user.value.id, o.insertReply(t).id, f, Sections(f));
        assert t <= r.trace;
        TakeOfExtension(t, r.trace, |h|);
        TakeOfExtension(t, r.trace, |h| + 1);
      }
    }
  }

  /** The submit's calls are a prefix of the calls of a submit where nothing fails, and all of them when it completes. */
  lemma SubmitShape(o: Oracle, h: seq<Call>, f: FormData, user: Option<User>, asDraft: bool)
    ensures h <= Submit(o, h, f, user, asDraft).trace
    ensures var r := Submit(o, h, f, user, asDraft);
      Shape(r.trace[|h|..]) <= ExpectedShape(f)
    ensures var r := Submit(o, h, f, user, asDraft);
      r.completed ==> Shape(r.trace[|h|..]) == ExpectedShape(f)
  {
    var r := Submit(o, h, f, user, asDraft);
    if user.None? {
      assert r.trace[|h|..] == [];
    } else {
      var t := h + [Call.Insert(ParentRow(user.value.id, f, asDraft))];
      assert t[|h|..] == [Call.Insert(ParentRow(user.value.id, f, asDraft))];
      assert Shape(t[|h|..]) == [InsertInto(InspectionsTable)];
      if o.insertReply(t).InsertFailed? {
        assert r.trace == t;
        PrefixOfAppend([InsertInto(InspectionsTable)], [InsertInto(InspectionsTable)], SectionsShape(Sections(f)));
      } else {
        SectionsWellFormed(f);
        RunSectionsFacts(o, t, user.value.id, o.insertReply(t).id, f, Sections(f));
        ExtensionSplit(h, t, r.trace);
        PrefixAppend([InsertInto(InspectionsTable)], Shape(r.trace[|t|..]), SectionsShape(Sections(f)));
      }
    }
  }

  /**
   * `onComplete` is called exactly when the parent insert returned a row and every upload went
   * through; otherwise the last call issued is the one that failed.
   */
  lemma SubmitCompletesIff(o: Oracle, h: seq<Call>, f: FormData, u: User, asDraft: bool)
    ensures var r := Submit(o, h, f, Some(u), asDraft);
      var t := h + [Call.Insert(ParentRow(u.id, f, asDraft))];
      r.completed <==> o.insertReply(t).Inserted? && UploadsOk(o, r.trace, |h|, |r.trace|)
    ensures var r := Submit(o, h, f, Some(u), asDraft);
      var t := h + [Call.Insert(ParentRow(u.id, f, asDraft))];
      !r.completed ==>
        (r.trace == t && o.insertReply(t).InsertFailed?)
        || (|r.trace| > |t| && r.trace[|r.trace| - 1].Upload? && o.uploadFails(r.trace))
  {
    var r := Submit(o, h, f, Some(u), asDraft);
    var t := h + [Call.Insert(ParentRow(u.id, f, asDraft))];
    if o.insertReply(t).Inserted? {
      SectionsWellFormed(f);
      RunSectionsFacts(o, t, u.id, o.insertReply(t).id, f, Sections(f));
      assert Segment(o, t, r.trace, r.completed);
      TakeOfExtension(t, r.trace, |h|);
      assert r.trace[|h|] == Call.Insert(ParentRow(u.id, f, asDraft));
      if r.completed {
        assert UploadsOk(o, r.trace, |t|, |r.trace|);
      } else {
        assert r.trace[..|r.trace| - 1 + 1] == r.trace;
      }
    }
  }

  /** When nothing fails in storage and the parent insert returns a row, the submit completes. */
  lemma SubmitCompletesWhenBackendAccepts(o: Oracle, h: seq<Call>, f: FormData, u: User, asDraft: bool)
    requires o.insertReply(h + [Call.Insert(ParentRow(u.id, f, asDraft))]).Inserted?
    requires forall t :: !o.uploadFails(t)
    ensures Submit(o, h, f, Some(u), asDraft).completed
  {
    SubmitCompletesIff(o, h, f, u, asDraft);
  }

  /** Every insert after the parent's references the parent's id and stores the right placeholders for absent files. */
  lemma SubmitDependentRows(o: Oracle, h: seq<Call>, f: FormData, u: User, asDraft: bool)
    ensures var r := Submit(o, h, f, Some(u), asDraft);
      var t := h + [Call.Insert(ParentRow(u.id, f, asDraft))];
      o.insertReply(t).Inserted? ==>
        t <= r.trace && forall j :: |t| <= j < |r.trace| && r.trace[j].Insert? ==> RowFills(r.trace[j].row, o.insertReply(t).id, f)
  {
    var t := h + [Call.Insert(ParentRow(u.id, f, asDraft))];
    if o.insertReply(t).Inserted? {
      SectionsWellFormed(f);
      RunSectionsFacts(o, t, u.id, o.insertReply(t).id, f, Sections(f));
    }
  }

  /**
   * A completed submit has inserted into all seven tables in order, and its last call is the
   * reports insert, with the parent's id, null for an absent class report and for an empty class name.
   */
  lemma SubmitCompletedRun(o: Oracle, h: seq<Call>, f: FormData, u: User, asDraft: bool)
    requires Submit(o, h, f, Some(u), asDraft).completed
    ensures var r := Submit(o, h, f, Some(u), asDraft);
      h <= r.trace && InsertedTables(Shape(r.trace[|h|..])) == TableOrder
    ensures var r := Submit(o, h, f, Some(u), asDraft);
      var t := h + [Call.Insert(ParentRow(u.id, f, asDraft))];
      |r.trace| > |t| && o.insertReply(t).Inserted?
      && r.trace[|r.trace| - 1].Insert? && r.trace[|r.trace| - 1].row.ReportsRow?
      && RowFills(r.trace[|r.trace| - 1].row, o.insertReply(t).id, f)
  {
    var r := Submit(o, h, f, Some(u), asDraft);
    var t := h + [Call.Insert(ParentRow(u.id, f, asDraft))];
    SubmitShape(o, h, f, Some(u), asDraft);
    ExpectedShapeTables(f);
    SubmitDependentRows(o, h, f, Some(u).value, asDraft);
    var ext := r.trace[|h|..];
    assert Shape(ext) == ExpectedShape(f);
    var last := |r.trace| - 1;
    assert |ext| == |ExpectedShape(f)| > |t| - |h|;
    assert Shape(ext)[|ext| - 1] == MarkerOf(r.trace[last]);
    assert MarkerOf(r.trace[last]) == InsertInto(ReportsTable);
  }

  /** Every run of the submit inserts into a prefix of the seven tables, in order. */
  lemma SubmitTablesInOrder(o: Oracle, h: seq<Call>, f: FormData, user: Option<User>, asDraft: bool)
    ensures var r := Submit(o, h, f, user, asDraft);
      h <= r.trace && InsertedTables(Shape(r.trace[|h|..])) <= TableOrder
  {
    var r := Submit(o, h, f, user, asDraft);
    SubmitShape(o, h, f, user, asDraft);
    ExpectedShapeTables(f);
    InsertedTablesPrefix(Shape(r.trace[|h|..]), ExpectedShape(f));
  }

  // ---------------------------------------------------------------------------------------
  // The replies to the section inserts are never looked at

  /** Two backends whose storage and clock behave the same, whatever their tables answer. */
  ghost predicate SameStorage(o: Oracle, o': Oracle) {
    o.clock == o'.clock && o.uploadFails == o'.uploadFails && o.publicUrl == o'.publicUrl
  }

  lemma {:induction false} UploadSlotsIgnoreReplies(o: Oracle, o': Oracle, h: seq<Call>, userId: string, slots: seq<Slot>, done: seq<Option<string>>)
    requires SameStorage(o, o')
    ensures UploadSlots(o, h, userId, slots, done) == UploadSlots(o', h, userId, slots, done)
    decreases |slots|
  {
    if slots != [] {
      var first := UploadSlot(o, h, userId, slots[0]);
      assert first == UploadSlot(o', h, userId, slots[0]);
      if first.value.Some? {
        UploadSlotsIgnoreReplies(o, o', first.trace, userId, slots[1..], done + [first.value.value]);
      }
    }
  }

  lemma {:induction false} UploadFilesIgnoreReplies(o: Oracle, o': Oracle, h: seq<Call>, userId: string, files: seq<File>, base: string, k: nat)
    requires SameStorage(o, o') && k <= |files|
    ensures UploadFiles(o, h, userId, files, base, k) == UploadFiles(o', h, userId, files, base, k)
    decreases k
  {
    if k > 0 {
      UploadFilesIgnoreReplies(o, o', h, userId, files, base, k - 1);
      var prev := UploadFiles(o, h, userId, files, base, k - 1);
      if prev.value.Some? {
        assert UploadFile(o, prev.trace, userId, files[k - 1], StoragePath.Indexed(base, k - 1))
            == UploadFile(o', prev.trace, userId, files[k - 1], StoragePath.Indexed(base, k - 1));
      }
    }
  }

  lemma {:induction false} RunSectionsIgnoreReplies(o: Oracle, o': Oracle, h: seq<Call>, userId: string, id: string, f: FormData, ss: seq<Section>)
    requires SameStorage(o, o')
    ensures RunSections(o, h, userId, id, f, ss) == RunSections(o', h, userId, id, f, ss)
    decreases |ss|
  {
    if ss != [] {
      var s := ss[0];
      UploadSlotsIgnoreReplies(o, o', h, userId, s.slots, []);
      var a := UploadSlots(o, h, userId, s.slots, []);
      if a.value.Some? {
        UploadFilesIgnoreReplies(o, o', a.trace, userId, s.optional, s.base, |s.optional|);
      }
      var st := SectionStep(o, h, userId, id, f, s);
      assert st == SectionStep(o', h, userId, id, f, s);
      if st.value.Some? {
        RunSectionsIgnoreReplies(o, o', st.trace, userId, id, f, ss[1..]);
      }
    }
  }

  /**
   * The submit reads the table service's answer only for the parent insert: changing the answers
   * to every other insert changes nothing it does.
   */
  lemma SubmitIgnoresDependentReplies(o: Oracle, g: seq<Call> -> InsertReply, h: seq<Call>, f: FormData, user: Option<User>, asDraft: bool)
    requires user.Some? ==> g(h + [Call.Insert(ParentRow(user.value.id, f, asDraft))])
                             == o.insertReply(h + [Call.Insert(ParentRow(user.value.id, f, asDraft))])
    ensures Submit(o.(insertReply := g), h, f, user, asDraft) == Submit(o, h, f, user, asDraft)
  {
    if user.Some? {
      var t := h + [Call.Insert(ParentRow(user.value.id, f, asDraft))];
      if o.insertReply(t).Inserted? {
        RunSectionsIgnoreReplies(o, o.(insertReply := g), t, user.value.id, o.insertReply(t).id, f, Sections(f));
      }
    }
  }

  // ---------------------------------------------------------------------------------------
  // One step of a run, for the handler's straight-line code

  lemma UploadSlotsCons(o: Oracle, h: seq<Call>, userId: string, slots: seq<Slot>, done: seq<Option<string>>)
    requires slots != []
    ensures var first := UploadSlot(o, h, userId, slots[0]);
      UploadSlots(o, h, userId, slots, done)
      == if first.value.None? then Outcome(first.trace, None)
         else UploadSlots(o, first.trace, userId, slots[1..], done + [first.value.value])
  {
  }

  lemma RunSectionsCons(o: Oracle, h: seq<Call>, userId: string, id: string, f: FormData, ss: seq<Section>)
    requires ss != []
    ensures var st := SectionStep(o, h, userId, id, f, ss[0]);
      RunSections(o, h, userId, id, f, ss)
      == if st.value.None? then Submission(st.trace, false) else RunSections(o, st.trace, userId, id, f, ss[1..])
  {
  }

  /** Once an upload of `uploadFiles` has thrown, the later iterations never run. */
  lemma {:induction false} UploadFilesStaysFailed(o: Oracle, h: seq<Call>, userId: string, files: seq<File>, base: string, k: nat, k': nat)
    requires k <= k' <= |files|
    requires UploadFiles(o, h, userId, files, base, k).value.None?
    ensures UploadFiles(o, h, userId, files, base, k') == UploadFiles(o, h, userId, files, base, k)
    decreases k' - k
  {
    if k < k' {
      UploadFilesStaysFailed(o, h, userId, files, base, k, k' - 1);
    }
  }
}
