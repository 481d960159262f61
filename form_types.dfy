/**
 * The inspection wizard's form record and its initial value (`InspectionFormData` and
 * `initialFormData`), with the option list of the VDR-make picker and the capacities of the
 * optional-photo pickers that the pages configure.
 */
module FormTypes {
  import opened Wrappers
  import Js

  /** A browser file handle. The logic reads only its name; the size is shown but never decided on. */
  datatype File = File(name: string, size: nat)

  /** The VDR make: one of the four makers, or `NoMake` for the empty string the form starts with. */
  datatype VdrMake = NoMake | NSR | SALNAVIGATION | NETWAVE | HEADWAY

  /** The string the form holds for a make. */
  function MakeText(m: VdrMake): (s: string)
    ensures s in {"", "NSR", "SALNAVIGATION", "NETWAVE", "HEADWAY"}
    ensures s == "" <==> m == NoMake
  {
    match m
    case NoMake => ""
    case NSR => "NSR"
    case SALNAVIGATION => "SALNAVIGATION"
    case NETWAVE => "NETWAVE"
    case HEADWAY => "HEADWAY"
  }

  /** The value a `<select>` option string stands for, if it is one of the type's five strings. */
  function MakeOfText(s: string): (m: Option<VdrMake>)
    ensures m.Some? <==> s in {"", "NSR", "SALNAVIGATION", "NETWAVE", "HEADWAY"}
  {
    if s == "" then Some(NoMake)
    else if s == "NSR" then Some(NSR)
    else if s == "SALNAVIGATION" then Some(SALNAVIGATION)
    else if s == "NETWAVE" then Some(NETWAVE)
    else if s == "HEADWAY" then Some(HEADWAY)
    else None
  }

  /** The make's string and the make determine each other. */
  lemma MakeTextRoundTrip(m: VdrMake, s: string)
    ensures MakeOfText(MakeText(m)) == Some(m)
    ensures MakeOfText(s).Some? ==> MakeText(MakeOfText(s).value) == s
  {
  }

  /** The picker's options: the four makers, in this order. */
  const VdrMakes: seq<VdrMake> := [NSR, SALNAVIGATION, NETWAVE, HEADWAY]

  /** Every non-empty make is offered exactly once, and the empty one is not offered. */
  lemma VdrMakesOffered(m: VdrMake)
    ensures m in VdrMakes <==> m != NoMake
    ensures forall i, j :: 0 <= i < j < |VdrMakes| ==> VdrMakes[i] != VdrMakes[j]
  {
  }

  /** Capacity of the five optional-photo pickers on page 2. */
  const OptionalPhotoLimit: nat := 3
  /** Capacity of the previous-certificate picker on page 3. */
  const PreviousCocLimit: nat := 2

  datatype FormData = FormData(
    engineerName: string,
    vesselName: string,
    location: string,
    inspectionDate: string,
    vdrMake: VdrMake,
    imoNumber: string,
    mmsiNumber: string,
    dauDoorOpen: Option<File>,
    serialNumber: string,
    grounding: Option<File>,
    batteryPhoto: Option<File>,
    dauOptional: seq<File>,
    capsulePhoto: Option<File>,
    cableGland: Option<File>,
    beaconExpiry: Option<File>,
    capsuleOptional: seq<File>,
    floatFree: Option<File>,
    coverRemoved: Option<File>,
    junctionBox: Option<File>,
    hru: Option<File>,
    floatOptional: seq<File>,
    bcpDisplay: Option<File>,
    bcpOptional: seq<File>,
    videoUnit1: Option<File>,
    videoUnit2: Option<File>,
    videoOptional: seq<File>,
    epirbReport: Option<File>,
    makerReport: Option<File>,
    classReport: Option<File>,
    className: string,
    previousCoc: seq<File>)

  /** The keys of the form record, one per field. */
  datatype Field =
    | EngineerName | VesselName | Location | InspectionDate | VdrMake | ImoNumber | MmsiNumber
    | DauDoorOpen | SerialNumber | Grounding | BatteryPhoto | DauOptional
    | CapsulePhoto | CableGland | BeaconExpiry | CapsuleOptional
    | FloatFree | CoverRemoved | JunctionBox | Hru | FloatOptional
    | BcpDisplay | BcpOptional
    | VideoUnit1 | VideoUnit2 | VideoOptional
    | EpirbReport | MakerReport | ClassReport | ClassName | PreviousCoc

  /** The four field types of the record. */
  datatype Kind = TextKind | MakeKind | FileKind | FilesKind

  /** A field's value, tagged with its type. */
  datatype FieldValue = Text(text: string) | MakeValue(make: VdrMake) | FileValue(file: Option<File>) | FilesValue(files: seq<File>)

  function KindOfValue(v: FieldValue): Kind {
    match v
    case Text(_) => TextKind
    case MakeValue(_) => MakeKind
    case FileValue(_) => FileKind
    case FilesValue(_) => FilesKind
  }

  /** The declared type of each field. */
  function KindOf(k: Field): Kind {
    match k
    case EngineerName => TextKind
    case VesselName => TextKind
    case Location => TextKind
    case InspectionDate => TextKind
    case VdrMake => MakeKind
    case ImoNumber => TextKind
    case MmsiNumber => TextKind
    case DauDoorOpen => FileKind
    case SerialNumber => TextKind
    case Grounding => FileKind
    case BatteryPhoto => FileKind
    case DauOptional => FilesKind
    case CapsulePhoto => FileKind
    case CableGland => FileKind
    case BeaconExpiry => FileKind
    case CapsuleOptional => FilesKind
    case FloatFree => FileKind
    case CoverRemoved => FileKind
    case JunctionBox => FileKind
    case Hru => FileKind
    case FloatOptional => FilesKind
    case BcpDisplay => FileKind
    case BcpOptional => FilesKind
    case VideoUnit1 => FileKind
    case VideoUnit2 => FileKind
    case VideoOptional => FilesKind
    case EpirbReport => FileKind
    case MakerReport => FileKind
    case ClassReport => FileKind
    case ClassName => TextKind
    case PreviousCoc => FilesKind
  }

  /** Reads one field of the record (`formData[k]`). */
  function Get(f: FormData, k: Field): (v: FieldValue)
    ensures KindOfValue(v) == KindOf(k)
  {
    match k
    case EngineerName => Text(f.engineerName)
    case VesselName => Text(f.vesselName)
    case Location => Text(f.location)
    case InspectionDate => Text(f.inspectionDate)
    case VdrMake => MakeValue(f.vdrMake)
    case ImoNumber => Text(f.imoNumber)
    case MmsiNumber => Text(f.mmsiNumber)
    case DauDoorOpen => FileValue(f.dauDoorOpen)
    case SerialNumber => Text(f.serialNumber)
    case Grounding => FileValue(f.grounding)
    case BatteryPhoto => FileValue(f.batteryPhoto)
    case DauOptional => FilesValue(f.dauOptional)
    case CapsulePhoto => FileValue(f.capsulePhoto)
    case CableGland => FileValue(f.cableGland)
    case BeaconExpiry => FileValue(f.beaconExpiry)
    case CapsuleOptional => FilesValue(f.capsuleOptional)
    case FloatFree => FileValue(f.floatFree)
    case CoverRemoved => FileValue(f.coverRemoved)
    case JunctionBox => FileValue(f.junctionBox)
    case Hru => FileValue(f.hru)
    case FloatOptional => FilesValue(f.floatOptional)
    case BcpDisplay => FileValue(f.bcpDisplay)
    case BcpOptional => FilesValue(f.bcpOptional)
    case VideoUnit1 => FileValue(f.videoUnit1)
    case VideoUnit2 => FileValue(f.videoUnit2)
    case VideoOptional => FilesValue(f.videoOptional)
    case EpirbReport => FileValue(f.epirbReport)
    case MakerReport => FileValue(f.makerReport)
    case ClassReport => FileValue(f.classReport)
    case ClassName => Text(f.className)
    case PreviousCoc => FilesValue(f.previousCoc)
  }

  /**
   * `initialFormData`. The inspection date is the first 16 characters of the ISO timestamp
   * `new Date().toISOString()`, which is passed in as `isoNow`.
   */
  function InitialFormData(isoNow: string): (f: FormData)
    ensures f.inspectionDate == Js.SliceTo(isoNow, 16)
    ensures forall k :: KindOf(k) == TextKind && k != InspectionDate ==> Get(f, k) == Text("")
    ensures f.vdrMake == NoMake && MakeText(f.vdrMake) == ""
    ensures forall k :: KindOf(k) == FileKind ==> Get(f, k) == FileValue(None)
    ensures forall k :: KindOf(k) == FilesKind ==> Get(f, k) == FilesValue([])
  {
    FormData(
      "", "", "", Js.SliceTo(isoNow, 16), NoMake, "", "",
      None, "", None, None, [],
      None, None, None, [],
      None, None, None, None, [],
      None, [],
      None, None, [],
      None, None, None, "", [])
  }

  /** An ISO timestamp (at least 16 characters long) contributes exactly its date, hour and minute. */
  lemma InitialDateIsMinutePrefix(isoNow: string)
    requires |isoNow| >= 16
    ensures InitialFormData(isoNow).inspectionDate == isoNow[..16]
  {
  }
}
