/**
 * The hosted backend as the inspection wizard sees it: seven tables it inserts rows into, a
 * file store it uploads to, and the clock it reads for file names.
 *
 * The backend's behaviour is an `Oracle`: total functions of the history of calls issued so far.
 * Every concrete run of the real service (including its failures) is the behaviour of some
 * oracle, so a property proved for every oracle holds of every run.
 */
module Backend {
  import opened Wrappers
  import opened FormTypes
  import StoragePath

  /** The signed-in user of the authentication session, as far as the client logic uses it: its id. */
  datatype User = User(id: string)

  datatype Table =
    | InspectionsTable | DauPhotosTable | FixedCapsuleTable | FloatFreeTable
    | BcpDisplayTable | VideoInterfaceTable | ReportsTable

  /** The table's name on the server. */
  function TableName(t: Table): string {
    match t
    case InspectionsTable => "inspections"
    case DauPhotosTable => "dau_photos"
    case FixedCapsuleTable => "fixed_capsule"
    case FloatFreeTable => "float_free"
    case BcpDisplayTable => "bcp_display"
    case VideoInterfaceTable => "video_interface"
    case ReportsTable => "reports"
  }

  datatype Status = Draft | Submitted | Reviewed

  function StatusText(s: Status): string {
    match s
    case Draft => "draft"
    case Submitted => "submitted"
    case Reviewed => "reviewed"
  }

  /**
   * The rows the wizard inserts. An absent required photo is stored as the empty string; the
   * class report URL and the class name are the two nullable columns (`None` is SQL null).
   */
  datatype Row =
    | InspectionRow(userId: string, engineerName: string, vesselName: string, location: string,
                    inspectionDate: string, vdrMake: VdrMake, imoNumber: string, mmsiNumber: string,
                    status: Status)
    | DauPhotosRow(inspectionId: string, dauDoorOpenUrl: string, serialNumber: string,
                   groundingUrl: string, batteryPhotoUrl: string, optionalPhotos: seq<string>)
    | FixedCapsuleRow(inspectionId: string, capsulePhotoUrl: string, cableGlandUrl: string,
                      beaconExpiryUrl: string, optionalPhotos: seq<string>)
    | FloatFreeRow(inspectionId: string, floatFreeUrl: string, coverRemovedUrl: string,
                   junctionBoxUrl: string, hruUrl: string, optionalPhotos: seq<string>)
    | BcpDisplayRow(inspectionId: string, displayPhotoUrl: string, optionalPhotos: seq<string>)
    | VideoInterfaceRow(inspectionId: string, unit1Url: string, unit2Url: string, optionalPhotos: seq<string>)
    | ReportsRow(inspectionId: string, epirbReportUrl: string, makerReportUrl: string,
                 classReportUrl: Option<string>, className: Option<string>, previousCocUrls: seq<string>)

  /** The table a row goes into. */
  function TableOf(row: Row): Table {
    match row
    case InspectionRow(_, _, _, _, _, _, _, _, _) => InspectionsTable
    case DauPhotosRow(_, _, _, _, _, _) => DauPhotosTable
    case FixedCapsuleRow(_, _, _, _, _) => FixedCapsuleTable
    case FloatFreeRow(_, _, _, _, _, _) => FloatFreeTable
    case BcpDisplayRow(_, _, _) => BcpDisplayTable
    case VideoInterfaceRow(_, _, _, _) => VideoInterfaceTable
    case ReportsRow(_, _, _, _, _, _) => ReportsTable
  }

  /**
   * A call the wizard issues: an upload into the `inspection-files` bucket under the path
   * `StoragePath.Path(key)`, or a row insert.
   */
  datatype Call = Upload(key: StoragePath.Key, file: File) | Insert(row: Row)

  /** The answer to an insert that selects the new row back: its id, or an error. */
  datatype InsertReply = Inserted(id: string) | InsertFailed(message: string)

  /**
   * The environment. Each function receives the calls issued so far; for `uploadFails` and
   * `insertReply` that history ends with the call being answered.
   *   clock       -- `Date.now()` when read at that point
   *   uploadFails -- whether the storage service reports an error for the last upload
   *   publicUrl   -- `getPublicUrl(StoragePath.Path(key))`, computed from the path alone, hence a
   *                  function of the key the path is rendered from
   *   insertReply -- the table service's answer to the last insert
   */
  datatype Oracle = Oracle(
    clock: seq<Call> -> nat,
    uploadFails: seq<Call> -> bool,
    publicUrl: StoragePath.Key -> string,
    insertReply: seq<Call> -> InsertReply)

  /** The backend client object: it forwards calls to the oracle and keeps the history of calls. */
  class Client {
    const oracle: Oracle
    var trace: seq<Call>

    constructor (o: Oracle)
      ensures oracle == o && trace == []
    {
      oracle := o;
      trace := [];
    }

    /** `Date.now()`. */
    method Now() returns (t: nat)
      ensures t == oracle.clock(trace)
    {
      t := oracle.clock(trace);
    }

    /** `storage.from('inspection-files').upload(StoragePath.Path(key), file)`: true when the reply carries an error. */
    method Upload(key: StoragePath.Key, file: File) returns (failed: bool)
      modifies this
      ensures trace == old(trace) + [Call.Upload(key, file)]
      ensures failed == oracle.uploadFails(trace)
    {
      trace := trace + [Call.Upload(key, file)];
      failed := oracle.uploadFails(trace);
    }

    /** `storage.from('inspection-files').getPublicUrl(StoragePath.Path(key))`: no request is made. */
    method GetPublicUrl(key: StoragePath.Key) returns (url: string)
      ensures url == oracle.publicUrl(key)
    {
      url := oracle.publicUrl(key);
    }

    /** `from(TableName(TableOf(row))).insert(row)`. */
    method Insert(row: Row) returns (reply: InsertReply)
      modifies this
      ensures trace == old(trace) + [Call.Insert(row)]
      ensures reply == oracle.insertReply(trace)
    {
      trace := trace + [Call.Insert(row)];
      reply := oracle.insertReply(trace);
    }
  }
}
