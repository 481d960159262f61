/**
 * The dashboard: the list of the user's inspections loaded from the backend, the status badge
 * colours, which screen is shown, and the switch to and from the inspection wizard.
 */
module Dashboard {
  import opened Wrappers
  import opened FormTypes
  import opened Backend

  /** A row of the `inspections` table as the dashboard reads it. */
  datatype Inspection = Inspection(
    id: string, userId: string, engineerName: string, vesselName: string, location: string,
    inspectionDate: string, vdrMake: VdrMake, imoNumber: string, mmsiNumber: string,
    status: string, createdAt: string, updatedAt: string)

  const Yellow: string := "bg-yellow-100 text-yellow-800 border-yellow-200"
  const Blue: string := "bg-blue-100 text-blue-800 border-blue-200"
  const Green: string := "bg-green-100 text-green-800 border-green-200"
  const Gray: string := "bg-gray-100 text-gray-800 border-gray-200"

  /** `getStatusColor(status)`. */
  function StatusColor(status: string): string {
    if status == "draft" then Yellow
    else if status == "submitted" then Blue
    else if status == "reviewed" then Green
    else Gray
  }

  /**
   * Drafts are yellow, submitted inspections blue, reviewed ones green and anything else gray;
   * the three statuses have three different colours, none of them the fallback.
   */
  lemma StatusColorSpec(status: string, a: Status, b: Status)
    ensures StatusColor(StatusText(Draft)) == Yellow
    ensures StatusColor(StatusText(Submitted)) == Blue
    ensures StatusColor(StatusText(Reviewed)) == Green
    ensures status !in {"draft", "submitted", "reviewed"} ==> StatusColor(status) == Gray
    ensures StatusColor(StatusText(a)) != Gray
    ensures StatusColor(StatusText(a)) == StatusColor(StatusText(b)) ==> a == b
    ensures Yellow != Blue && Yellow != Green && Yellow != Gray && Blue != Green && Blue != Gray && Green != Gray
  {
  }

  /** What a card shows: vessel, engineer, the status badge and its colour, location, make and IMO number. */
  datatype Card = Card(vesselName: string, engineerName: string, status: string, badge: string,
                       location: string, vdrMake: VdrMake, imoNumber: string)

  function CardOf(i: Inspection): Card {
    Card(i.vesselName, i.engineerName, i.status, StatusColor(i.status), i.location, i.vdrMake, i.imoNumber)
  }

  datatype Screen = FormScreen | Spinner | NoInspections | Cards(cards: seq<Card>)

  /** The dashboard's render. */
  function DashboardScreen(showForm: bool, loading: bool, inspections: seq<Inspection>): Screen {
    if showForm then FormScreen
    else if loading then Spinner
    else if |inspections| == 0 then NoInspections
    else Cards(seq(|inspections|, i requires 0 <= i < |inspections| => CardOf(inspections[i])))
  }

  /**
   * The wizard replaces the dashboard; otherwise the spinner shows while loading, the empty
   * state when there is nothing, and else one card per inspection in the order loaded.
   */
  lemma DashboardScreenSpec(showForm: bool, loading: bool, inspections: seq<Inspection>)
    ensures DashboardScreen(showForm, loading, inspections) == FormScreen <==> showForm
    ensures DashboardScreen(showForm, loading, inspections) == Spinner <==> !showForm && loading
    ensures DashboardScreen(showForm, loading, inspections) == NoInspections <==> !showForm && !loading && inspections == []
    ensures DashboardScreen(showForm, loading, inspections).Cards? <==> !showForm && !loading && inspections != []
    ensures DashboardScreen(showForm, loading, inspections).Cards? ==>
      var cs := DashboardScreen(showForm, loading, inspections).cards;
      |cs| == |inspections| && forall i :: 0 <= i < |cs| ==> cs[i] == CardOf(inspections[i])
  {
  }

  /** The backend's answer to the list query: the rows (possibly null), or an error. */
  datatype LoadReply = Loaded(data: Option<seq<Inspection>>) | LoadFailed(message: string)

  /** The list after a load: the rows returned (none for a null answer), or the old list after an error. */
  function AfterLoad(current: seq<Inspection>, reply: LoadReply): seq<Inspection> {
    match reply
    case Loaded(data) => data.GetOr([])
    case LoadFailed(_) => current
  }

  /** After a successful load the dashboard shows exactly what the backend returned; after an error it keeps showing what it had. */
  lemma LoadedScreen(current: seq<Inspection>, reply: LoadReply)
    ensures reply.Loaded? && (reply.data.None? || reply.data.value == []) ==>
      DashboardScreen(false, false, AfterLoad(current, reply)) == NoInspections
    ensures reply.Loaded? && reply.data.Some? && reply.data.value != [] ==>
      DashboardScreen(false, false, AfterLoad(current, reply))
        == Cards(seq(|reply.data.value|, i requires 0 <= i < |reply.data.value| => CardOf(reply.data.value[i])))
    ensures reply.LoadFailed? ==> DashboardScreen(false, false, AfterLoad(current, reply)) == DashboardScreen(false, false, current)
  {
  }

  class DashboardState {
    var inspections: seq<Inspection>
    var loading: bool
    var showForm: bool

    /** The first render: no rows yet, loading, the list screen; the spinner is shown until the first load. */
    constructor ()
      ensures inspections == [] && loading && !showForm
      ensures DashboardScreen(showForm, loading, inspections) == Spinner
    {
      inspections := [];
      loading := true;
      showForm := false;
    }

    /** `loadInspections()` given the backend's answer: the list is replaced on success, and loading always ends. */
    method LoadInspections(reply: LoadReply)
      modifies this
      ensures inspections == AfterLoad(old(inspections), reply)
      ensures !loading && showForm == old(showForm)
    {
      if reply.Loaded? {
        inspections := reply.data.GetOr([]);
      }
      loading := false;
    }

    /** `handleCompleteForm()`: back to the list, then a reload. */
    method HandleCompleteForm(reply: LoadReply)
      modifies this
      ensures !showForm
      ensures inspections == AfterLoad(old(inspections), reply) && !loading
    {
      showForm := false;
      LoadInspections(reply);
    }

    /** The New Inspection and Create First Inspection buttons: both open the wizard. */
    method NewInspection()
      modifies this
      ensures showForm && inspections == old(inspections) && loading == old(loading)
      ensures DashboardScreen(showForm, loading, inspections) == FormScreen
    {
      showForm := true;
    }
  }
}
