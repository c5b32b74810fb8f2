/**
 * The page header's service indicator. On mount it asks the backend whether the dataset is
 * available and, when it is, fetches the dataset description; the badge then reads Live or
 * Offline, and the description's file name is shown as the data source.
 */
module Header {
  import opened Wrappers
  import opened Sample

  datatype Status = Checking | Online | Offline

  /** What the health request yields: a failure (network or HTTP error) or the availability flag. */
  datatype HealthReply = HealthFailed | Health(serviceAvailable: bool)

  /** What the dataset request yields. */
  datatype InfoReply = InfoFailed | Info(info: DatasetInfo)

  datatype HeaderSnapshot = HeaderSnapshot(status: Status, datasetInfo: Option<DatasetInfo>)

  const InitialHeader := HeaderSnapshot(Checking, None)

  /**
   * The outcome of one health check. The status is set from the health reply first; a failed
   * dataset request then lands in the same error handler and turns it Offline. The dataset
   * request is made only when the service is available.
   */
  function AfterCheck(s: HeaderSnapshot, health: HealthReply, info: InfoReply): (r: HeaderSnapshot)
    ensures r.status != Checking
    ensures r.status == Online <==> health == Health(true) && info.Info?
    ensures r.datasetInfo != s.datasetInfo ==> r.status == Online && r.datasetInfo == Some(info.info)
  {
    match health
    case HealthFailed => HeaderSnapshot(Offline, s.datasetInfo)
    case Health(available) =>
      if !available then HeaderSnapshot(Offline, s.datasetInfo)
      else match info
        case InfoFailed => HeaderSnapshot(Offline, s.datasetInfo)
        case Info(i) => HeaderSnapshot(Online, Some(i))
  }

  /** After the mount-time check, the header is Live exactly when it has a dataset description to show. */
  lemma LiveIffSourceShown(health: HealthReply, info: InfoReply)
    ensures var r := AfterCheck(InitialHeader, health, info);
            r.status == Online <==> r.datasetInfo.Some?
  {}

  /** The state of the header component. */
  class HeaderState {
    var status: Status
    var datasetInfo: Option<DatasetInfo>

    ghost function Snapshot(): HeaderSnapshot
      reads this
    {
      HeaderSnapshot(status, datasetInfo)
    }

    constructor()
      ensures Snapshot() == InitialHeader
    {
      status := Checking;
      datasetInfo := None;
    }

    /** `checkHealth`; `askedInfo` says whether the dataset request was made. */
    method CheckHealth(health: HealthReply, info: InfoReply) returns (askedInfo: bool)
      modifies this
      ensures Snapshot() == AfterCheck(old(Snapshot()), health, info)
      ensures askedInfo <==> health == Health(true)
    {
      askedInfo := false;
      match health {
        case HealthFailed =>
          status := Offline;
        case Health(available) =>
          status := if available then Online else Offline;
          if available {
            askedInfo := true;
            match info {
              case InfoFailed => status := Offline;
              case Info(i) => datasetInfo := Some(i);
            }
          }
      }
    }
  }

  /** The badge text for each status. */
  function StatusLabel(s: Status): (t: string)
    ensures t == "Live" <==> s == Online
    ensures t == "Offline" <==> s == Offline
    ensures t == "Connecting" <==> s == Checking
  {
    match s
    case Online => "Live"
    case Offline => "Offline"
    case Checking => "Connecting"
  }

  /** Distinct statuses are told apart by their badge text. */
  lemma StatusLabelInjective(a: Status, b: Status)
    requires StatusLabel(a) == StatusLabel(b)
    ensures a == b
  {}

  /** The pulsing dot and the full-strength signal icon appear only when Live. */
  predicate ShowsDot(s: Status) {
    s == Online
  }

  /** The data-source text: the dataset's file name, or "ERA5" when that name is empty. */
  function SourceLabel(info: DatasetInfo): (t: string)
    ensures t != ""
    ensures info.file != "" ==> t == info.file
    ensures info.file == "" ==> t == "ERA5"
  {
    if info.file != "" then info.file else "ERA5"
  }
}
