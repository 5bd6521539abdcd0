/**
 * The ConnectionStatus badge: the browser's online flag and the backend's
 * health, probed on mount, every 30 seconds and on demand. The probe's
 * outcome and the browser's online flag are parameters; the timer is not
 * modelled, only the state each probe leaves.
 */
module ConnectionStatus {

  datatype BackendStatus = Checking | Online | Offline

  /** The badge's icon. */
  datatype StatusIcon = WifiOff | Server | AlertCircle | Spinner

  /** getStatusColor: the browser being offline outranks the backend's status. */
  function StatusColor(isOnline: bool, status: BackendStatus): (color: string)
    ensures !isOnline ==> color == "bg-red-500"
    ensures isOnline && status == Online ==> color == "bg-green-500"
    ensures isOnline && status == Offline ==> color == "bg-yellow-500"
    ensures isOnline && status == Checking ==> color == "bg-gray-500"
  {
    if !isOnline then "bg-red-500"
    else if status == Online then "bg-green-500"
    else if status == Offline then "bg-yellow-500"
    else "bg-gray-500"
  }

  /** getStatusText, with the same priority. */
  function StatusText(isOnline: bool, status: BackendStatus): (text: string)
    ensures !isOnline ==> text == "인터넷 연결 없음"
    ensures isOnline && status == Online ==> text == "온라인"
    ensures isOnline && status == Offline ==> text == "오프라인 모드"
    ensures isOnline && status == Checking ==> text == "연결 확인 중..."
  {
    if !isOnline then "인터넷 연결 없음"
    else if status == Online then "온라인"
    else if status == Offline then "오프라인 모드"
    else "연결 확인 중..."
  }

  /** getStatusIcon, with the same priority. */
  function Icon(isOnline: bool, status: BackendStatus): (icon: StatusIcon)
    ensures !isOnline ==> icon == WifiOff
    ensures isOnline ==> icon == (match status case Online => Server case Offline => AlertCircle case Checking => Spinner)
  {
    if !isOnline then WifiOff
    else if status == Online then Server
    else if status == Offline then AlertCircle
    else Spinner
  }

  /**
   * The colour, the text and the icon always tell the same story: any two
   * states show the same colour exactly when they show the same text and
   * exactly when they show the same icon.
   */
  lemma BadgeAgrees(online1: bool, status1: BackendStatus, online2: bool, status2: BackendStatus)
    ensures StatusColor(online1, status1) == StatusColor(online2, status2)
        <==> StatusText(online1, status1) == StatusText(online2, status2)
    ensures StatusColor(online1, status1) == StatusColor(online2, status2)
        <==> Icon(online1, status1) == Icon(online2, status2)
  {
  }

  /** The four badges: a state shows the backend's status only while the browser is online. */
  lemma BadgeIsDetermined(isOnline: bool, status1: BackendStatus, status2: BackendStatus)
    ensures !isOnline ==> StatusText(isOnline, status1) == StatusText(isOnline, status2)
    ensures isOnline ==> (StatusText(isOnline, status1) == StatusText(isOnline, status2) <==> status1 == status2)
  {
  }

  /** The help panel with start-up instructions appears only for an unreachable backend. */
  predicate ShowOfflineHelp(status: BackendStatus)
  {
    status == Offline
  }

  /** What a finished probe leaves: online when the health check succeeded, offline when it threw. */
  function ProbeResult(succeeded: bool): (status: BackendStatus)
    ensures status != Checking
    ensures status == Online <==> succeeded
    ensures ShowOfflineHelp(status) <==> !succeeded
  {
    if succeeded then Online else Offline
  }

  class ConnectionStatusState {
    var isOnline: bool
    var backendStatus: BackendStatus
    var showDetails: bool

    constructor ()
      ensures isOnline && backendStatus == Checking && !showDetails
    {
      isOnline := true;
      backendStatus := Checking;
      showDetails := false;
    }

    /** The browser's online and offline events: `setIsOnline(navigator.onLine)`. */
    method UpdateOnlineStatus(navigatorOnLine: bool)
      modifies this
      ensures isOnline == navigatorOnLine
      ensures backendStatus == old(backendStatus) && showDetails == old(showDetails)
    {
      isOnline := navigatorOnLine;
    }

    /** checkBackendStatus, on mount and on every tick of the interval. */
    method CheckBackendStatus(probeSucceeded: bool)
      modifies this
      ensures backendStatus == ProbeResult(probeSucceeded)
      ensures isOnline == old(isOnline) && showDetails == old(showDetails)
    {
      if probeSucceeded {
        backendStatus := Online;
      } else {
        backendStatus := Offline;
      }
    }

    /** The refresh button's first step: the status shows "checking" while the probe runs. */
    method BeginRefresh()
      modifies this
      ensures backendStatus == Checking
      ensures isOnline == old(isOnline) && showDetails == old(showDetails)
    {
      backendStatus := Checking;
    }

    /** The whole refresh: through "checking" to the probe's result. */
    method Refresh(probeSucceeded: bool)
      modifies this
      ensures backendStatus == ProbeResult(probeSucceeded)
      ensures isOnline == old(isOnline) && showDetails == old(showDetails)
    {
      BeginRefresh();
      CheckBackendStatus(probeSucceeded);
    }

    /** The badge: toggles the details panel. */
    method ToggleDetails()
      modifies this
      ensures showDetails == !old(showDetails)
      ensures isOnline == old(isOnline) && backendStatus == old(backendStatus)
    {
      showDetails := !showDetails;
    }
  }
}
