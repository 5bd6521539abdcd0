/**
 * The /alerts API router: each user-scoped route reads the X-User-ID
 * header, answers 401 when it is empty, and otherwise calls the alert
 * service. Reading, updating and deleting one alert first check that the
 * alert exists and belongs to the caller; otherwise the answer is 404 and
 * the store is not touched.
 *
 * A header that is absent altogether, a query parameter outside its bounds
 * or a missing required query parameter are rejected by the framework's
 * request validation with 422 before the handler runs.
 */
module AlertRoutes {
  import opened Wrappers
  import opened Seqs
  import opened AlertModels
  import opened Alerts
  import ExchangeRate

  const BadRequest: int := 400
  const Unauthorized: int := 401
  const NotFound: int := 404
  const UnprocessableEntity: int := 422
  const InternalServerError: int := 500

  /** Query(50, ge=1, le=100) on the history route's `limit`. */
  const DefaultLimit: int := 50
  const MinLimit: int := 1
  const MaxLimit: int := 100

  /** An answer: the response body, or an HTTP error status. */
  type Response<T> = Result<T, int>

  /**
   * The X-User-ID guard: 422 when the header is absent, 401 when it is
   * empty, otherwise the caller's user id.
   */
  function Authenticate(header: Option<string>): (r: Response<string>)
    ensures r.Success? <==> header.Some? && header.value != ""
    ensures r.Success? ==> r.value == header.value
    ensures r == Failure(Unauthorized) <==> header == Some("")
    ensures r == Failure(UnprocessableEntity) <==> header.None?
  {
    match header
    case None => Failure(UnprocessableEntity)
    case Some(userId) => if userId == "" then Failure(Unauthorized) else Success(userId)
  }

  /** The ownership guard shared by get, update and delete: the alert exists and is the caller's. */
  function OwnedAlert(stored: Option<AlertSetting>, userId: string): (r: Response<AlertSetting>)
    ensures r.Success? <==> stored.Some? && stored.value.userId == userId
    ensures r.Success? ==> r.value == stored.value
    ensures r.Failure? ==> r.error == NotFound
  {
    if stored.None? || stored.value.userId != userId then Failure(NotFound) else Success(stored.value)
  }

  /** GET /alerts/: the caller's alerts. */
  function GetUserAlerts(service: AlertService, header: Option<string>): (r: Response<seq<AlertSetting>>)
    reads service
    requires service.Valid()
    ensures r.Failure? <==> Authenticate(header).Failure?
    ensures r.Failure? ==> r == Failure(Authenticate(header).error)
    ensures r.Success? ==> forall a :: a in r.value <==>
      (a.id in service.alertSettings && service.alertSettings[a.id] == a && a.userId == header.value)
  {
    match Authenticate(header)
    case Failure(status) => Failure(status)
    case Success(userId) => Success(service.GetUserAlerts(userId))
  }

  /** POST /alerts/: stores a new alert owned by the caller under the fresh id `alertId`. */
  method CreateAlert(service: AlertService, header: Option<string>, data: AlertSettingCreate, alertId: string, now: int)
    returns (r: Response<AlertSetting>)
    requires service.Valid()
    modifies service
    ensures service.Valid()
    ensures r.Failure? <==> Authenticate(header).Failure?
    ensures r.Failure? ==> (r == Failure(Authenticate(header).error)
                            && service.alertSettings == old(service.alertSettings)
                            && service.order == old(service.order))
    ensures r.Success? ==> (r.value == NewAlert(alertId, header.value, data, now)
                            && service.alertSettings == old(service.alertSettings)[alertId := r.value]
                            && service.order == if alertId in old(service.alertSettings) then old(service.order)
                                                else old(service.order) + [alertId])
    ensures service.notificationHistory == old(service.notificationHistory)
  {
    var auth := Authenticate(header);
    if auth.Failure? {
      return Failure(auth.error);
    }
    var alert := service.CreateAlertSetting(auth.value, data, alertId, now);
    r := Success(alert);
  }

  /** GET /alerts/{alert_id}: 404 for a missing alert and for another user's alert alike. */
  function GetAlert(service: AlertService, header: Option<string>, alertId: string): (r: Response<AlertSetting>)
    reads service
    ensures Authenticate(header).Failure? ==> r == Failure(Authenticate(header).error)
    ensures r.Success? <==> Authenticate(header).Success? && alertId in service.alertSettings
                            && service.alertSettings[alertId].userId == header.value
    ensures r.Success? ==> r.value == service.alertSettings[alertId]
    ensures Authenticate(header).Success? && r.Failure? ==> r.error == NotFound
  {
    match Authenticate(header)
    case Failure(status) => Failure(status)
    case Success(userId) => OwnedAlert(service.GetAlertById(alertId), userId)
  }

  /**
   * PUT /alerts/{alert_id}: the ownership check runs first; a missing or
   * foreign alert gives 404 and the service's update is never called.
   */
  method UpdateAlert(service: AlertService, header: Option<string>, alertId: string,
                     update: AlertSettingUpdate, now: int)
    returns (r: Response<AlertSetting>)
    requires service.Valid()
    modifies service
    ensures service.Valid()
    ensures r.Success? <==> old(GetAlert(service, header, alertId)).Success?
    ensures r.Failure? ==> (r.error == old(GetAlert(service, header, alertId)).error
                            && service.alertSettings == old(service.alertSettings))
    ensures r.Success? ==> (r.value == ApplyUpdate(old(service.alertSettings)[alertId], update, now)
                            && service.alertSettings == old(service.alertSettings)[alertId := r.value])
    ensures service.order == old(service.order)
    ensures service.notificationHistory == old(service.notificationHistory)
  {
    var existing := GetAlert(service, header, alertId);
    if existing.Failure? {
      return Failure(existing.error);
    }
    var updated := service.UpdateAlertSetting(alertId, update, now);
    // The alert was found above, so the service's own 404 cannot arise here.
    r := if updated.Some? then Success(updated.value) else Failure(NotFound);
  }

  /**
   * DELETE /alerts/{alert_id}: the ownership check runs first; a missing or
   * foreign alert gives 404 and nothing is removed.
   */
  method DeleteAlert(service: AlertService, header: Option<string>, alertId: string)
    returns (r: Response<string>)
    requires service.Valid()
    modifies service
    ensures service.Valid()
    ensures r.Success? <==> old(GetAlert(service, header, alertId)).Success?
    ensures r.Failure? ==> (r.error == old(GetAlert(service, header, alertId)).error
                            && service.alertSettings == old(service.alertSettings)
                            && service.order == old(service.order))
    ensures r.Success? ==> (service.alertSettings == old(service.alertSettings) - {alertId}
                            && service.order == Filter(old(service.order), Except(alertId)))
    ensures service.notificationHistory == old(service.notificationHistory)
  {
    var existing := GetAlert(service, header, alertId);
    if existing.Failure? {
      return Failure(existing.error);
    }
    var deleted := service.DeleteAlertSetting(alertId);
    // The alert was found above, so the service's own 404 cannot arise here.
    r := if deleted then Success("deleted") else Failure(NotFound);
  }

  /** The `limit` query parameter after validation: absent means 50, outside 1..100 is refused. */
  function ValidateLimit(limit: Option<int>): (r: Option<int>)
    ensures r.Some? <==> limit.None? || MinLimit <= limit.value <= MaxLimit
    ensures r.Some? ==> MinLimit <= r.value <= MaxLimit
    ensures limit.None? ==> r == Some(DefaultLimit)
    ensures limit.Some? && r.Some? ==> r.value == limit.value
  {
    match limit
    case None => Some(DefaultLimit)
    case Some(n) => if MinLimit <= n <= MaxLimit then Some(n) else None
  }

  /**
   * GET /alerts/history/notifications: the caller's notifications, newest
   * first, at most `limit` of them. Request validation (header present,
   * limit in bounds) comes before the handler's empty-header check.
   */
  function GetNotificationHistory(service: AlertService, header: Option<string>, limit: Option<int>)
    : (r: Response<seq<NotificationHistory>>)
    reads service
    ensures header.None? || ValidateLimit(limit).None? ==> r == Failure(UnprocessableEntity)
    ensures header == Some("") && ValidateLimit(limit).Some? ==> r == Failure(Unauthorized)
    ensures r.Success? <==> Authenticate(header).Success? && ValidateLimit(limit).Some?
    ensures r.Success? ==> r.value == UserNotificationHistory(service.notificationHistory, header.value,
                                                              ValidateLimit(limit).value)
    ensures r.Success? ==> (|r.value| <= ValidateLimit(limit).value <= MaxLimit && NewestFirst(r.value)
                            && forall n :: n in r.value ==> n in service.notificationHistory && n.userId == header.value)
  {
    if header.None? || ValidateLimit(limit).None? then Failure(UnprocessableEntity)
    else if header.value == "" then Failure(Unauthorized)
    else
      var history := service.GetUserNotificationHistory(header.value, ValidateLimit(limit).value);
      assert forall n :: n in history ==> n in service.notificationHistory && n.userId == header.value by {
        forall n | n in history ensures n in service.notificationHistory && n.userId == header.value {
          var i :| 0 <= i < |history| && history[i] == n;
        }
      }
      Success(history)
  }

  /** GET /alerts/statistics/summary. */
  function GetAlertStatistics(service: AlertService, header: Option<string>, now: int): (r: Response<AlertStatistics>)
    reads service
    requires service.Valid()
    ensures r.Failure? <==> Authenticate(header).Failure?
    ensures r.Failure? ==> r == Failure(Authenticate(header).error)
    ensures r.Success? ==> r.value == service.GetAlertStatistics(header.value, now)
    ensures r.Success? ==> (r.value.totalNotifications <= DefaultLimit
                            && r.value.activeAlerts + r.value.inactiveAlerts == r.value.totalAlerts)
  {
    match Authenticate(header)
    case Failure(status) => Failure(status)
    case Success(userId) =>
      var s := service.GetAlertStatistics(userId, now);
      CountSplit(service.GetUserAlerts(userId), IsActive, IsInactive);
      Success(s)
  }

  datatype TriggerReport = TriggerReport(triggeredCount: nat, triggeredAlerts: seq<TriggeredAlert>)

  /** The triggered alert belongs to the user. */
  function TriggeredFor(userId: string): TriggeredAlert -> bool
  {
    (t: TriggeredAlert) => t.alert.userId == userId
  }

  /**
   * POST /alerts/test/trigger: runs the trigger check over every active
   * alert and reports only the caller's, with their count.
   */
  method TestAlertTrigger(service: AlertService, header: Option<string>, feeds: ExchangeRate.Feeds, now: int)
    returns (r: Response<TriggerReport>)
    requires service.Valid()
    ensures r.Failure? <==> Authenticate(header).Failure?
    ensures r.Failure? ==> r == Failure(Authenticate(header).error)
    ensures r.Success? ==> r.value.triggeredCount == |r.value.triggeredAlerts|
    ensures r.Success? ==> (r.value.triggeredAlerts ==
      Filter(TriggeredAlerts(service.GetActiveAlerts(), feeds, service.notificationHistory, now),
             TriggeredFor(header.value)))
  {
    var auth := Authenticate(header);
    if auth.Failure? {
      return Failure(auth.error);
    }
    var triggered := service.CheckAlertConditions(feeds, now);
    var userTriggered := Filter(triggered, TriggeredFor(auth.value));
    r := Success(TriggerReport(|userTriggered|, userTriggered));
  }

  /**
   * POST /alerts/test/email, given whether the notification service sent
   * the mail. A failed send raises 400 inside the try block, whose generic
   * handler turns it into 500.
   */
  function SendTestEmail(header: Option<string>, sent: bool): (r: Response<string>)
    ensures r.Success? <==> Authenticate(header).Success? && sent
    ensures Authenticate(header).Failure? ==> r == Failure(Authenticate(header).error)
    ensures Authenticate(header).Success? && !sent ==> r == Failure(InternalServerError)
    ensures r != Failure(BadRequest)
  {
    match Authenticate(header)
    case Failure(status) => Failure(status)
    case Success(_) =>
      var raised := if sent then None else Some(BadRequest);
      match raised
      case None => Success("sent")
      case Some(_) => Failure(InternalServerError)
  }

  /**
   * POST /alerts/user/email: records the caller's address in the
   * notification service's fallback table (given and returned here).
   */
  function RegisterUserEmail(header: Option<string>, email: Option<string>, emails: map<string, string>)
    : (r: Response<map<string, string>>)
    ensures header.None? || email.None? ==> r == Failure(UnprocessableEntity)
    ensures r.Success? <==> Authenticate(header).Success? && email.Some?
    ensures r.Success? ==> r.value == emails[header.value := email.value]
    ensures header == Some("") && email.Some? ==> r == Failure(Unauthorized)
  {
    if header.None? || email.None? then Failure(UnprocessableEntity)
    else if header.value == "" then Failure(Unauthorized)
    else Success(emails[header.value := email.value])
  }

  /**
   * A user never sees another user's alert: whatever GET /alerts/{id} or
   * GET /alerts/ return belongs to the caller.
   */
  lemma NoForeignAlerts(service: AlertService, header: Option<string>, alertId: string)
    requires service.Valid()
    ensures GetAlert(service, header, alertId).Success? ==>
      GetAlert(service, header, alertId).value.userId == header.value
    ensures GetUserAlerts(service, header).Success? ==>
      forall a :: a in GetUserAlerts(service, header).value ==> a.userId == header.value
  {
  }
}
