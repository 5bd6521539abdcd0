/**
 * The backend's AlertService: alert settings kept in an in-memory
 * dictionary, an append-only notification history, the trigger check with
 * its one-hour duplicate suppression, and per-user history and statistics.
 *
 * The clock (datetime.now()), the fresh ids (uuid4) and the rate API are
 * parameters: `now` is a time in seconds, `feeds` is the rate API's answer
 * per base currency (see module ExchangeRate).
 */
module Alerts {
  import opened Wrappers
  import opened Seqs
  import opened Text
  import opened AlertModels
  import ExchangeRate

  const HourSeconds: int := 3600
  const WeekSeconds: int := 7 * 24 * 3600

  /** The window of _check_recent_notification, in hours (its default). */
  const RecentWindowHours: int := 1

  /** get_user_notification_history's default limit, used by the statistics. */
  const DefaultHistoryLimit: int := 50

  /** The dictionary's values in the order their keys were first inserted. */
  function ValuesInOrder(m: map<string, AlertSetting>, order: seq<string>): (r: seq<AlertSetting>)
    requires forall i :: 0 <= i < |order| ==> order[i] in m
    ensures |r| == |order|
    ensures forall i :: 0 <= i < |order| ==> r[i] == m[order[i]]
  {
    seq(|order|, i requires 0 <= i < |order| => m[order[i]])
  }

  /** The alert belongs to the user. */
  function OwnedBy(userId: string): AlertSetting -> bool
  {
    (a: AlertSetting) => a.userId == userId
  }

  /** The notification was sent to the user. */
  function SentTo(userId: string): NotificationHistory -> bool
  {
    (n: NotificationHistory) => n.userId == userId
  }

  /** Any key but the given one. */
  function Except(alertId: string): string -> bool
  {
    (k: string) => k != alertId
  }

  predicate IsActive(a: AlertSetting) { a.isActive }

  predicate IsInactive(a: AlertSetting) { !a.isActive }

  /** The trigger predicate: 'above' fires at or over the target, 'below' at or under it. */
  predicate ShouldTrigger(condition: Condition, current: real, target: real)
  {
    match condition
    case Above => current >= target
    case Below => current <= target
  }

  /** At any rate one of the two conditions fires, and both fire exactly at the target. */
  lemma ConditionsCoverAllRates(current: real, target: real)
    ensures ShouldTrigger(Above, current, target) || ShouldTrigger(Below, current, target)
    ensures ShouldTrigger(Above, current, target) && ShouldTrigger(Below, current, target)
      <==> current == target
  {
  }

  /** Some notification for the alert was sent strictly after now minus `hours` hours. */
  predicate HasRecentNotification(history: seq<NotificationHistory>, alertId: string, now: int, hours: int)
  {
    exists i :: 0 <= i < |history| && history[i].alertSettingId == alertId
      && history[i].sentAt > now - hours * HourSeconds
  }

  datatype TriggeredAlert = TriggeredAlert(alert: AlertSetting, currentRate: real, triggeredAt: int)

  /**
   * One iteration of check_alert_conditions: the alert is reported when the
   * rate lookup succeeds, its condition holds, and it was not notified in
   * the last hour. A failed lookup is caught and the alert is skipped.
   */
  function CheckAlert(alert: AlertSetting, feeds: ExchangeRate.Feeds, history: seq<NotificationHistory>, now: int)
    : (r: seq<TriggeredAlert>)
    ensures |r| <= 1
  {
    match ExchangeRate.GetConversionRate(feeds, alert.currencyFrom, alert.currencyTo)
    case Failure(_) => []
    case Success(rate) =>
      if ShouldTrigger(alert.condition, rate, alert.targetRate)
         && !HasRecentNotification(history, alert.id, now, RecentWindowHours)
      then [TriggeredAlert(alert, rate, now)]
      else []
  }

  /** check_alert_conditions over a list of alerts, in list order. */
  function TriggeredAlerts(alerts: seq<AlertSetting>, feeds: ExchangeRate.Feeds, history: seq<NotificationHistory>, now: int)
    : seq<TriggeredAlert>
  {
    if |alerts| == 0 then []
    else TriggeredAlerts(alerts[..|alerts| - 1], feeds, history, now) + CheckAlert(alerts[|alerts| - 1], feeds, history, now)
  }

  /**
   * An entry is reported iff it is one of the alerts, its rate is the
   * looked-up rate, its condition holds at that rate, no notification for it
   * was sent in the last hour, and it is stamped `now`.
   */
  lemma {:induction false} TriggeredAlertsMembers(
    alerts: seq<AlertSetting>, feeds: ExchangeRate.Feeds, history: seq<NotificationHistory>, now: int, t: TriggeredAlert)
    ensures t in TriggeredAlerts(alerts, feeds, history, now) <==>
      && t.alert in alerts
      && ExchangeRate.GetConversionRate(feeds, t.alert.currencyFrom, t.alert.currencyTo) == Success(t.currentRate)
      && ShouldTrigger(t.alert.condition, t.currentRate, t.alert.targetRate)
      && !HasRecentNotification(history, t.alert.id, now, RecentWindowHours)
      && t.triggeredAt == now
  {
    if |alerts| > 0 {
      var init := alerts[..|alerts| - 1];
      TriggeredAlertsMembers(init, feeds, history, now, t);
      assert alerts == init + [alerts[|alerts| - 1]];
      assert t.alert in alerts <==> t.alert in init || t.alert == alerts[|alerts| - 1];
    }
  }

  /** No alert is reported twice in one check when the alerts are distinct. */
  lemma {:induction false} TriggeredAlertsAtMostOnce(
    alerts: seq<AlertSetting>, feeds: ExchangeRate.Feeds, history: seq<NotificationHistory>, now: int)
    requires NoDuplicates(alerts)
    ensures NoDuplicates(TriggeredAlerts(alerts, feeds, history, now))
    ensures |TriggeredAlerts(alerts, feeds, history, now)| <= |alerts|
  {
    if |alerts| > 0 {
      var init := alerts[..|alerts| - 1];
      var last := alerts[|alerts| - 1];
      assert NoDuplicates(init);
      TriggeredAlertsAtMostOnce(init, feeds, history, now);
      var r := TriggeredAlerts(init, feeds, history, now);
      var c := CheckAlert(last, feeds, history, now);
      if |c| == 1 {
        TriggeredAlertsMembers(init, feeds, history, now, c[0]);
        assert last !in init;
      }
    }
  }

  /** One more alert of the list adds that alert's report to the reports so far. */
  lemma TriggeredAlertsStep(alerts: seq<AlertSetting>, i: int, feeds: ExchangeRate.Feeds,
                            history: seq<NotificationHistory>, now: int)
    requires 0 <= i < |alerts|
    ensures TriggeredAlerts(alerts[..i + 1], feeds, history, now)
      == TriggeredAlerts(alerts[..i], feeds, history, now) + CheckAlert(alerts[i], feeds, history, now)
  {
    assert alerts[..i + 1][..i] == alerts[..i];
  }

  /** Newest first: sent_at never increases along the list. */
  predicate NewestFirst(s: seq<NotificationHistory>)
  {
    forall i, j :: 0 <= i < j < |s| ==> s[i].sentAt >= s[j].sentAt
  }

  /** Inserts `n` before the first entry that is not newer than it. */
  function InsertNewest(n: NotificationHistory, s: seq<NotificationHistory>): (r: seq<NotificationHistory>)
    requires NewestFirst(s)
    ensures NewestFirst(r)
    ensures multiset(r) == multiset(s) + multiset{n}
    ensures |r| > 0 && (r[0] == n || (|s| > 0 && r[0] == s[0]))
  {
    if |s| == 0 || s[0].sentAt <= n.sentAt then [n] + s
    else
      var rest := InsertNewest(n, s[1..]);
      assert s == [s[0]] + s[1..];
      [s[0]] + rest
  }

  /**
   * list.sort(key=sent_at, reverse=True): newest first; entries with equal
   * sent_at keep their original order.
   */
  function SortNewestFirst(s: seq<NotificationHistory>): (r: seq<NotificationHistory>)
    ensures NewestFirst(r)
    ensures multiset(r) == multiset(s)
  {
    if |s| == 0 then []
    else
      assert s == [s[0]] + s[1..];
      InsertNewest(s[0], SortNewestFirst(s[1..]))
  }

  /**
   * What a prefix of a newest-first list leaves out is no newer than
   * anything the prefix keeps.
   */
  lemma PrefixKeepsNewest(s: seq<NotificationHistory>, k: int, n: NotificationHistory)
    requires NewestFirst(s) && 0 <= k <= |s|
    requires multiset(s[..k])[n] < multiset(s)[n]
    ensures forall i :: 0 <= i < k ==> n.sentAt <= s[i].sentAt
  {
    assert s == s[..k] + s[k..];
    assert multiset(s) == multiset(s[..k]) + multiset(s[k..]);
    assert n in s[k..];
    var j :| k <= j < |s| && s[j] == n;
  }

  /**
   * get_user_notification_history: the user's notifications, newest first,
   * cut with Python's [:limit]: for a limit of 0 or more, the newest
   * min(limit, count) of them.
   */
  function UserNotificationHistory(history: seq<NotificationHistory>, userId: string, limit: int)
    : (r: seq<NotificationHistory>)
    ensures forall i :: 0 <= i < |r| ==> r[i].userId == userId && r[i] in history
    ensures NewestFirst(r)
    ensures limit >= 0 ==> |r| <= limit
    ensures limit >= Count(history, SentTo(userId)) ==>
      multiset(r) == multiset(Filter(history, SentTo(userId)))
    ensures limit >= 0 ==>
      |r| == if Count(history, SentTo(userId)) <= limit then Count(history, SentTo(userId)) else limit
    ensures forall n :: multiset(r)[n] < multiset(Filter(history, SentTo(userId)))[n] ==>
      forall i :: 0 <= i < |r| ==> n.sentAt <= r[i].sentAt
  {
    var sorted := SortNewestFirst(Filter(history, SentTo(userId)));
    var r := PrefixUpTo(sorted, limit);
    NewestPrefixMembers(history, userId, limit, sorted, r);
    NewestPrefixLength(history, userId, limit, sorted, r);
    NewestPrefixLeftOut(history, userId, limit, sorted, r);
    r
  }

  /** The kept notifications are the user's, newest first, and all of them when the limit allows. */
  lemma NewestPrefixMembers(history: seq<NotificationHistory>, userId: string, limit: int,
                            sorted: seq<NotificationHistory>, r: seq<NotificationHistory>)
    requires sorted == SortNewestFirst(Filter(history, SentTo(userId)))
    requires r == PrefixUpTo(sorted, limit)
    ensures forall i :: 0 <= i < |r| ==> r[i].userId == userId && r[i] in history
    ensures NewestFirst(r)
    ensures limit >= Count(history, SentTo(userId)) ==>
      multiset(r) == multiset(Filter(history, SentTo(userId)))
  {
    var mine := Filter(history, SentTo(userId));
    assert |sorted| == |mine| by {
      assert |multiset(sorted)| == |multiset(mine)|;
    }
    forall i | 0 <= i < |r|
      ensures r[i].userId == userId && r[i] in history
    {
      assert r[i] == sorted[i];
      assert r[i] in multiset(sorted);
      assert r[i] in mine;
    }
  }

  /** A limit of 0 or more keeps min(limit, count) notifications. */
  lemma NewestPrefixLength(history: seq<NotificationHistory>, userId: string, limit: int,
                           sorted: seq<NotificationHistory>, r: seq<NotificationHistory>)
    requires sorted == SortNewestFirst(Filter(history, SentTo(userId)))
    requires r == PrefixUpTo(sorted, limit)
    ensures limit >= 0 ==>
      |r| == if Count(history, SentTo(userId)) <= limit then Count(history, SentTo(userId)) else limit
  {
    var mine := Filter(history, SentTo(userId));
    assert |multiset(sorted)| == |multiset(mine)|;
  }

  /** What the limit cuts off is no newer than anything kept. */
  lemma NewestPrefixLeftOut(history: seq<NotificationHistory>, userId: string, limit: int,
                            sorted: seq<NotificationHistory>, r: seq<NotificationHistory>)
    requires sorted == SortNewestFirst(Filter(history, SentTo(userId)))
    requires r == PrefixUpTo(sorted, limit)
    ensures forall n :: multiset(r)[n] < multiset(Filter(history, SentTo(userId)))[n] ==>
      forall i :: 0 <= i < |r| ==> n.sentAt <= r[i].sentAt
  {
    forall n | multiset(r)[n] < multiset(sorted)[n]
      ensures forall i :: 0 <= i < |r| ==> n.sentAt <= r[i].sentAt
    {
      PrefixKeepsNewest(sorted, |r|, n);
    }
  }

  /** Newest-first: the first entry is at least as new as every entry of the user's. */
  lemma NewestIsFirst(history: seq<NotificationHistory>, userId: string, limit: int, n: NotificationHistory)
    requires limit >= 1
    requires n in history && n.userId == userId
    ensures |UserNotificationHistory(history, userId, limit)| > 0
    ensures UserNotificationHistory(history, userId, limit)[0].sentAt >= n.sentAt
  {
    var mine := Filter(history, SentTo(userId));
    var sorted := SortNewestFirst(mine);
    assert n in multiset(mine);
    assert n in multiset(sorted);
    var k :| 0 <= k < |sorted| && sorted[k] == n;
    assert |UserNotificationHistory(history, userId, limit)| > 0;
    assert UserNotificationHistory(history, userId, limit)[0] == sorted[0];
  }

  /** The notification was sent strictly after `cutoff`. */
  function SentAfter(cutoff: int): NotificationHistory -> bool
  {
    (n: NotificationHistory) => n.sentAt > cutoff
  }

  datatype AlertStatistics = AlertStatistics(
    totalAlerts: nat,
    activeAlerts: nat,
    inactiveAlerts: int,
    totalNotifications: nat,
    recentNotifications: nat,
    lastNotification: Option<int>)

  /** get_alert_statistics, given the user's alerts and the user's (limited) history. */
  function StatisticsOf(userAlerts: seq<AlertSetting>, userHistory: seq<NotificationHistory>, now: int)
    : AlertStatistics
  {
    var activeCount := Count(userAlerts, IsActive);
    var recent := Filter(userHistory, SentAfter(now - WeekSeconds));
    AlertStatistics(
      |userAlerts|,
      activeCount,
      |userAlerts| - activeCount,
      |userHistory|,
      |recent|,
      if |userHistory| > 0 then Some(userHistory[0].sentAt) else None)
  }

  /**
   * get_alert_statistics: the inactive count, computed as total minus
   * active, is the number of inactive alerts; the notification count is
   * min(the user's count, 50), the size of the limited history, and the
   * recent count is how many of those were sent within the week before
   * `now`; the last notification time is absent exactly when the user has
   * no notification, and otherwise is the newest of the user's notifications.
   */
  function UserStatistics(userAlerts: seq<AlertSetting>, history: seq<NotificationHistory>, userId: string, now: int)
    : (s: AlertStatistics)
    ensures s.totalAlerts == |userAlerts| && s.activeAlerts == Count(userAlerts, IsActive)
    ensures s.inactiveAlerts == Count(userAlerts, IsInactive)
    ensures s.recentNotifications <= s.totalNotifications <= DefaultHistoryLimit
    ensures s.totalNotifications == if Count(history, SentTo(userId)) <= DefaultHistoryLimit
                                    then Count(history, SentTo(userId)) else DefaultHistoryLimit
    ensures s.recentNotifications
         == Count(UserNotificationHistory(history, userId, DefaultHistoryLimit), SentAfter(now - WeekSeconds))
    ensures s.lastNotification.None? <==> forall n :: n in history ==> n.userId != userId
    ensures s.lastNotification.Some? ==>
      (exists n :: n in history && n.userId == userId && n.sentAt == s.lastNotification.value)
      && (forall n :: n in history && n.userId == userId ==> n.sentAt <= s.lastNotification.value)
  {
    var userHistory := UserNotificationHistory(history, userId, DefaultHistoryLimit);
    var s := StatisticsOf(userAlerts, userHistory, now);
    CountSplit(userAlerts, IsActive, IsInactive);
    assert forall n :: n in history && n.userId == userId ==> |userHistory| > 0 && n.sentAt <= userHistory[0].sentAt by {
      forall n | n in history && n.userId == userId
        ensures |userHistory| > 0 && n.sentAt <= userHistory[0].sentAt
      {
        NewestIsFirst(history, userId, DefaultHistoryLimit, n);
      }
    }
    s
  }

  /** The new record that create_alert_setting stores. */
  function NewAlert(alertId: string, userId: string, data: AlertSettingCreate, now: int): (a: AlertSetting)
    ensures a.id == alertId && a.userId == userId
    ensures a.currencyFrom == Upper(data.currencyFrom) && a.currencyTo == Upper(data.currencyTo)
    ensures a.targetRate == data.targetRate && a.condition == data.condition && a.isActive == data.isActive
    ensures a.createdAt == a.updatedAt == now
  {
    AlertSetting(alertId, userId, Upper(data.currencyFrom), Upper(data.currencyTo),
                 data.targetRate, data.condition, data.isActive, now, now)
  }

  /** The record after update_alert_setting: only the fields given change, and updated_at. */
  function ApplyUpdate(a: AlertSetting, u: AlertSettingUpdate, now: int): (b: AlertSetting)
    ensures b.id == a.id && b.userId == a.userId
    ensures b.currencyFrom == a.currencyFrom && b.currencyTo == a.currencyTo
    ensures b.createdAt == a.createdAt && b.updatedAt == now
    ensures b.targetRate == u.targetRate.GetOr(a.targetRate)
    ensures b.condition == u.condition.GetOr(a.condition)
    ensures b.isActive == u.isActive.GetOr(a.isActive)
  {
    a.(targetRate := u.targetRate.GetOr(a.targetRate),
       condition := u.condition.GetOr(a.condition),
       isActive := u.isActive.GetOr(a.isActive),
       updatedAt := now)
  }

  /** Applying the same update twice at the same time is the same as applying it once. */
  lemma ApplyUpdateIdempotent(a: AlertSetting, u: AlertSettingUpdate, now: int)
    ensures ApplyUpdate(ApplyUpdate(a, u, now), u, now) == ApplyUpdate(a, u, now)
  {
  }

  datatype KeyError = KeyError

  class AlertService {
    /** self.alert_settings */
    var alertSettings: map<string, AlertSetting>
    /** The order in which the dictionary's keys were inserted. */
    var order: seq<string>
    /** self.notification_history */
    var notificationHistory: seq<NotificationHistory>

    ghost predicate Valid()
      reads this
    {
      && NoDuplicates(order)
      && (forall id :: id in alertSettings <==> id in order)
      && (forall id :: id in alertSettings ==> alertSettings[id].id == id)
    }

    constructor ()
      ensures Valid()
      ensures alertSettings == map[] && order == [] && notificationHistory == []
    {
      alertSettings := map[];
      order := [];
      notificationHistory := [];
    }

    /** alert_settings.values(), in insertion order. */
    function Values(): (r: seq<AlertSetting>)
      reads this
      requires Valid()
      ensures forall a :: a in r <==> a.id in alertSettings && alertSettings[a.id] == a
    {
      var r := ValuesInOrder(alertSettings, order);
      assert forall a: AlertSetting :: a in r ==> a.id in alertSettings && alertSettings[a.id] == a by {
        forall a: AlertSetting | a in r ensures a.id in alertSettings && alertSettings[a.id] == a {
          var i :| 0 <= i < |r| && r[i] == a;
          assert order[i] in alertSettings;
        }
      }
      assert forall a: AlertSetting :: a.id in alertSettings && alertSettings[a.id] == a ==> a in r by {
        forall a: AlertSetting | a.id in alertSettings && alertSettings[a.id] == a ensures a in r {
          var i :| 0 <= i < |order| && order[i] == a.id;
          assert r[i] == a;
        }
      }
      r
    }

    /** get_user_alerts: exactly the stored alerts of the user. */
    function GetUserAlerts(userId: string): (r: seq<AlertSetting>)
      reads this
      requires Valid()
      ensures forall a :: a in r <==> a.id in alertSettings && alertSettings[a.id] == a && a.userId == userId
    {
      Filter(Values(), OwnedBy(userId))
    }

    /** get_alert_by_id. */
    function GetAlertById(alertId: string): (r: Option<AlertSetting>)
      reads this
      ensures r.Some? <==> alertId in alertSettings
      ensures r.Some? ==> r.value == alertSettings[alertId]
    {
      if alertId in alertSettings then Some(alertSettings[alertId]) else None
    }

    /** get_active_alerts: exactly the stored alerts whose is_active is set. */
    function GetActiveAlerts(): (r: seq<AlertSetting>)
      reads this
      requires Valid()
      ensures forall a :: a in r <==> a.id in alertSettings && alertSettings[a.id] == a && a.isActive
    {
      Filter(Values(), IsActive)
    }

    /** create_alert_setting: stores one new record under `alertId` (a fresh uuid4). */
    method CreateAlertSetting(userId: string, data: AlertSettingCreate, alertId: string, now: int)
      returns (a: AlertSetting)
      requires Valid()
      modifies this
      ensures Valid()
      ensures a == NewAlert(alertId, userId, data, now)
      ensures alertSettings == old(alertSettings)[alertId := a]
      ensures order == if alertId in old(alertSettings) then old(order) else old(order) + [alertId]
      ensures notificationHistory == old(notificationHistory)
    {
      a := NewAlert(alertId, userId, data, now);
      if alertId !in alertSettings {
        order := order + [alertId];
      }
      alertSettings := alertSettings[alertId := a];
    }

    /** update_alert_setting: None for a missing id; otherwise the fields given change. */
    method UpdateAlertSetting(alertId: string, update: AlertSettingUpdate, now: int)
      returns (r: Option<AlertSetting>)
      requires Valid()
      modifies this
      ensures Valid()
      ensures r.None? <==> alertId !in old(alertSettings)
      ensures r.None? ==> alertSettings == old(alertSettings)
      ensures r.Some? ==> (r.value == ApplyUpdate(old(alertSettings)[alertId], update, now)
                           && alertSettings == old(alertSettings)[alertId := r.value])
      ensures order == old(order) && notificationHistory == old(notificationHistory)
    {
      var existing := GetAlertById(alertId);
      if existing.None? {
        return None;
      }
      var updated := ApplyUpdate(existing.value, update, now);
      alertSettings := alertSettings[alertId := updated];
      r := Some(updated);
    }

    /** delete_alert_setting: True and the entry removed iff the id was stored. */
    method DeleteAlertSetting(alertId: string) returns (deleted: bool)
      requires Valid()
      modifies this
      ensures Valid()
      ensures deleted <==> alertId in old(alertSettings)
      ensures alertSettings == old(alertSettings) - {alertId}
      ensures order == Filter(old(order), Except(alertId))
      ensures notificationHistory == old(notificationHistory)
    {
      if alertId in alertSettings {
        FilterNoDuplicates(order, Except(alertId));
        alertSettings := alertSettings - {alertId};
        order := Filter(order, Except(alertId));
        return true;
      }
      assert Filter(order, Except(alertId)) == order by {
        FilterAllAccepted(order, Except(alertId));
      }
      return false;
    }

    /** _check_recent_notification: a notification for the alert within the last `hours` hours. */
    method CheckRecentNotification(alertId: string, now: int, hours: int) returns (recent: bool)
      ensures recent <==> HasRecentNotification(notificationHistory, alertId, now, hours)
    {
      var cutoff := now - hours * HourSeconds;
      var i := 0;
      while i < |notificationHistory|
        invariant 0 <= i <= |notificationHistory|
        invariant forall k :: 0 <= k < i ==>
          !(notificationHistory[k].alertSettingId == alertId && notificationHistory[k].sentAt > cutoff)
      {
        var notification := notificationHistory[i];
        if notification.alertSettingId == alertId && notification.sentAt > cutoff {
          return true;
        }
        i := i + 1;
      }
      return false;
    }

    /** check_alert_conditions: the active alerts to notify about now, in dictionary order. */
    method CheckAlertConditions(feeds: ExchangeRate.Feeds, now: int) returns (triggered: seq<TriggeredAlert>)
      requires Valid()
      ensures triggered == TriggeredAlerts(GetActiveAlerts(), feeds, notificationHistory, now)
    {
      var activeAlerts := GetActiveAlerts();
      triggered := [];
      var i := 0;
      while i < |activeAlerts|
        invariant 0 <= i <= |activeAlerts|
        invariant triggered == TriggeredAlerts(activeAlerts[..i], feeds, notificationHistory, now)
      {
        TriggeredAlertsStep(activeAlerts, i, feeds, notificationHistory, now);
        var reported := CheckOneAlert(activeAlerts[i], feeds, now);
        triggered := triggered + reported;
        i := i + 1;
      }
      assert activeAlerts[..i] == activeAlerts;
    }

    /** The body of check_alert_conditions' loop for one alert. */
    method CheckOneAlert(alert: AlertSetting, feeds: ExchangeRate.Feeds, now: int) returns (reported: seq<TriggeredAlert>)
      ensures reported == CheckAlert(alert, feeds, notificationHistory, now)
    {
      reported := [];
      var rate := ExchangeRate.GetConversionRate(feeds, alert.currencyFrom, alert.currencyTo);
      if rate.Success? {
        if ShouldTrigger(alert.condition, rate.value, alert.targetRate) {
          var recent := CheckRecentNotification(alert.id, now, RecentWindowHours);
          if !recent {
            reported := [TriggeredAlert(alert, rate.value, now)];
          }
        }
      }
    }

    /**
     * record_notification: appends one entry carrying the alert's owner; a
     * missing alert id raises KeyError and nothing is recorded.
     */
    method RecordNotification(alertId: string, triggeredRate: real, notificationType: string,
                              notificationId: string, now: int)
      returns (r: Result<NotificationHistory, KeyError>)
      requires Valid()
      modifies this
      ensures Valid()
      ensures r.Failure? <==> alertId !in alertSettings
      ensures r.Success? ==> r.value == NotificationHistory(notificationId, alertSettings[alertId].userId,
                                                            alertId, triggeredRate, notificationType, now)
      ensures notificationHistory == if r.Success? then old(notificationHistory) + [r.value] else old(notificationHistory)
      ensures alertSettings == old(alertSettings) && order == old(order)
    {
      if alertId !in alertSettings {
        return Failure(KeyError);
      }
      var notification := NotificationHistory(notificationId, alertSettings[alertId].userId, alertId,
                                              triggeredRate, notificationType, now);
      notificationHistory := notificationHistory + [notification];
      r := Success(notification);
    }

    /** get_user_notification_history: stored notifications of the user only, newest first, at most `limit`. */
    function GetUserNotificationHistory(userId: string, limit: int): (r: seq<NotificationHistory>)
      reads this
      ensures forall i :: 0 <= i < |r| ==> r[i].userId == userId && r[i] in notificationHistory
      ensures NewestFirst(r)
      ensures limit >= 0 ==> |r| <= limit
      ensures r == UserNotificationHistory(notificationHistory, userId, limit)
    {
      UserNotificationHistory(notificationHistory, userId, limit)
    }

    /** get_alert_statistics: the alert counts are over the user's stored alerts. */
    function GetAlertStatistics(userId: string, now: int): (s: AlertStatistics)
      reads this
      requires Valid()
      ensures s.activeAlerts + s.inactiveAlerts == s.totalAlerts
      ensures s.totalAlerts == |GetUserAlerts(userId)|
      ensures s.recentNotifications <= s.totalNotifications <= DefaultHistoryLimit
      ensures s == UserStatistics(GetUserAlerts(userId), notificationHistory, userId, now)
    {
      CountSplit(GetUserAlerts(userId), IsActive, IsInactive);
      UserStatistics(GetUserAlerts(userId), notificationHistory, userId, now)
    }
  }
}
