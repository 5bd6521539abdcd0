/**
 * The backend's alert records. Times are seconds on one clock; the clock
 * itself is read by the callers and passed in.
 */
module AlertModels {
  import opened Wrappers

  /** Literal['above', 'below']. */
  datatype Condition = Above | Below

  datatype AlertSetting = AlertSetting(
    id: string,
    userId: string,
    currencyFrom: string,
    currencyTo: string,
    targetRate: real,
    condition: Condition,
    isActive: bool,
    createdAt: int,
    updatedAt: int)

  /** The body of POST /alerts/. */
  datatype AlertSettingCreate = AlertSettingCreate(
    currencyFrom: string,
    currencyTo: string,
    targetRate: real,
    condition: Condition,
    isActive: bool)

  /** The body of PUT /alerts/{id}: a field left as None is not changed. */
  datatype AlertSettingUpdate = AlertSettingUpdate(
    targetRate: Option<real>,
    condition: Option<Condition>,
    isActive: Option<bool>)

  datatype NotificationHistory = NotificationHistory(
    id: string,
    userId: string,
    alertSettingId: string,
    triggeredRate: real,
    notificationType: string,
    sentAt: int)
}
