/**
 * The AlertDashboard component: the demo user's alert list, edited in
 * place through the alert form, plus the e-mail registration field. The
 * clock (`new Date()`) and the id source (`Date.now().toString()`) are
 * parameters; times are whole milliseconds.
 */
module AlertDashboard {
  import opened Wrappers
  import opened Seqs
  import opened Text
  import opened Numeric
  import AlertForm

  const DemoUserId: string := "demo_user"
  const EmailRequiredMessage: string := "이메일 주소를 입력해주세요."

  datatype DashboardAlert = DashboardAlert(
    id: string, userId: string, currencyFrom: string, currencyTo: string,
    targetRate: Num, condition: string, isActive: bool,
    createdAt: int, updatedAt: int)

  /** `{id, user_id: userId, ...alertData, created_at, updated_at}` with both times read at `now`. */
  function NewAlert(data: AlertForm.SubmitData, newId: string, now: int): (a: DashboardAlert)
    ensures a.id == newId && a.userId == DemoUserId
    ensures a.currencyFrom == data.currencyFrom && a.currencyTo == data.currencyTo
    ensures a.targetRate == data.targetRate && a.condition == data.condition && a.isActive == data.isActive
    ensures a.createdAt == a.updatedAt == now
  {
    DashboardAlert(newId, DemoUserId, data.currencyFrom, data.currencyTo, data.targetRate,
                   data.condition, data.isActive, now, now)
  }

  /** `{...editingAlert, ...alertData, updated_at}`: the form's fields over the edited alert. */
  function Merged(editing: DashboardAlert, data: AlertForm.SubmitData, now: int): (a: DashboardAlert)
    ensures a.id == editing.id && a.userId == editing.userId && a.createdAt == editing.createdAt
    ensures a.currencyFrom == data.currencyFrom && a.currencyTo == data.currencyTo
    ensures a.targetRate == data.targetRate && a.condition == data.condition && a.isActive == data.isActive
    ensures a.updatedAt == now
  {
    editing.(currencyFrom := data.currencyFrom, currencyTo := data.currencyTo,
             targetRate := data.targetRate, condition := data.condition,
             isActive := data.isActive, updatedAt := now)
  }

  /** `prev.map(alert => alert.id === id ? replacement : alert)`. */
  function ReplaceById(alerts: seq<DashboardAlert>, id: string, replacement: DashboardAlert): (r: seq<DashboardAlert>)
    ensures |r| == |alerts|
    ensures forall i :: 0 <= i < |alerts| ==> r[i] == (if alerts[i].id == id then replacement else alerts[i])
  {
    seq(|alerts|, i requires 0 <= i < |alerts| => if alerts[i].id == id then replacement else alerts[i])
  }

  /** `prev.map(alert => alert.id === id ? {...alert, is_active: status, updated_at} : alert)`. */
  function SetActiveById(alerts: seq<DashboardAlert>, id: string, status: bool, now: int): (r: seq<DashboardAlert>)
    ensures |r| == |alerts|
    ensures forall i :: 0 <= i < |alerts| ==>
      r[i] == (if alerts[i].id == id then alerts[i].(isActive := status, updatedAt := now) else alerts[i])
  {
    seq(|alerts|, i requires 0 <= i < |alerts| =>
      if alerts[i].id == id then alerts[i].(isActive := status, updatedAt := now) else alerts[i])
  }

  /** The filter predicate `alert => alert.id !== id`. */
  function OtherId(id: string): DashboardAlert -> bool
  {
    (a: DashboardAlert) => a.id != id
  }

  function WithId(id: string): DashboardAlert -> bool
  {
    (a: DashboardAlert) => a.id == id
  }

  /** `prev.filter(alert => alert.id !== id)`. */
  function RemoveById(alerts: seq<DashboardAlert>, id: string): (r: seq<DashboardAlert>)
    ensures forall a :: a in r <==> a in alerts && a.id != id
  {
    Filter(alerts, OtherId(id))
  }

  /** Removing drops exactly the alerts carrying the id; the rest keep their order. */
  lemma RemoveByIdCount(alerts: seq<DashboardAlert>, id: string)
    ensures |RemoveById(alerts, id)| == |alerts| - Count(alerts, WithId(id))
    ensures forall i :: 0 <= i < |RemoveById(alerts, id)| ==> RemoveById(alerts, id)[i].id != id
  {
    CountSplit(alerts, WithId(id), OtherId(id));
  }

  /** Removing an id no alert carries changes nothing. */
  lemma RemoveAbsentId(alerts: seq<DashboardAlert>, id: string)
    requires forall i :: 0 <= i < |alerts| ==> alerts[i].id != id
    ensures RemoveById(alerts, id) == alerts
  {
    FilterAllAccepted(alerts, OtherId(id));
  }

  /** Replacing or toggling an id no alert carries changes nothing. */
  lemma MapAbsentId(alerts: seq<DashboardAlert>, id: string, replacement: DashboardAlert, status: bool, now: int)
    requires forall i :: 0 <= i < |alerts| ==> alerts[i].id != id
    ensures ReplaceById(alerts, id, replacement) == alerts
    ensures SetActiveById(alerts, id, status, now) == alerts
  {
  }

  /** Setting the same status twice is the same as setting it once. */
  lemma SetActiveTwice(alerts: seq<DashboardAlert>, id: string, status: bool, now: int)
    ensures SetActiveById(SetActiveById(alerts, id, status, now), id, status, now)
         == SetActiveById(alerts, id, status, now)
  {
  }

  /** `!userEmail.trim()`: the text is empty or white space only. */
  predicate IsBlank(email: string)
  {
    Strip(email, IsJsSpace) == ""
  }

  /** A blank e-mail is one made only of white space. */
  lemma BlankMeansAllSpace(email: string)
    ensures IsBlank(email) <==> forall k :: 0 <= k < |email| ==> IsJsSpace(email[k])
  {
    StripEmpty(email, IsJsSpace);
  }

  class AlertDashboardState {
    var alerts: seq<DashboardAlert>
    var showForm: bool
    var editingAlert: Option<DashboardAlert>
    var userEmail: string
    var loading: bool
    var error: Option<string>

    constructor ()
      ensures alerts == [] && !showForm && editingAlert.None? && userEmail == ""
      ensures !loading && error.None?
    {
      alerts := [];
      showForm := false;
      editingAlert := None;
      userEmail := "";
      loading := false;
      error := None;
    }

    /** handleCreateAlert: one new alert at the end, the form hidden, loading over. */
    method HandleCreateAlert(data: AlertForm.SubmitData, newId: string, now: int)
      modifies this
      ensures alerts == old(alerts) + [NewAlert(data, newId, now)]
      ensures !showForm && !loading
      ensures editingAlert == old(editingAlert) && userEmail == old(userEmail) && error == old(error)
    {
      loading := true;
      var created := NewAlert(data, newId, now);
      alerts := alerts + [created];
      showForm := false;
      loading := false;
    }

    /**
     * handleEditAlert, which the form calls only while an alert is being
     * edited: every alert with that id becomes the merged record, the rest
     * stay; editing ends and the form is hidden.
     */
    method HandleEditAlert(data: AlertForm.SubmitData, now: int)
      requires editingAlert.Some?
      modifies this
      ensures alerts == ReplaceById(old(alerts), old(editingAlert).value.id, Merged(old(editingAlert).value, data, now))
      ensures editingAlert.None? && !showForm && !loading
      ensures userEmail == old(userEmail) && error == old(error)
    {
      loading := true;
      var updated := Merged(editingAlert.value, data, now);
      alerts := ReplaceById(alerts, editingAlert.value.id, updated);
      editingAlert := None;
      showForm := false;
      loading := false;
    }

    /** The form's onSubmit: edit while an alert is being edited, create otherwise. */
    method Submit(data: AlertForm.SubmitData, newId: string, now: int)
      modifies this
      ensures old(editingAlert).Some? ==>
        alerts == ReplaceById(old(alerts), old(editingAlert).value.id, Merged(old(editingAlert).value, data, now))
      ensures old(editingAlert).None? ==> alerts == old(alerts) + [NewAlert(data, newId, now)]
      ensures editingAlert.None? && !showForm && !loading
    {
      if editingAlert.Some? {
        HandleEditAlert(data, now);
      } else {
        HandleCreateAlert(data, newId, now);
      }
    }

    /** handleDeleteAlert: the alerts with that id are dropped. */
    method HandleDeleteAlert(alertId: string)
      modifies this
      ensures alerts == RemoveById(old(alerts), alertId)
      ensures showForm == old(showForm) && editingAlert == old(editingAlert) && userEmail == old(userEmail)
      ensures loading == old(loading) && error == old(error)
    {
      alerts := Filter(alerts, OtherId(alertId));
    }

    /** handleToggleAlert: the alerts with that id get the requested status. */
    method HandleToggleAlert(alertId: string, newStatus: bool, now: int)
      modifies this
      ensures alerts == SetActiveById(old(alerts), alertId, newStatus, now)
      ensures showForm == old(showForm) && editingAlert == old(editingAlert) && userEmail == old(userEmail)
      ensures loading == old(loading) && error == old(error)
    {
      alerts := SetActiveById(alerts, alertId, newStatus, now);
    }

    /** The e-mail input. */
    method SetUserEmail(value: string)
      modifies this
      ensures userEmail == value
      ensures alerts == old(alerts) && showForm == old(showForm) && editingAlert == old(editingAlert)
      ensures loading == old(loading) && error == old(error)
    {
      userEmail := value;
    }

    /**
     * handleRegisterEmail: a blank address sets the error and registers
     * nothing; otherwise the address is registered and the field cleared.
     * `registered` is the address registered, if any.
     */
    method HandleRegisterEmail() returns (registered: Option<string>)
      modifies this
      ensures IsBlank(old(userEmail)) ==>
        registered.None? && error == Some(EmailRequiredMessage) && userEmail == old(userEmail)
      ensures !IsBlank(old(userEmail)) ==>
        registered == Some(old(userEmail)) && userEmail == "" && error == old(error)
      ensures alerts == old(alerts) && showForm == old(showForm) && editingAlert == old(editingAlert)
      ensures loading == old(loading)
    {
      if Strip(userEmail, IsJsSpace) == "" {
        error := Some(EmailRequiredMessage);
        return None;
      }
      registered := Some(userEmail);
      userEmail := "";
    }

    /** The "new alert" button: the form opens empty. */
    method OpenNewAlertForm()
      modifies this
      ensures showForm && editingAlert.None?
      ensures alerts == old(alerts) && userEmail == old(userEmail) && loading == old(loading) && error == old(error)
    {
      showForm := true;
      editingAlert := None;
    }

    /** The list's edit action: the form opens on that alert. */
    method OpenEditForm(alert: DashboardAlert)
      modifies this
      ensures showForm && editingAlert == Some(alert)
      ensures alerts == old(alerts) && userEmail == old(userEmail) && loading == old(loading) && error == old(error)
    {
      editingAlert := Some(alert);
      showForm := true;
    }

    /** The form's cancel: the form closes and nothing is being edited. */
    method CancelForm()
      modifies this
      ensures !showForm && editingAlert.None?
      ensures alerts == old(alerts) && userEmail == old(userEmail) && loading == old(loading) && error == old(error)
    {
      showForm := false;
      editingAlert := None;
    }
  }
}
