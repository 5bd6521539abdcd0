/**
 * The AlertSettings page: a signed-in user's local list of alerts with a
 * creation form, per-alert activate/deactivate and delete buttons, and a
 * redirect to the login page for visitors without a session. The
 * authentication state is a parameter; the clock and the id source
 * (`Date.now().toString()`) are parameters.
 */
module AlertSettingsPage {
  import opened Seqs
  import opened Numeric

  const LoginPath: string := "/login"

  datatype PageForm = PageForm(currencyFrom: string, currencyTo: string, targetRate: string, condition: string)

  /** The form's state on load and after every submit. */
  const EmptyForm: PageForm := PageForm("USD", "KRW", "", "below")

  datatype PageAlert = PageAlert(
    id: string, currencyFrom: string, currencyTo: string, targetRate: Num,
    condition: string, isActive: bool, createdAt: int)

  /** `{id, ...formData, target_rate: parseFloat(formData.target_rate), is_active: true, created_at}`. */
  function NewPageAlert(f: PageForm, parsed: Num, newId: string, now: int): (a: PageAlert)
    ensures a.id == newId && a.createdAt == now && a.isActive
    ensures a.currencyFrom == f.currencyFrom && a.currencyTo == f.currencyTo && a.condition == f.condition
    ensures a.targetRate == parsed
  {
    PageAlert(newId, f.currencyFrom, f.currencyTo, parsed, f.condition, true, now)
  }

  /** `alerts.map(alert => alert.id === id ? {...alert, is_active: !alert.is_active} : alert)`. */
  function ToggleById(alerts: seq<PageAlert>, id: string): (r: seq<PageAlert>)
    ensures |r| == |alerts|
    ensures forall i :: 0 <= i < |alerts| ==>
      r[i] == (if alerts[i].id == id then alerts[i].(isActive := !alerts[i].isActive) else alerts[i])
  {
    seq(|alerts|, i requires 0 <= i < |alerts| =>
      if alerts[i].id == id then alerts[i].(isActive := !alerts[i].isActive) else alerts[i])
  }

  /** Toggling the same id twice restores the list. */
  lemma ToggleTwiceRestores(alerts: seq<PageAlert>, id: string)
    ensures ToggleById(ToggleById(alerts, id), id) == alerts
  {
    var once := ToggleById(alerts, id);
    var twice := ToggleById(once, id);
    forall i | 0 <= i < |alerts|
      ensures twice[i] == alerts[i]
    {
      assert once[i].id == alerts[i].id;
    }
  }

  /** Toggling one id never touches the alerts of another id, and toggles are independent of order. */
  lemma TogglesCommute(alerts: seq<PageAlert>, id1: string, id2: string)
    ensures ToggleById(ToggleById(alerts, id1), id2) == ToggleById(ToggleById(alerts, id2), id1)
  {
    var a := ToggleById(ToggleById(alerts, id1), id2);
    var b := ToggleById(ToggleById(alerts, id2), id1);
    forall i | 0 <= i < |alerts|
      ensures a[i] == b[i]
    {
      assert ToggleById(alerts, id1)[i].id == alerts[i].id;
      assert ToggleById(alerts, id2)[i].id == alerts[i].id;
    }
  }

  /** The filter predicate `alert => alert.id !== id`. */
  function OtherId(id: string): PageAlert -> bool
  {
    (a: PageAlert) => a.id != id
  }

  /** `alerts.filter(alert => alert.id !== id)`. */
  function RemoveById(alerts: seq<PageAlert>, id: string): (r: seq<PageAlert>)
    ensures forall a :: a in r <==> a in alerts && a.id != id
    ensures |r| <= |alerts|
  {
    Filter(alerts, OtherId(id))
  }

  /** Deleting distributes over the list: what survives keeps its relative order. */
  lemma RemoveKeepsOrder(front: seq<PageAlert>, back: seq<PageAlert>, id: string)
    ensures RemoveById(front + back, id) == RemoveById(front, id) + RemoveById(back, id)
  {
    FilterAppend(front, back, OtherId(id));
  }

  /** Deleting an alert that was just added with a fresh id gives back the list before it. */
  lemma DeleteUndoesSubmit(alerts: seq<PageAlert>, added: PageAlert)
    requires forall i :: 0 <= i < |alerts| ==> alerts[i].id != added.id
    ensures RemoveById(alerts + [added], added.id) == alerts
  {
    FilterAppend(alerts, [added], OtherId(added.id));
    FilterAllAccepted(alerts, OtherId(added.id));
    assert Filter([added], OtherId(added.id)) == [];
  }

  /** The effect on the auth state: once loading is over with no user, go to the login page. */
  function Redirect(authLoading: bool, hasUser: bool): (target: string)
    ensures target == LoginPath <==> !authLoading && !hasUser
    ensures target != LoginPath ==> target == ""
  {
    if !authLoading && !hasUser then LoginPath else ""
  }

  /** One of the form's inputs: `setFormData({...formData, [field]: value})`. */
  datatype PageFieldChange =
    | CurrencyFrom(text: string)
    | CurrencyTo(text: string)
    | TargetRate(text: string)
    | Condition(text: string)

  function ApplyChange(f: PageForm, c: PageFieldChange): (g: PageForm)
    ensures g.currencyFrom == (if c.CurrencyFrom? then c.text else f.currencyFrom)
    ensures g.currencyTo == (if c.CurrencyTo? then c.text else f.currencyTo)
    ensures g.targetRate == (if c.TargetRate? then c.text else f.targetRate)
    ensures g.condition == (if c.Condition? then c.text else f.condition)
  {
    match c
    case CurrencyFrom(s) => f.(currencyFrom := s)
    case CurrencyTo(s) => f.(currencyTo := s)
    case TargetRate(s) => f.(targetRate := s)
    case Condition(s) => f.(condition := s)
  }

  class AlertSettingsPageState {
    var alerts: seq<PageAlert>
    var showForm: bool
    var formData: PageForm

    constructor ()
      ensures alerts == [] && !showForm && formData == EmptyForm
    {
      alerts := [];
      showForm := false;
      formData := EmptyForm;
    }

    /**
     * handleSubmit: one active alert built from the form is appended, the
     * form is reset to its defaults and hidden.
     */
    method HandleSubmit(newId: string, now: int)
      modifies this
      ensures alerts == old(alerts) + [NewPageAlert(old(formData), ParseFloat(old(formData).targetRate), newId, now)]
      ensures formData == EmptyForm && !showForm
    {
      var newAlert := NewPageAlert(formData, ParseFloat(formData.targetRate), newId, now);
      alerts := alerts + [newAlert];
      formData := EmptyForm;
      showForm := false;
    }

    /** toggleAlert: the alerts with that id switch between active and inactive. */
    method ToggleAlert(id: string)
      modifies this
      ensures alerts == ToggleById(old(alerts), id)
      ensures showForm == old(showForm) && formData == old(formData)
    {
      alerts := ToggleById(alerts, id);
    }

    /** deleteAlert: the alerts with that id are dropped. */
    method DeleteAlert(id: string)
      modifies this
      ensures alerts == RemoveById(old(alerts), id)
      ensures showForm == old(showForm) && formData == old(formData)
    {
      alerts := Filter(alerts, OtherId(id));
    }

    /** The add button: `setShowForm(!showForm)`. */
    method ToggleForm()
      modifies this
      ensures showForm == !old(showForm)
      ensures alerts == old(alerts) && formData == old(formData)
    {
      showForm := !showForm;
    }

    /** The form's inputs. */
    method ChangeField(c: PageFieldChange)
      modifies this
      ensures formData == ApplyChange(old(formData), c)
      ensures alerts == old(alerts) && showForm == old(showForm)
    {
      formData := ApplyChange(formData, c);
    }
  }
}
