/**
 * The AlertForm component: a form for one alert (currency pair, target
 * rate, condition, active flag) that validates before handing the data to
 * its `onSubmit` callback. The callback is outside the model: its outcome
 * (resolved, or rejected with a message) is a parameter.
 */
module AlertForm {
  import opened Wrappers
  import opened Numeric

  const RateErrorMessage: string := "올바른 목표 환율을 입력해주세요."
  const SameCurrencyMessage: string := "서로 다른 통화를 선택해주세요."
  const SubmitFailedMessage: string := "알림 설정에 실패했습니다."

  /**
   * The target rate as the form holds it: the text typed in the input, or
   * the number copied from the alert being edited.
   */
  datatype RateInput = Typed(text: string) | Number(value: real)

  datatype FormData = FormData(
    currencyFrom: string, currencyTo: string, targetRate: RateInput,
    condition: string, isActive: bool)

  /**
   * The alert being edited, as far as the form reads it. Text fields hold
   * "" when absent; `isActive` is None when absent.
   */
  datatype InitialData = InitialData(
    currencyFrom: string, currencyTo: string, targetRate: real,
    condition: string, isActive: Option<bool>)

  /** The form's initial state: each field from `initialData` when truthy, else its default. */
  function InitialForm(init: Option<InitialData>): (f: FormData)
    ensures init.None? ==> f == FormData("USD", "KRW", Typed(""), "above", true)
    ensures init.Some? ==>
      && f.currencyFrom == (if init.value.currencyFrom != "" then init.value.currencyFrom else "USD")
      && f.currencyTo == (if init.value.currencyTo != "" then init.value.currencyTo else "KRW")
      && f.targetRate == (if init.value.targetRate != 0.0 then Number(init.value.targetRate) else Typed(""))
      && f.condition == (if init.value.condition != "" then init.value.condition else "above")
      && f.isActive == init.value.isActive.GetOr(true)
  {
    match init
    case None => FormData("USD", "KRW", Typed(""), "above", true)
    case Some(d) =>
      FormData(
        if d.currencyFrom != "" then d.currencyFrom else "USD",
        if d.currencyTo != "" then d.currencyTo else "KRW",
        if d.targetRate != 0.0 then Number(d.targetRate) else Typed(""),
        if d.condition != "" then d.condition else "above",
        match d.isActive case Some(b) => b case None => true)
  }

  /** An `is_active` of false in the initial data survives (`??`, unlike `||`, keeps false). */
  lemma InactiveInitialDataKept(d: InitialData)
    requires d.isActive == Some(false)
    ensures !InitialForm(Some(d)).isActive
  {
  }

  /** One call of handleInputChange: the field named and its new value. */
  datatype FieldChange =
    | CurrencyFrom(text: string)
    | CurrencyTo(text: string)
    | TargetRate(text: string)
    | Condition(text: string)
    | IsActive(checked: bool)

  /** `{...prev, [field]: value}`. */
  function Apply(f: FormData, c: FieldChange): (g: FormData)
    ensures g.currencyFrom == (if c.CurrencyFrom? then c.text else f.currencyFrom)
    ensures g.currencyTo == (if c.CurrencyTo? then c.text else f.currencyTo)
    ensures g.targetRate == (if c.TargetRate? then Typed(c.text) else f.targetRate)
    ensures g.condition == (if c.Condition? then c.text else f.condition)
    ensures g.isActive == (if c.IsActive? then c.checked else f.isActive)
  {
    match c
    case CurrencyFrom(s) => f.(currencyFrom := s)
    case CurrencyTo(s) => f.(currencyTo := s)
    case TargetRate(s) => f.(targetRate := Typed(s))
    case Condition(s) => f.(condition := s)
    case IsActive(b) => f.(isActive := b)
  }

  /** Two changes to the same field leave only the second one's value. */
  lemma LastChangeWins(f: FormData, c1: FieldChange, c2: FieldChange)
    requires c1.CurrencyFrom? == c2.CurrencyFrom? && c1.CurrencyTo? == c2.CurrencyTo?
    requires c1.TargetRate? == c2.TargetRate? && c1.Condition? == c2.Condition? && c1.IsActive? == c2.IsActive?
    ensures Apply(Apply(f, c1), c2) == Apply(f, c2)
  {
  }

  /** JavaScript truthiness of the rate field: "" and 0 are falsy. */
  predicate RateGiven(r: RateInput)
  {
    match r
    case Typed(t) => t != ""
    case Number(v) => v != 0.0
  }

  /** `parseFloat(formData.target_rate)`; a number parses to itself. */
  function ParseRate(r: RateInput): (n: Num)
    ensures n.Finite? || n.NaN?
  {
    match r
    case Typed(t) => ParseFloat(t)
    case Number(v) => Finite(v)
  }

  /**
   * The checks of handleSubmit, in order, given the parsed rate: a missing
   * or non-positive rate first, then a pair of equal currencies. A rate that
   * does not parse (NaN) is not "<= 0" and passes.
   */
  function ValidationError(f: FormData, parsed: Num): (e: Option<string>)
    ensures e == Some(RateErrorMessage) <==> !RateGiven(f.targetRate) || (parsed.Finite? && parsed.v <= 0.0)
    ensures e == Some(SameCurrencyMessage) <==>
      RateGiven(f.targetRate) && !(parsed.Finite? && parsed.v <= 0.0) && f.currencyFrom == f.currencyTo
    ensures e.None? <==>
      RateGiven(f.targetRate) && !(parsed.Finite? && parsed.v <= 0.0) && f.currencyFrom != f.currencyTo
  {
    if !RateGiven(f.targetRate) || (parsed.Finite? && parsed.v <= 0.0) then Some(RateErrorMessage)
    else if f.currencyFrom == f.currencyTo then Some(SameCurrencyMessage)
    else None
  }

  /** What onSubmit receives. */
  datatype SubmitData = SubmitData(
    currencyFrom: string, currencyTo: string, targetRate: Num,
    condition: string, isActive: bool)

  /** `{...formData, target_rate: parseFloat(formData.target_rate)}`. */
  function SubmitDataOf(f: FormData, parsed: Num): (d: SubmitData)
    ensures d.currencyFrom == f.currencyFrom && d.currencyTo == f.currencyTo
    ensures d.condition == f.condition && d.isActive == f.isActive
    ensures d.targetRate == parsed
  {
    SubmitData(f.currencyFrom, f.currencyTo, parsed, f.condition, f.isActive)
  }

  /**
   * Editing an alert without touching the form submits the alert's own
   * values, provided none of them is falsy (a zero rate or an empty text
   * would be replaced by a default).
   */
  lemma EditUnchangedSubmitsAlert(d: InitialData)
    requires d.currencyFrom != "" && d.currencyTo != "" && d.condition != "" && d.targetRate != 0.0
    requires d.isActive.Some?
    ensures var f := InitialForm(Some(d));
      SubmitDataOf(f, ParseRate(f.targetRate))
        == SubmitData(d.currencyFrom, d.currencyTo, Finite(d.targetRate), d.condition, d.isActive.value)
  {
  }

  /** A form that passes validation submits two different currencies and a positive or unparsable rate. */
  lemma ValidSubmitData(f: FormData)
    requires ValidationError(f, ParseRate(f.targetRate)).None?
    ensures var d := SubmitDataOf(f, ParseRate(f.targetRate));
      d.currencyFrom != d.currencyTo && (d.targetRate.NaN? || d.targetRate.v > 0.0)
  {
  }

  /** How the onSubmit promise settles. */
  datatype SubmitOutcome = Resolved | Rejected(message: string)

  /** `err.message || fallback`. */
  function FailureMessage(message: string): (m: string)
    ensures message != "" ==> m == message
    ensures message == "" ==> m == SubmitFailedMessage
    ensures m != ""
  {
    if message != "" then message else SubmitFailedMessage
  }

  class AlertFormState {
    var formData: FormData
    var loading: bool
    var error: Option<string>

    constructor (init: Option<InitialData>)
      ensures formData == InitialForm(init) && !loading && error.None?
    {
      formData := InitialForm(init);
      loading := false;
      error := None;
    }

    /** handleInputChange: only the named field changes, and the error is cleared. */
    method HandleInputChange(c: FieldChange)
      modifies this
      ensures formData == Apply(old(formData), c)
      ensures error.None? && loading == old(loading)
    {
      formData := Apply(formData, c);
      error := None;
    }

    /**
     * handleSubmit: on a validation error only the error changes and
     * onSubmit is not called (`submitted` is None); otherwise onSubmit gets
     * the parsed form data, a rejection leaves its message (or the fallback)
     * in `error`, and loading ends false.
     */
    method HandleSubmit(outcome: SubmitOutcome) returns (submitted: Option<SubmitData>)
      modifies this
      ensures formData == old(formData)
      ensures var e := ValidationError(formData, ParseRate(formData.targetRate));
        && (e.Some? ==> submitted.None? && error == e && loading == old(loading))
        && (e.None? ==>
              && submitted == Some(SubmitDataOf(formData, ParseRate(formData.targetRate)))
              && !loading
              && error == (if outcome.Rejected? then Some(FailureMessage(outcome.message)) else None))
    {
      var parsed := ParseRate(formData.targetRate);
      var rejection := ValidationError(formData, parsed);
      if rejection.Some? {
        error := rejection;
        return None;
      }
      loading := true;
      error := None;
      submitted := Some(SubmitDataOf(formData, parsed));
      if outcome.Rejected? {
        error := Some(FailureMessage(outcome.message));
      }
      loading := false;
    }
  }
}
