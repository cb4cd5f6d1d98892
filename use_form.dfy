/** The controlled-form hook: a values object keyed by input name, updated
    one input at a time by change events, and reset to the initial values. */
module Forms {
  import opened Common

  /** The parts of an input's change event the hook reads from `event.target`. */
  datatype ChangeEvent = ChangeEvent(name: string, value: string, inputType: string, checked: bool)

  /** The value an event stores: the `checked` flag for a checkbox, the
      text `value` for every other input type. */
  function NewValue(e: ChangeEvent): (v: Value)
    ensures v.Flag? <==> e.inputType == "checkbox"
    ensures v.Flag? ==> v.flag == e.checked
    ensures v.Text? ==> v.text == e.value
  {
    if e.inputType == "checkbox" then Flag(e.checked) else Text(e.value)
  }

  /** `{...values, [name]: newValue}`: only key `name` changes. */
  function Changed(values: map<string, Value>, e: ChangeEvent): (r: map<string, Value>)
    ensures r.Keys == values.Keys + {e.name}
    ensures r[e.name] == NewValue(e)
    ensures forall k :: k in values && k != e.name ==> r[k] == values[k]
  {
    values[e.name := NewValue(e)]
  }

  /** The values after a sequence of change events, applied in order. */
  function ApplyAll(values: map<string, Value>, events: seq<ChangeEvent>): map<string, Value> {
    if events == [] then values
    else Changed(ApplyAll(values, events[..|events| - 1]), events[|events| - 1])
  }

  /** The value the last event naming `key` stored, if any event names it. */
  function LastFor(events: seq<ChangeEvent>, key: string): Option<Value> {
    if events == [] then None
    else if events[|events| - 1].name == key then Some(NewValue(events[|events| - 1]))
    else LastFor(events[..|events| - 1], key)
  }

  /** Applying the same change twice gives what applying it once gives. */
  lemma ChangeIdempotent(values: map<string, Value>, e: ChangeEvent)
    ensures Changed(Changed(values, e), e) == Changed(values, e)
  {
  }

  /** Changes to two different inputs commute. */
  lemma ChangesCommute(values: map<string, Value>, e1: ChangeEvent, e2: ChangeEvent)
    requires e1.name != e2.name
    ensures Changed(Changed(values, e1), e2) == Changed(Changed(values, e2), e1)
  {
  }

  /** After any sequence of edits, each key holds what the last event naming
      it stored, and a key no event names keeps its initial value (or stays
      absent). */
  lemma {:induction false} LastWriteWins(values: map<string, Value>, events: seq<ChangeEvent>, key: string)
    ensures LastFor(events, key).Some? ==> Lookup(ApplyAll(values, events), key) == LastFor(events, key)
    ensures LastFor(events, key).None? ==> Lookup(ApplyAll(values, events), key) == Lookup(values, key)
  {
    if events != [] {
      LastWriteWins(values, events[..|events| - 1], key);
    }
  }

  /** No event names `key` exactly when `LastFor` finds nothing for it. */
  lemma {:induction false} LastForNoneIffUnnamed(events: seq<ChangeEvent>, key: string)
    ensures LastFor(events, key).None? <==> forall i | 0 <= i < |events| :: events[i].name != key
  {
    if events != [] {
      var init := events[..|events| - 1];
      LastForNoneIffUnnamed(init, key);
      assert forall i | 0 <= i < |init| :: init[i] == events[i];
    }
  }

  /** The form's `values` state. */
  class FormState {
    const initialValues: map<string, Value>
    var values: map<string, Value>

    constructor (initialValues: map<string, Value>)
      ensures this.initialValues == initialValues
      ensures values == initialValues
    {
      this.initialValues := initialValues;
      values := initialValues;
    }

    method HandleChange(e: ChangeEvent)
      modifies this
      ensures values == Changed(old(values), e)
    {
      values := values[e.name := NewValue(e)];
    }

    /** `resetForm`: back to exactly the initial values, whatever came before. */
    method ResetForm()
      modifies this
      ensures values == initialValues
    {
      values := initialValues;
    }
  }
}
