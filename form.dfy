/** The generic form engine of src/hooks/useForm.ts: four state cells
    (`values`, `errors`, `touched`, `isSubmitting`) and the callbacks that
    update them. Field names are flat keys: `passengerInfo[0].firstName` is one
    key, not a path. */
module Form {
  import opened Wrappers

  /** A field value: input text, a checkbox flag, a number, or the ISO text of
      an instant (what date pickers store). */
  datatype Value = Text(s: string) | Flag(b: bool) | Number(n: int) | Date(instant: int) {
    /** JavaScript truthiness of the stored value. */
    predicate Truthy() {
      match this
      case Text(s) => s != ""
      case Flag(b) => b
      case Number(n) => n != 0
      case Date(_) => true
    }
  }

  type Values = map<string, Value>
  type Errors = map<string, string>

  /** The touched record built on submit: every key of `values`, set to true. */
  method TouchAll(values: Values) returns (touched: map<string, bool>)
    ensures touched.Keys == values.Keys
    ensures forall k :: k in touched ==> touched[k]
  {
    touched := map[];
    var pending := values.Keys;
    while pending != {}
      invariant pending <= values.Keys
      invariant touched.Keys == values.Keys - pending
      invariant forall k :: k in touched ==> touched[k]
      decreases pending
    {
      var k :| k in pending;
      touched := touched[k := true];
      pending := pending - {k};
    }
  }

  /** The value the change handler stores for an input event. */
  function ChangedValue(value: string, isCheckbox: bool, checked: bool): Value {
    if isCheckbox then Flag(checked) else Text(value)
  }

  class FormEngine {
    const initialValues: Values
    const validate: Option<Values -> Errors>
    var values: Values
    var errors: Errors
    var touched: map<string, bool>
    var isSubmitting: bool

    constructor (initialValues: Values, validate: Option<Values -> Errors>)
      ensures this.initialValues == initialValues && this.validate == validate
      ensures values == initialValues && errors == map[] && touched == map[] && !isSubmitting
    {
      this.initialValues := initialValues;
      this.validate := validate;
      values := initialValues;
      errors := map[];
      touched := map[];
      isSubmitting := false;
    }

    /** `handleChange`: the checkbox's `checked` flag for checkboxes, the text otherwise. */
    method HandleChange(name: string, value: string, isCheckbox: bool, checked: bool)
      modifies this
      ensures values == old(values)[name := ChangedValue(value, isCheckbox, checked)]
      ensures errors == old(errors) && touched == old(touched) && isSubmitting == old(isSubmitting)
    {
      values := values[name := ChangedValue(value, isCheckbox, checked)];
    }

    /** `handleBlur`: marks the field, then replaces all errors by a fresh validation. */
    method HandleBlur(name: string)
      modifies this
      ensures touched == old(touched)[name := true]
      ensures errors == if validate.Some? then validate.value(old(values)) else old(errors)
      ensures values == old(values) && isSubmitting == old(isSubmitting)
    {
      touched := touched[name := true];
      if validate.Some? {
        errors := validate.value(values);
      }
    }

    method SetFieldValue(name: string, value: Value)
      modifies this
      ensures values == old(values)[name := value]
      ensures errors == old(errors) && touched == old(touched) && isSubmitting == old(isSubmitting)
    {
      values := values[name := value];
    }

    method SetFieldError(name: string, error: string)
      modifies this
      ensures errors == old(errors)[name := error]
      ensures values == old(values) && touched == old(touched) && isSubmitting == old(isSubmitting)
    {
      errors := errors[name := error];
    }

    method ClearErrors()
      modifies this
      ensures errors == map[]
      ensures values == old(values) && touched == old(touched) && isSubmitting == old(isSubmitting)
    {
      errors := map[];
    }

    method ResetForm()
      modifies this
      ensures values == initialValues && errors == map[] && touched == map[] && !isSubmitting
    {
      values := initialValues;
      errors := map[];
      touched := map[];
      isSubmitting := false;
    }

    /** The first half of `handleSubmit`, up to the call of `onSubmit`: validate,
        touch every field, and either stop on errors or raise the flag. `submitted`
        is the argument `onSubmit` is then called with; the caller runs it while
        `isSubmitting` is true and then calls `EndSubmit`. */
    method BeginSubmit() returns (submitted: Option<Values>)
      modifies this
      ensures values == old(values)
      ensures validate.Some? ==> errors == validate.value(old(values))
      ensures validate.Some? ==> touched.Keys == old(values).Keys && forall k :: k in touched ==> touched[k]
      ensures validate.None? ==> errors == old(errors) && touched == old(touched)
      ensures var blocked := validate.Some? && validate.value(old(values)) != map[];
        && (blocked ==> submitted.None? && isSubmitting == old(isSubmitting))
        && (!blocked ==> submitted == Some(old(values)) && isSubmitting)
    {
      submitted := None;
      if validate.Some? {
        var validationErrors := validate.value(values);
        errors := validationErrors;
        touched := TouchAll(values);
        if validationErrors != map[] {
          return;
        }
      }
      isSubmitting := true;
      submitted := Some(values);
    }

    /** The `finally` of `handleSubmit`: a failure of `onSubmit` is caught and
        logged, and the flag is lowered either way. */
    method EndSubmit()
      modifies this
      ensures !isSubmitting
      ensures values == old(values) && errors == old(errors) && touched == old(touched)
    {
      isSubmitting := false;
    }

    /** `handleSubmit` as a whole, with `onSubmit` run by the caller between the
        two halves; `submitted` is what it is called with, if it is called. */
    method HandleSubmit() returns (submitted: Option<Values>)
      modifies this
      ensures values == old(values)
      ensures validate.Some? ==> errors == validate.value(old(values))
      ensures validate.Some? ==> touched.Keys == old(values).Keys && forall k :: k in touched ==> touched[k]
      ensures validate.None? ==> errors == old(errors) && touched == old(touched)
      ensures var blocked := validate.Some? && validate.value(old(values)) != map[];
        && (blocked ==> submitted.None? && isSubmitting == old(isSubmitting))
        && (!blocked ==> submitted == Some(old(values)) && !isSubmitting)
    {
      submitted := BeginSubmit();
      if submitted.Some? {
        EndSubmit();
      }
    }
  }

  /** Resetting twice leaves the form as resetting once did: the reset state is
      absolute, the initial values with nothing touched, no errors and the flag
      down, whatever the form held before either call. */
  method ResetTwice(form: FormEngine)
    modifies form
    ensures form.values == form.initialValues && form.errors == map[] && form.touched == map[]
    ensures !form.isSubmitting
  {
    form.ResetForm();
    ghost var once := (form.values, form.errors, form.touched, form.isSubmitting);
    form.ResetForm();
    assert (form.values, form.errors, form.touched, form.isSubmitting) == once;
  }

  /** A second blur of a field never unsets it, nor any other touched flag. */
  method BlurTwice(form: FormEngine, name: string)
    modifies form
    ensures form.touched.Keys == old(form.touched).Keys + {name} && form.touched[name]
    ensures forall k :: k in old(form.touched) && k != name ==> form.touched[k] == old(form.touched)[k]
  {
    form.HandleBlur(name);
    form.HandleBlur(name);
  }
}
