/** The `formData` object of the form components and the `handleInputChange`
    handler they all share. */
module Forms {
  import opened Wrappers

  /** A form field: text from an input, or a checkbox's `checked`. */
  datatype Field = Str(s: string) | Flag(b: bool)

  /** `formData`: property name to value. */
  type FormData = map<string, Field>

  /** What `handleInputChange` reads from `e.target`. */
  datatype InputEvent = InputEvent(name: string, value: string, inputType: string, checked: bool)

  /** `setFormData(prev => ({ ...prev, [name]: type === 'checkbox' ? checked : value }))`:
      the named property takes the checkbox state or the text, every other property keeps its value. */
  function ApplyInput(form: FormData, e: InputEvent): (r: FormData)
    ensures r.Keys == form.Keys + {e.name}
    ensures r[e.name] == (if e.inputType == "checkbox" then Flag(e.checked) else Str(e.value))
    ensures forall k | k in form && k != e.name :: r[k] == form[k]
  {
    form[e.name := if e.inputType == "checkbox" then Flag(e.checked) else Str(e.value)]
  }

  /** `formData[name]`, undefined when the property is absent. */
  function Get(form: FormData, name: string): Option<Field> {
    if name in form then Some(form[name]) else None
  }

  /** JavaScript truthiness of a property: a non-empty string or `true`. */
  predicate Truthy(f: Option<Field>) {
    match f
    case None => false
    case Some(Str(s)) => s != ""
    case Some(Flag(b)) => b
  }

  /** `String(formData[name])`, as a template literal renders it. */
  function TextOf(f: Option<Field>): string {
    match f
    case None => "undefined"
    case Some(Str(s)) => s
    case Some(Flag(b)) => if b then "true" else "false"
  }

  /** Every listed property is present and holds text. */
  ghost predicate TextFields(form: FormData, names: set<string>) {
    forall n | n in names :: n in form && form[n].Str?
  }

  /** The text fields stay text under any event that is not from a checkbox. */
  lemma TextFieldsKept(form: FormData, names: set<string>, e: InputEvent)
    requires TextFields(form, names)
    requires e.inputType != "checkbox"
    ensures TextFields(ApplyInput(form, e), names)
  {
  }
}
