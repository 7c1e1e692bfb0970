/** The company edit screen (src/app/components/EditarEmpresa.js): the form
    loaded from the company record, the field-update rule with its location
    cascade, the logo preview and the logo shown. */
module EditarEmpresa {
  import opened Js

  /** The form: field name to value. */
  type Form = map<string, JsValue>

  /** The fields loaded from the company record. */
  const LoadedFields: seq<string> :=
    ["name", "description", "country", "state", "city", "company_size_min", "company_size_max", "logo_full_path"]

  /** Every field of the form: the loaded ones and the logo preview. */
  const FormFields: set<string> := set k | k in LoadedFields + ["logo_preview"]

  /** The form before the record arrives: every field "". */
  function InitialForm(): (r: Form)
    ensures r.Keys == FormFields
    ensures forall k :: k in r ==> r[k] == Str("")
  {
    map k | k in FormFields :: Str("")
  }

  /** `form.key`: the field's value, `undefined` when the form has no such field. */
  function Field(form: Form, key: string): JsValue {
    if key in form then form[key] else Undefined
  }

  /** The field that changes `key` clears, if any. */
  predicate ClearedBy(name: string, key: string) {
    (name == "country" && (key == "state" || key == "city"))
    || (name == "state" && key == "city")
  }

  /** `handleChange`: the named field takes the new value; a new country
      clears the state and the city, a new state clears the city; every other
      field keeps its value. */
  function HandleChange(form: Form, name: string, value: JsValue): (r: Form)
    ensures r.Keys == form.Keys + {name} + (set k | k in {"state", "city"} && ClearedBy(name, k))
    ensures r[name] == value
    ensures forall k :: k in r && ClearedBy(name, k) ==> r[k] == Str("")
    ensures forall k :: k in form && k != name && !ClearedBy(name, k) ==> r[k] == form[k]
  {
    var set1 := form[name := value];
    if name == "country" then set1["state" := Str("")]["city" := Str("")]
    else if name == "state" then set1["city" := Str("")]
    else set1
  }

  /** Entering the same value twice is the same as entering it once. */
  lemma HandleChangeIdempotent(form: Form, name: string, value: JsValue)
    ensures HandleChange(HandleChange(form, name, value), name, value) == HandleChange(form, name, value)
  {
  }

  /** Order matters for the location fields: a state chosen after the country
      stays, a country chosen after the state clears it. */
  lemma CascadeOrder(form: Form, country: JsValue, state: JsValue)
    ensures HandleChange(HandleChange(form, "country", country), "state", state)["state"] == state
    ensures HandleChange(HandleChange(form, "state", state), "country", country)["state"] == Str("")
    ensures HandleChange(HandleChange(form, "state", state), "country", country)["city"] == Str("")
  {
  }

  /** The form built from the company record `data`; None when reading a
      field of `data` throws (the record is `null` or `undefined`), in which
      case the form is not replaced. */
  function FormFromResponse(data: JsValue): (r: Option<Form>)
    ensures r.Some? <==> !data.Null? && !data.Undefined?
    ensures r.Some? ==> r.value.Keys == FormFields
    ensures r.Some? ==> forall k :: k in LoadedFields ==>
      r.value[k] == if Truthy(Get(data, k)) then Get(data, k) else Str("")
    ensures r.Some? ==> r.value["logo_preview"] == Str("")
  {
    if data.Null? || data.Undefined? then None
    else
      Some(map k | k in FormFields :: if k == "logo_preview" then Str("") else LoadedValue(data, k))
  }

  /** `data.k || ""` */
  function LoadedValue(data: JsValue, k: string): (v: JsValue)
    ensures v == if Truthy(Get(data, k)) then Get(data, k) else Str("")
  {
    OrChain([Get(data, k), Str("")])
  }

  /** A loaded form holds no missing value: every field is a truthy value
      from the record or "". */
  lemma LoadedFormHasNoMissingField(data: JsValue)
    requires FormFromResponse(data).Some?
    ensures var form := FormFromResponse(data).value;
      forall k :: k in form ==> Truthy(form[k]) || form[k] == Str("")
  {
    var form := FormFromResponse(data).value;
    forall k | k in form
      ensures Truthy(form[k]) || form[k] == Str("")
    {
      assert k in LoadedFields || k == "logo_preview";
    }
  }

  const PlaceholderLogo: string := "/placeholder-logo.png"

  /** The logo shown: the chosen file's preview, else the stored logo, else
      the placeholder. */
  function LogoSrc(form: Form): (r: JsValue)
    ensures PicksFirstTruthy(LogoCandidates(form), Str(PlaceholderLogo), r)
  {
    OrChainPicksFirstTruthy(LogoCandidates(form), Str(PlaceholderLogo));
    OrChain(LogoCandidates(form) + [Str(PlaceholderLogo)])
  }

  function LogoCandidates(form: Form): seq<JsValue> {
    [Field(form, "logo_preview"), Field(form, "logo_full_path")]
  }

  /** The logo always has a source. */
  lemma LogoSrcIsTruthy(form: Form)
    ensures Truthy(LogoSrc(form))
  {
    var r := LogoSrc(form);
    var cs := LogoCandidates(form);
    if Truthy(cs[0]) {
      assert r == cs[0];
    } else if Truthy(cs[1]) {
      assert r == cs[1];
    } else {
      assert r == Str(PlaceholderLogo);
    }
  }

  /** The screen's state. */
  class EditarEmpresaScreen {
    var form: Form
    var logoFile: Option<File>
    var loading: bool

    constructor ()
      ensures form == InitialForm() && logoFile == None && loading
    {
      form := InitialForm();
      logoFile := None;
      loading := true;
    }

    /** The company record arrives. */
    method Load(data: JsValue)
      modifies this
      ensures FormFromResponse(data).Some? ==> form == FormFromResponse(data).value && !loading
      ensures FormFromResponse(data).None? ==> form == old(form) && loading == old(loading)
      ensures logoFile == old(logoFile)
    {
      var loaded := FormFromResponse(data);
      if loaded.Some? {
        form := loaded.value;
        loading := false;
      }
    }

    /** An input changes. */
    method Change(name: string, value: JsValue)
      modifies this
      ensures form == HandleChange(old(form), name, value)
      ensures logoFile == old(logoFile) && loading == old(loading)
    {
      form := HandleChange(form, name, value);
    }

    /** `handleLogoChange`: a chosen file becomes the logo file and its object
        URL (`objectUrl`) the preview; choosing nothing changes nothing. */
    method HandleLogoChange(file: Option<File>, objectUrl: string)
      modifies this
      ensures file.None? ==> form == old(form) && logoFile == old(logoFile)
      ensures file.Some? ==> logoFile == file && form == old(form)["logo_preview" := Str(objectUrl)]
      ensures loading == old(loading)
    {
      if file.None? {
        return;
      }
      logoFile := file;
      form := form["logo_preview" := Str(objectUrl)];
    }
  }
}
