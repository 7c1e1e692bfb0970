/** The company registration screen
    (src/caracteristicas/autenticacion/components/CompanyRegister.jsx): the
    company-size brackets, the logo type check, and the submit handler with
    its loading guard, password confirmation and request body. */
module CompanyRegister {
  import opened Js
  import RegisterMapper

  /** One entry of the size select: the text shown and the bracket it sends. */
  datatype SizeOption = SizeOption(caption: string, min: int, max: int)

  const SizeOptions: seq<SizeOption> := [
    SizeOption("1 - 10", 1, 10),
    SizeOption("11 - 50", 11, 50),
    SizeOption("51 - 200", 51, 200),
    SizeOption("201 - 500", 201, 500),
    SizeOption("501 - 1000", 501, 1000),
    SizeOption("1001 - 5000", 1001, 5000)
  ]

  predicate InBracket(i: int, n: int)
    requires 0 <= i < |SizeOptions|
  {
    SizeOptions[i].min <= n <= SizeOptions[i].max
  }

  /** The brackets are non-empty, start at 1, end at 5000, and each starts
      right after the previous one ends. */
  lemma SizeOptionsAreContiguous()
    ensures forall i :: 0 <= i < |SizeOptions| ==> SizeOptions[i].min <= SizeOptions[i].max
    ensures SizeOptions[0].min == 1 && SizeOptions[|SizeOptions| - 1].max == 5000
    ensures forall i :: 0 <= i < |SizeOptions| - 1 ==> SizeOptions[i + 1].min == SizeOptions[i].max + 1
  {
  }

  /** Every size from 1 to 5000 falls in exactly one bracket, and no other
      size falls in any. */
  lemma EverySizeInExactlyOneBracket(n: int)
    ensures (1 <= n <= 5000) <==> exists i :: 0 <= i < |SizeOptions| && InBracket(i, n)
    ensures forall i, j :: 0 <= i < |SizeOptions| && 0 <= j < |SizeOptions| && InBracket(i, n) && InBracket(j, n) ==> i == j
  {
    if 1 <= n <= 5000 {
      var i := if n <= 10 then 0 else if n <= 50 then 1 else if n <= 200 then 2
               else if n <= 500 then 3 else if n <= 1000 then 4 else 5;
      assert InBracket(i, n);
    }
  }

  /** The form; `companySizeIndex` is the position chosen in the size select. */
  datatype CompanyForm = CompanyForm(
    nombre: string,
    email: string,
    password: string,
    confirmarPassword: string,
    country: string,
    state: string,
    city: string,
    description: string,
    address: string,
    companySizeIndex: int)

  const InitialForm: CompanyForm := CompanyForm("", "", "", "", "Mexico", "", "", "", "", 0)

  /** The logo types accepted. */
  predicate AcceptedLogoType(mimeType: string) {
    mimeType == "image/png" || mimeType == "image/jpeg"
  }

  /** The register body for the form and a chosen bracket. */
  function CompanyPayload(f: CompanyForm, size: SizeOption): (r: RegisterMapper.RegisterPayload)
    ensures r.kind == "company" && r.profile.Company?
    ensures r.email == Str(f.email) && r.password == Str(f.password)
    ensures var c := r.profile.company;
      && c.name == Str(f.nombre) && c.description == Str(f.description)
      && c.country == Str(f.country) && c.state == Str(f.state) && c.city == Str(f.city)
      && c.address == Str(f.address)
      && c.company_size_min == Num(size.min) && c.company_size_max == Num(size.max)
  {
    RegisterMapper.RegisterPayload("company", Str(f.email), Str(f.password),
      RegisterMapper.Company(RegisterMapper.CompanyBlock(
        Str(f.nombre), Str(f.description), Str(f.country), Str(f.state), Str(f.city), Str(f.address),
        Num(size.min), Num(size.max))))
  }

  /** The screen sends the same body the registration mapper builds for a
      company form holding the same fields and the bracket's bounds. */
  lemma PayloadAgreesWithMapper(f: CompanyForm, size: SizeOption, tipo: JsValue, phone: JsValue, headline: JsValue)
    requires tipo == Str("empresa")
    ensures var input := RegisterMapper.RegistroInput(
        tipo, Str(f.email), Str(f.password), Str(f.nombre), phone,
        Str(f.country), Str(f.state), Str(f.city), headline, Str(f.description), Str(f.address),
        Num(size.min), Num(size.max));
      RegisterMapper.MapRegistroToPayload(input) == Ok(CompanyPayload(f, size))
  {
  }

  /** The outcome of the register request: a failure, or the body of the
      response. */
  datatype PostOutcome = PostFailed | PostOk(data: JsValue)

  /** `res.data.actor.company_id`; None when one of the reads throws. */
  function CompanyIdOf(data: JsValue): (r: Option<JsValue>)
    ensures r.None? <==> data.Null? || data.Undefined? || Get(data, "actor").Null? || Get(data, "actor").Undefined?
    ensures r.Some? ==> r.value == Get(Get(data, "actor"), "company_id")
  {
    if data.Null? || data.Undefined? then None
    else
      var actor := Get(data, "actor");
      if actor.Null? || actor.Undefined? then None else Some(Get(actor, "company_id"))
  }

  /** The screen's state. */
  class CompanyRegisterScreen {
    var form: CompanyForm
    var loading: bool
    var logoFile: Option<File>
    var previewUrl: Option<string>

    constructor ()
      ensures form == InitialForm && !loading && logoFile == None && previewUrl == None
    {
      form := InitialForm;
      loading := false;
      logoFile := None;
      previewUrl := None;
    }

    /** `handleLogoChange`: a PNG or JPEG file becomes the logo, with its
        object URL (`objectUrl`) as preview; any other file is refused and the
        logo stays as it was. */
    method HandleLogoChange(file: Option<File>, objectUrl: string) returns (refused: bool)
      modifies this
      ensures refused <==> file.Some? && !AcceptedLogoType(file.value.mimeType)
      ensures file.Some? && AcceptedLogoType(file.value.mimeType) ==> logoFile == file && previewUrl == Some(objectUrl)
      ensures !(file.Some? && AcceptedLogoType(file.value.mimeType)) ==> logoFile == old(logoFile) && previewUrl == old(previewUrl)
      ensures form == old(form) && loading == old(loading)
    {
      if file.None? {
        return false;
      }
      if !AcceptedLogoType(file.value.mimeType) {
        return true;
      }
      logoFile := file;
      previewUrl := Some(objectUrl);
      return false;
    }

    /** `enviar`. `outcome` is the result of the register request. Returns
        the body sent, if any, and the company whose logo is then uploaded, if
        any. The handler throws, leaving `loading` set, when the size index is
        outside the table or the response lacks the actor. */
    method Submit(outcome: PostOutcome) returns (sent: Option<RegisterMapper.RegisterPayload>, logoFor: Option<JsValue>)
      modifies this
      ensures old(loading) ==> sent.None? && logoFor.None? && loading
      ensures !old(loading) && form.password != form.confirmarPassword ==> sent.None? && logoFor.None? && !loading
      ensures sent.Some? <==>
        !old(loading) && form.password == form.confirmarPassword && 0 <= form.companySizeIndex < |SizeOptions|
      ensures sent.Some? ==> sent.value == CompanyPayload(form, SizeOptions[form.companySizeIndex])
      ensures sent.Some? && outcome.PostFailed? ==> !loading && logoFor.None?
      ensures sent.Some? && outcome.PostOk? ==>
        if CompanyIdOf(outcome.data).Some?
        then !loading && logoFor == (if logoFile.Some? then CompanyIdOf(outcome.data) else None)
        else loading && logoFor.None?
      ensures sent.None? && !old(loading) && form.password == form.confirmarPassword ==> loading && logoFor.None?
      ensures form == old(form) && logoFile == old(logoFile) && previewUrl == old(previewUrl)
    {
      sent, logoFor := None, None;
      if loading {
        return;
      }
      if form.password != form.confirmarPassword {
        return;
      }
      loading := true;
      if !(0 <= form.companySizeIndex < |SizeOptions|) {
        return;
      }
      var size := SizeOptions[form.companySizeIndex];
      var payload := CompanyPayload(form, size);
      sent := Some(payload);
      if outcome.PostFailed? {
        loading := false;
        return;
      }
      var companyId := CompanyIdOf(outcome.data);
      if companyId.None? {
        return;
      }
      if logoFile.Some? {
        logoFor := companyId;
      }
      loading := false;
    }
  }
}
