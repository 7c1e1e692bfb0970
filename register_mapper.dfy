/** `mapRegistroToPayload` (src/caracteristicas/autenticacion/mappers/registerMapper.js):
    the registration form becomes the body of the register request, a candidate
    body or a company body according to the form's `tipo`, or a `BAD_REQUEST`
    error for any other `tipo`. */
module RegisterMapper {
  import opened Js

  /** The registration form as the mapper reads it; every field is whatever
      value the caller put there. */
  datatype RegistroInput = RegistroInput(
    tipo: JsValue,
    email: JsValue,
    password: JsValue,
    nombre: JsValue,
    phone: JsValue,
    country: JsValue,
    state: JsValue,
    city: JsValue,
    headline: JsValue,
    description: JsValue,
    address: JsValue,
    company_size_min: JsValue,
    company_size_max: JsValue)

  datatype Contact = Contact(phone: JsValue, email: JsValue)

  datatype CandidateBlock = CandidateBlock(
    full_name: JsValue,
    contact: Contact,
    country: JsValue,
    state: JsValue,
    city: JsValue,
    headline: JsValue)

  datatype CompanyBlock = CompanyBlock(
    name: JsValue,
    description: JsValue,
    country: JsValue,
    state: JsValue,
    city: JsValue,
    address: JsValue,
    company_size_min: JsValue,
    company_size_max: JsValue)

  /** The one profile block a payload carries: `candidate` or `company`. */
  datatype Profile = Candidate(candidate: CandidateBlock) | Company(company: CompanyBlock)

  /** The request body; `kind` is its `type` field. */
  datatype RegisterPayload = RegisterPayload(kind: string, email: JsValue, password: JsValue, profile: Profile)

  /** An `Error` carrying a `code` property. */
  datatype AppError = AppError(message: string, code: string)

  const TipoInvalido: AppError := AppError("Tipo inválido", "BAD_REQUEST")

  /** The `type` field names the block the payload carries. */
  predicate WellTyped(p: RegisterPayload) {
    (p.kind == "candidate" && p.profile.Candidate?) || (p.kind == "company" && p.profile.Company?)
  }

  function MapRegistroToPayload(form: RegistroInput): (r: Result<RegisterPayload, AppError>)
    ensures r.Ok? <==> form.tipo == Str("postulante") || form.tipo == Str("empresa")
    ensures r.Err? ==> r.error == TipoInvalido
    ensures r.Ok? ==> WellTyped(r.value)
    ensures r.Ok? ==> (r.value.kind == "candidate" <==> form.tipo == Str("postulante"))
    ensures r.Ok? ==> r.value.email == form.email && r.value.password == form.password
  {
    if StrictEq(form.tipo, Str("postulante")) then
      Ok(RegisterPayload("candidate", form.email, form.password,
        Candidate(CandidateBlock(form.nombre, Contact(form.phone, form.email),
                                 form.country, form.state, form.city, form.headline))))
    else if StrictEq(form.tipo, Str("empresa")) then
      Ok(RegisterPayload("company", form.email, form.password,
        Company(CompanyBlock(form.nombre, form.description, form.country, form.state, form.city,
                             form.address, ToNumber(form.company_size_min), ToNumber(form.company_size_max)))))
    else Err(TipoInvalido)
  }

  /** The location a payload carries in its profile block. */
  function Location(p: RegisterPayload): (JsValue, JsValue, JsValue) {
    match p.profile
    case Candidate(c) => (c.country, c.state, c.city)
    case Company(c) => (c.country, c.state, c.city)
  }

  /** Both branches copy the credentials and the location unchanged. */
  lemma CredentialsAndLocationCopied(form: RegistroInput)
    requires MapRegistroToPayload(form).Ok?
    ensures var p := MapRegistroToPayload(form).value;
      p.email == form.email && p.password == form.password
      && Location(p) == (form.country, form.state, form.city)
  {
  }

  /** The fields of the form a candidate registration reads. */
  datatype CandidateFields = CandidateFields(
    email: JsValue, password: JsValue, nombre: JsValue, phone: JsValue,
    country: JsValue, state: JsValue, city: JsValue, headline: JsValue)

  function CandidateFieldsOf(form: RegistroInput): CandidateFields {
    CandidateFields(form.email, form.password, form.nombre, form.phone,
                    form.country, form.state, form.city, form.headline)
  }

  /** Reads the candidate fields back out of a candidate payload. */
  function RecoverCandidate(p: RegisterPayload): (r: Option<CandidateFields>)
    ensures r.Some? <==> p.profile.Candidate?
  {
    match p.profile
    case Candidate(c) =>
      Some(CandidateFields(p.email, p.password, c.full_name, c.contact.phone,
                           c.country, c.state, c.city, c.headline))
    case Company(_) => None
  }

  /** A candidate payload loses none of the fields the candidate form holds,
      and its contact email is the account email. */
  lemma CandidateRoundTrip(form: RegistroInput)
    requires form.tipo == Str("postulante")
    ensures MapRegistroToPayload(form).Ok?
    ensures RecoverCandidate(MapRegistroToPayload(form).value) == Some(CandidateFieldsOf(form))
    ensures MapRegistroToPayload(form).value.profile.candidate.contact.email == form.email
  {
  }

  /** The fields of the form a company registration reads, sizes as sent. */
  datatype CompanyFields = CompanyFields(
    email: JsValue, password: JsValue, nombre: JsValue, description: JsValue,
    country: JsValue, state: JsValue, city: JsValue, address: JsValue)

  function CompanyFieldsOf(form: RegistroInput): CompanyFields {
    CompanyFields(form.email, form.password, form.nombre, form.description,
                  form.country, form.state, form.city, form.address)
  }

  function RecoverCompany(p: RegisterPayload): (r: Option<CompanyFields>)
    ensures r.Some? <==> p.profile.Company?
  {
    match p.profile
    case Company(c) =>
      Some(CompanyFields(p.email, p.password, c.name, c.description,
                         c.country, c.state, c.city, c.address))
    case Candidate(_) => None
  }

  /** A company payload keeps the company fields, and each size is the form's
      value converted by `Number`, whatever that value is. */
  lemma CompanyRoundTrip(form: RegistroInput)
    requires form.tipo == Str("empresa")
    ensures MapRegistroToPayload(form).Ok?
    ensures RecoverCompany(MapRegistroToPayload(form).value) == Some(CompanyFieldsOf(form))
    ensures var c := MapRegistroToPayload(form).value.profile.company;
      c.company_size_min == ToNumber(form.company_size_min)
      && c.company_size_max == ToNumber(form.company_size_max)
  {
  }

  /** An integer, or the decimal text of one, converts to that integer. */
  lemma NumberOfIntegerSize(v: JsValue, n: int)
    requires v == Num(n) || v == Str(IntToString(n))
    ensures ToNumber(v) == Num(n)
  {
    if v.Str? {
      NumberOfIntString(n);
    }
  }

  /** An integer size, or the decimal text of one, arrives as that integer. */
  lemma CompanyIntegerSizes(form: RegistroInput, lo: int, hi: int)
    requires form.tipo == Str("empresa")
    requires form.company_size_min == Num(lo) || form.company_size_min == Str(IntToString(lo))
    requires form.company_size_max == Num(hi) || form.company_size_max == Str(IntToString(hi))
    ensures var c := MapRegistroToPayload(form).value.profile.company;
      c.company_size_min == Num(lo) && c.company_size_max == Num(hi)
  {
    CompanyRoundTrip(form);
    NumberOfIntegerSize(form.company_size_min, lo);
    NumberOfIntegerSize(form.company_size_max, hi);
  }

  /** Whatever the form holds, the sizes of a company payload are numbers or NaN. */
  lemma CompanySizesAreNumeric(form: RegistroInput)
    requires form.tipo == Str("empresa")
    ensures var c := MapRegistroToPayload(form).value.profile.company;
      (c.company_size_min.Num? || c.company_size_min.NaN?)
      && (c.company_size_max.Num? || c.company_size_max.NaN?)
  {
  }
}
