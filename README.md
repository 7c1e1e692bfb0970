# Job-board front end: verified model of its form and list logic

This project is a Dafny model of the rules inside a React job-board front end. The front end lets candidates and companies register and edit a company profile. It also lets them publish vacancies, browse and save jobs, and sign in. The rules live in nine source files; each file becomes one module here:

- **`Js`** (`js.dfy`): the JavaScript values and built-ins those rules depend on.
  - A `JsValue` datatype, truthiness, optional property access, strict equality and `a || b || c` chains.
  - `trim` with ECMAScript's whitespace set, `Number(...)` and `String(...)` on integers, `join`, and case mapping.
- **`VacanteCard`** (`vacante_card.dfy`): the job card's helpers.
  - List normalisation, joining the non-empty parts of a location, and truncation with an ellipsis.
  - The work-mode, work-type and pay-period label tables, the salary phrasing, and the company name/logo/id fallbacks.
- **`Registro`** (`registro.dfy`): the registration validator.
  - It reports the first failing check, in a fixed order.
  - It includes the RFC (Mexican tax id) pattern, the corporate-email domain blocklist and the upper-casing of the RFC as it is typed.
- **`Vacantes`** (`vacantes.dfy`): the vacancy-publishing screen.
  - A screen class holds the form. It has the required-field gate and the country → state → city cascade of the selects.
  - It also covers the regular-expression salary-range parser, the posted payload and the reset after a successful post.
- **`RegisterMapper`** (`register_mapper.dfy`): the mapping from the registration form to a candidate body, a company body, or a `BAD_REQUEST` error.
- **`Api`** (`api.dfy`): the `URLSearchParams` built by `getJobs`, appended entry by entry, and the fallback values of `getJobs` and `getCompanies`.
- **`AuthSlice`** (`auth_slice.dfy`): the authentication reducer over `{usuario, cargando, error}`.
  - It is a pure transition function. A store class assigns the same fields in place.
  - Lemmas describe the state after any sequence of actions.
- **`MisFavoritos`** (`mis_favoritos.dfy`): the favourites screen.
  - The pager, the salary line and removal by job id with a decrement of the total.
  - How a page response, with its companies resolved, becomes the list.
- **`EditarEmpresa`** (`editar_empresa.dfy`): the company edit form.
  - The field-update rule with its location cascade and the form built from the company record.
  - The logo preview and the logo shown.
- **`CompanyRegister`** (`company_register.dfy`): the company-registration screen.
  - The size brackets, the PNG/JPEG logo check, the loading guard, the password-confirmation gate and the request body.

Network requests, storage, `Intl` formatting and `URL.createObjectURL` are parameters of the operations that use them. Examples: the outcome of a POST, a company lookup, the `toLocaleString` formatter, an object URL.

## Model

| member | source | states |
|---|---|---|
| Js.OrChainPicksFirstTruthy | src/app/components/VacanteCard.js:84-106 | A chain `c0 \|\| … \|\| fallback` yields the first truthy candidate, or the fallback when no candidate is truthy |
| Js.TrimEmptyIffBlank | src/app/components/VacanteCard.js:10-12 | `s.trim()` is empty exactly when every character of `s` is ECMAScript whitespace |
| Js.DigitsValueOfNatToString | src/app/components/Vacantes.js:97-98 | Reading back the decimal text of a natural number gives the number |
| Js.NumberOfIntString | src/caracteristicas/autenticacion/mappers/registerMapper.js:35-36 | `Number(String(n)) == n` for every integer |
| VacanteCard.NormalizeList | src/app/components/VacanteCard.js:4-8 | The payload if it is an array; otherwise its `data` if that is an array; otherwise the empty list |
| VacanteCard.KeptParts | src/app/components/VacanteCard.js:10-12 | It keeps exactly the string parts whose trimmed text is non-empty, and no others |
| VacanteCard.KeptPartsOfConcat | src/app/components/VacanteCard.js:10-12 | Filtering distributes over concatenation, so kept parts stay in their original order |
| VacanteCard.JoinNonEmpty | src/app/components/VacanteCard.js:10-12 | `joinNonEmpty(parts, sep)`: the kept parts joined by `sep`. Its contract is carried by KeptParts, KeptPartsOfConcat and JoinNonEmptyIsEmptyIff |
| VacanteCard.JoinNonEmptyIsEmptyIff | src/app/components/VacanteCard.js:10-12 | The joined location is "" exactly when no part survives the filter |
| VacanteCard.KeptPartsOfSingleton | src/app/components/VacanteCard.js:10-12 | A single part is kept as its string when its trimmed text is non-empty, and dropped otherwise |
| VacanteCard.TrimEndOfPrefix | src/app/components/VacanteCard.js:18 | `t.slice(0, n).trimEnd()` is a prefix of `t` that does not end in whitespace, followed only by whitespace up to position `n` |
| VacanteCard.Truncate | src/app/components/VacanteCard.js:14-19 | A non-string gives "". A short text is returned trimmed. A long one becomes the prefix `t[..k]` of the trimmed text plus one ellipsis. Here `k <= max`, `t[k-1]` is not whitespace, and every character from `k` up to `max` is whitespace, so the cut is `t.slice(0, max).trimEnd()`. The length is at most `max`+1 |
| VacanteCard.TruncateDefault | src/app/components/VacanteCard.js:14-19 | With the default limit of 160, the result is at most 161 characters long. A text that trims to at most 160 characters comes back trimmed |
| VacanteCard.FormatModalidad | src/app/components/VacanteCard.js:21-27 | Falsy input gives no chip. Known codes get their fixed label and class. Other codes get `_` replaced by spaces and an empty class |
| VacanteCard.FormatWorkType | src/app/components/VacanteCard.js:29-39 | Table label for known codes. Any other code keeps its length, and each `_` becomes a space while every other character stays; "" exactly for a falsy or empty code |
| VacanteCard.FormatPayPeriod | src/app/components/VacanteCard.js:41-52 | Table label for known codes. Any other code keeps its length and each character is lower-cased, so no A–Z remains; "" exactly for a falsy or empty code |
| VacanteCard.FormatSalario | src/app/components/VacanteCard.js:68-82 | Four cases: none, both (`min - max`), only min (`min+`), only max (`Hasta max`). The result is "" exactly when neither bound is present |
| VacanteCard.SalarioEndsWithPeriod | src/app/components/VacanteCard.js:73-81 | A non-empty salary ends with ` / period` whenever the formatted period is non-empty |
| VacanteCard.GetCompanyName | src/app/components/VacanteCard.js:84-86 | The first truthy of the override's name, the nested company's name and the flat field; "" otherwise |
| VacanteCard.GetCompanyLogo | src/app/components/VacanteCard.js:88-97 | The first truthy of the five logo candidates in priority order; "" otherwise |
| VacanteCard.GetCompanyId | src/app/components/VacanteCard.js:99-106 | The first truthy of the three id candidates; `null` otherwise |
| VacanteCard.CompanyIdPriority | src/app/components/VacanteCard.js:99-106 | The id is truthy or `null`, and a truthy override id always wins |
| Registro.IndexOf | src/app/components/Registro.js:30 | The first position of the character, or none exactly when it does not occur |
| Registro.EmailDomain | src/app/components/Registro.js:30 | No domain exactly when there is no `@`. Otherwise, the text between the first `@` and the next `@` or the end |
| Registro.SplitIsUnique | src/app/components/Registro.js:30 | Any split of the email at its first `@` gives that same domain |
| Registro.ValidarCorreoCorporativo | src/app/components/Registro.js:29-32 | The domain after the first `@` is non-empty and not blocked. The cases are stated by CorreoCorporativoCases |
| Registro.CorreoCorporativoCases | src/app/components/Registro.js:24-32 | A corporate email is one whose domain is non-empty and not one of the seven blocked domains. An email without `@` fails |
| Registro.LeadingLetters | src/app/components/Registro.js:34-37 | The maximal run of RFC letters (A–Z, Ñ, &) at the start |
| Registro.ValidarRFC | src/app/components/Registro.js:34-37 | The RFC check. ValidarRFCMatchesPattern states it as an iff with the anchored pattern, and ValidRfcLength gives its lengths |
| Registro.ValidarRFCMatchesPattern | src/app/components/Registro.js:34-37 | The RFC check accepts exactly 3 or 4 letters, then 6 digits, then 3 characters from A–Z or 0–9, over the whole string |
| Registro.ValidRfcLength | src/app/components/Registro.js:34-37 | An accepted RFC has length 12 or 13 |
| Registro.SetRfc | src/app/components/Registro.js:136-138 | The typed RFC is stored upper-cased, character by character: each character becomes its upper-case form. So no lower-case letter remains and RFC letters are kept. No other field changes |
| Registro.MessagesIdentifyFailures | src/app/components/Registro.js:39-70 | Every failure message is non-empty, so `if (error)` in `enviar` reports it, and no two checks share a message |
| Registro.InitialFormRejected | src/app/components/Registro.js:8-20 | The blank starting form is a candidate form, and it is refused with "El nombre es obligatorio" |
| Registro.ValidarFormulario | src/app/components/Registro.js:39-70 | The validator. ValidarFormularioIsFirstFailure states it as the first failing check in source order, or none |
| Registro.ValidarFormularioIsFirstFailure | src/app/components/Registro.js:39-70 | It returns no message exactly when no check fails. It returns a check exactly when that check fails and every earlier check passes |
| Registro.ShortPasswordBeforeMismatch | src/app/components/Registro.js:43-47 | A password shorter than 6 is reported before any confirmation mismatch |
| Registro.CompanyChecksOnlyForEmpresa | src/app/components/Registro.js:50-67 | A candidate needs a CV. The company checks apply only to `empresa` |
| Vacantes.StripCommas | src/app/components/Vacantes.js:95 | No comma remains, and a comma-free text is unchanged |
| Vacantes.StripCommasOfChar | src/app/components/Vacantes.js:95 | A comma is dropped; any other character is kept |
| Vacantes.StripCommasOfConcat | src/app/components/Vacantes.js:95 | The strip distributes over concatenation, so every non-comma character survives, in order |
| Vacantes.MatchAt | src/app/components/Vacantes.js:95 | A greedy match of `(\d+)\s*-\s*(\d+)` starting at the position, or a proof that none starts there |
| Vacantes.MatchAtComplete | src/app/components/Vacantes.js:95 | Every match at a position has the groups the greedy runs find |
| Vacantes.Search | src/app/components/Vacantes.js:95 | The leftmost match at or after the position; none exactly when no position has a match |
| Vacantes.ParseSalaryRange | src/app/components/Vacantes.js:92-99 | Both bounds are absent exactly when the comma-stripped text has no match. Otherwise they are the numbers of the two groups of the leftmost match |
| Vacantes.ParseSalaryRangeKeepsOrder | src/app/components/Vacantes.js:95-99 | The bounds are taken as written: "9-1" gives min 9 and max 1 |
| Vacantes.BuildJobPayload | src/app/components/Vacantes.js:101-117 | Fields are copied verbatim, with `MONTHLY`, `MXN` and company 1. Both salary bounds or neither, as parsed |
| Vacantes.VacantesScreen.constructor | src/app/components/Vacantes.js:12-21 | Every field starts as "" |
| Vacantes.VacantesScreen.Edit | src/app/components/Vacantes.js:166-200 | A text input or type select changes its own field only |
| Vacantes.VacantesScreen.SelectCountry | src/app/components/Vacantes.js:213-220 | Choosing a country clears state and city; nothing else changes |
| Vacantes.VacantesScreen.SelectState | src/app/components/Vacantes.js:233-235 | Choosing a state clears the city; nothing else changes |
| Vacantes.VacantesScreen.SelectCity | src/app/components/Vacantes.js:248 | Choosing a city changes only the city |
| Vacantes.MissingRequired | src/app/components/Vacantes.js:80-90 | Any of the seven required fields is empty. VacantesScreen.Publish sends nothing exactly when it holds |
| Vacantes.VacantesScreen.Publish | src/app/components/Vacantes.js:79-142 | Nothing is sent exactly when a required field is empty. What is sent is the payload. Only a successful post resets the form |
| RegisterMapper.MapRegistroToPayload | src/caracteristicas/autenticacion/mappers/registerMapper.js:1-44 | `postulante` → a candidate body; `empresa` → a company body; any other `tipo` → a `BAD_REQUEST` error. The type names the block carried. Email and password are copied |
| RegisterMapper.CredentialsAndLocationCopied | src/caracteristicas/autenticacion/mappers/registerMapper.js:6-7 | Both branches copy email, password and the country/state/city unchanged |
| RegisterMapper.RecoverCandidate | src/caracteristicas/autenticacion/mappers/registerMapper.js:3-20 | The candidate fields can be read back exactly when the body is a candidate body |
| RegisterMapper.CandidateRoundTrip | src/caracteristicas/autenticacion/mappers/registerMapper.js:3-20 | A candidate body gives back every candidate field of the form, and its contact email is the account email |
| RegisterMapper.RecoverCompany | src/caracteristicas/autenticacion/mappers/registerMapper.js:23-39 | The company fields can be read back exactly when the body is a company body |
| RegisterMapper.CompanyRoundTrip | src/caracteristicas/autenticacion/mappers/registerMapper.js:23-39 | For every `empresa` form, the company body gives back every company field, and each size is `Number` of the form's size |
| RegisterMapper.CompanyIntegerSizes | src/caracteristicas/autenticacion/mappers/registerMapper.js:35-36 | A size given as an integer or its decimal text arrives as that integer |
| RegisterMapper.CompanySizesAreNumeric | src/caracteristicas/autenticacion/mappers/registerMapper.js:35-36 | The company sizes are always numbers or NaN |
| Api.SearchParams.Append | src/app/services/api.js:24-36 | `append` adds an entry at the end and never replaces one |
| Api.JobsQueryOf | src/app/services/api.js:15-36 | The request `getJobs` makes, or none for a `null` filter. BuildJobsQuery returns it, and JobsQueryShapes states its two fixed shapes |
| Api.BuildJobsQuery | src/app/services/api.js:15-38 | The request `getJobs` makes. A string filter is used verbatim. A null filter throws (falls back). Any other filter gives the query entries |
| Api.BuildParams | src/app/services/api.js:24-36 | The successive appends on a fresh `URLSearchParams` give exactly the query entries of the filter |
| Api.AppendOptional | src/app/services/api.js:26-27 | A truthy filter value adds one entry with its text at the end. A falsy one adds nothing |
| Api.AppendLocationTypes | src/app/services/api.js:30-32 | One `work_location_type` entry is added per enabled flag, in the order REMOTE, ONSITE, HYBRID |
| Api.ValuesOfConcat | src/app/services/api.js:24-36 | A key's values in concatenated entries are its values in each part, in order |
| Api.QueryEntries | src/app/services/api.js:24-36 | The query entries for a filter object. Their values are stated by QueryEntriesValues and their order by QueryEntriesOrder; BuildParams appends exactly these |
| Api.QueryEntriesValues | src/app/services/api.js:26-36 | `q` and `city` occur once each exactly when truthy. One `work_location_type` per enabled flag, in the order REMOTE, ONSITE, HYBRID. `limit` and `page` occur once each. No other key occurs |
| Api.QueryEntriesOrder | src/app/services/api.js:26-36 | `q` comes first and `city` next when present. `limit` and `page` are the last two entries and default to 20 and 1 |
| Api.JobsQueryShapes | src/app/services/api.js:15-21 | A string filter is requested verbatim with no parameters. An absent filter asks for `limit=20&page=1` |
| Api.GetJobs | src/app/services/api.js:15-44 | The response body, or `{data: [], docs: []}` when the filter is null or the request fails |
| Api.CompaniesLimit | src/app/services/api.js:4-6 | The default limit 20 applies only to an absent argument |
| Api.GetCompanies | src/app/services/api.js:4-12 | The response body, or `{data: []}` when the request fails |
| Api.FallbacksAreEmptyLists | src/app/services/api.js:10 | Both fallbacks normalise to the empty list |
| Api.FailedJobsListIsEmpty | src/app/services/api.js:40-43 | A failed jobs request leaves the caller with an empty list |
| AuthSlice.InitialState | src/caracteristicas/autenticacion/authSlice.js:4-10 | `usuario` is the stored user when truthy, else `null`. Not loading, no error |
| AuthSlice.Reduce | src/caracteristicas/autenticacion/authSlice.js:36-67 | Each field changes only under its own actions. Pending sets loading. Fulfilled sets the user and clears loading. Rejected sets the error and clears loading. Logout nulls the user only |
| AuthSlice.RunSnoc | src/caracteristicas/autenticacion/authSlice.js:36-67 | Running a trace and one more action is one more transition |
| AuthSlice.Run | src/caracteristicas/autenticacion/authSlice.js:36-67 | The state after dispatching a trace in order. RunSnoc and RunSummary state it, and AuthStore.Dispatch follows it one step at a time |
| AuthSlice.RunSummary | src/caracteristicas/autenticacion/authSlice.js:36-67 | After any trace, the user is the last fulfilled payload, or `null` after a later logout. Loading holds exactly when the last request stage was pending. The error is the last rejection's payload |
| AuthSlice.ThunkIsIrrelevant | src/caracteristicas/autenticacion/authSlice.js:44-67 | Login and registro actions have the same transition |
| AuthSlice.ThunkIsIrrelevantForTraces | src/caracteristicas/autenticacion/authSlice.js:44-67 | Relabelling every request in a trace changes no state |
| AuthSlice.StaleErrorSurvivesLogin | src/caracteristicas/autenticacion/authSlice.js:48-55 | A rejection followed by a successful login leaves the earlier error in place |
| AuthSlice.AuthStore.constructor | src/caracteristicas/autenticacion/authSlice.js:6-10 | The store starts in the initial state |
| AuthSlice.AuthStore.Dispatch | src/caracteristicas/autenticacion/authSlice.js:36-67 | The in-place field assignments produce the transition's state |
| MisFavoritos.Decrement | src/app/components/MisFavoritos.js:99 | `t - 1` on the numeric value of `t`, NaN otherwise |
| MisFavoritos.CanPrev | src/app/components/MisFavoritos.js:28 | `page > 1`. FavoritesScreen.PrevPage steps back exactly when it holds |
| MisFavoritos.CanNext | src/app/components/MisFavoritos.js:25-29 | `page * limit < total` with `Number` conversion. CanNextWithNumericTotal states it for numeric totals, and FavoritesScreen.NextPage steps forward exactly when it holds |
| MisFavoritos.CanNextWithNumericTotal | src/app/components/MisFavoritos.js:25-29 | With a numeric total, next is enabled exactly when `page * 20 < total` |
| MisFavoritos.GetSalary | src/app/components/MisFavoritos.js:76-81 | A range line exactly when both bounds are truthy, `null` otherwise |
| MisFavoritos.ZeroMinimumHasNoSalary | src/app/components/MisFavoritos.js:77 | A zero minimum counts as missing |
| MisFavoritos.RemoveById | src/app/components/MisFavoritos.js:98 | It keeps exactly the favourites whose job id differs from the removed one |
| MisFavoritos.RemoveByIdOfConcat | src/app/components/MisFavoritos.js:98 | Removal distributes over concatenation, so kept favourites stay in order |
| MisFavoritos.RemoveByIdLength | src/app/components/MisFavoritos.js:98 | Removal drops exactly as many favourites as have the id |
| MisFavoritos.RemoveAbsentId | src/app/components/MisFavoritos.js:98 | Removing an id no favourite has changes nothing |
| MisFavoritos.RemoveOneKeepsCount | src/app/components/MisFavoritos.js:98-99 | When exactly one listed favourite has the id, the list and the total both drop by one |
| MisFavoritos.WithCompany | src/app/components/MisFavoritos.js:50-56 | `{...item, company}` sets `company` and keeps every other field of the item. Its keys are exactly the item's keys plus `company` (only `company` for a non-object item) |
| MisFavoritos.Enrich | src/app/components/MisFavoritos.js:48-58 | A `null` or `undefined` item throws. Otherwise the company is the lookup's result, or `null` when the job has no company id or the lookup fails |
| MisFavoritos.CompanyNullWhenUnresolved | src/app/components/MisFavoritos.js:50-56 | A favourite with no company id, or whose lookup fails, gets `company: null` |
| MisFavoritos.EnrichAll | src/app/components/MisFavoritos.js:47-59 | Every item enriched in place, or nothing when any item throws |
| MisFavoritos.ResponseDefaults | src/app/components/MisFavoritos.js:44-62 | Missing items read as the empty list and a missing total as 0 |
| MisFavoritos.FavoritesScreen.constructor | src/app/components/MisFavoritos.js:19-26 | Page 1, empty list, total 0, nothing being removed, loading |
| MisFavoritos.FavoritesScreen.PrevPage | src/app/components/MisFavoritos.js:273-274 | One page back exactly when `page > 1`. Pages stay ≥ 1. Nothing else changes |
| MisFavoritos.FavoritesScreen.NextPage | src/app/components/MisFavoritos.js:288-289 | One page forward exactly when next is enabled. Nothing else changes |
| MisFavoritos.FavoritesScreen.HandleRemove | src/app/components/MisFavoritos.js:89-105 | On success the favourites with the id go and the total drops by one. On failure both are unchanged. `removingId` ends `null` |
| MisFavoritos.FavoritesScreen.ApplyResponse | src/app/components/MisFavoritos.js:43-67 | The enriched items and the defaulted total replace the list. Both stay as they were when the update throws. Loading ends |
| EditarEmpresa.InitialForm | src/app/components/EditarEmpresa.js:10-20 | The nine fields, each "" |
| EditarEmpresa.HandleChange | src/app/components/EditarEmpresa.js:71-80 | The named field takes the value. A country clears state and city; a state clears city. Every other field is unchanged |
| EditarEmpresa.HandleChangeIdempotent | src/app/components/EditarEmpresa.js:71-80 | Entering the same value twice equals entering it once |
| EditarEmpresa.CascadeOrder | src/app/components/EditarEmpresa.js:77-78 | A state chosen after the country stays. A country chosen after the state clears it and the city |
| EditarEmpresa.FormFromResponse | src/app/components/EditarEmpresa.js:33-44 | The eight record fields, each defaulting to "", and an empty logo preview. No form when the record is missing |
| EditarEmpresa.LoadedFormHasNoMissingField | src/app/components/EditarEmpresa.js:34-44 | Every loaded field is a truthy record value or "" |
| EditarEmpresa.LogoSrc | src/app/components/EditarEmpresa.js:127-131 | The preview, else the stored logo, else the placeholder |
| EditarEmpresa.LogoSrcIsTruthy | src/app/components/EditarEmpresa.js:127-131 | The logo image always has a source |
| EditarEmpresa.EditarEmpresaScreen.constructor | src/app/components/EditarEmpresa.js:10-23 | The screen starts with the blank form, no logo file, and loading |
| EditarEmpresa.EditarEmpresaScreen.Load | src/app/components/EditarEmpresa.js:32-47 | The loaded form replaces the form and loading ends. A missing record changes nothing |
| EditarEmpresa.EditarEmpresaScreen.Change | src/app/components/EditarEmpresa.js:71-80 | The form becomes the update rule's result |
| EditarEmpresa.EditarEmpresaScreen.HandleLogoChange | src/app/components/EditarEmpresa.js:82-91 | A chosen file becomes the logo file and its object URL the preview. No file changes nothing |
| CompanyRegister.SizeOptionsAreContiguous | src/caracteristicas/autenticacion/components/CompanyRegister.jsx:7-14 | Each bracket has min ≤ max. They start at 1, end at 5000, and each starts right after the previous one |
| CompanyRegister.EverySizeInExactlyOneBracket | src/caracteristicas/autenticacion/components/CompanyRegister.jsx:7-14 | A size is in some bracket exactly when it is within 1–5000, and then in only one |
| CompanyRegister.CompanyPayload | src/caracteristicas/autenticacion/components/CompanyRegister.jsx:93-107 | Type `company`. Name, description, location and address are copied. The sizes are the bracket's bounds |
| CompanyRegister.PayloadAgreesWithMapper | src/caracteristicas/autenticacion/components/CompanyRegister.jsx:93-107 | The screen's body equals the registration mapper's company body for the same fields |
| CompanyRegister.CompanyIdOf | src/caracteristicas/autenticacion/components/CompanyRegister.jsx:118-121 | Reading `res.data.actor.company_id` throws exactly when the body or its actor is missing. Otherwise it yields the actor's `company_id` |
| CompanyRegister.CompanyRegisterScreen.constructor | src/caracteristicas/autenticacion/components/CompanyRegister.jsx:20-36 | Not loading, country `Mexico`, first bracket, no logo |
| CompanyRegister.AcceptedLogoType | src/caracteristicas/autenticacion/components/CompanyRegister.jsx:70 | Only `image/png` and `image/jpeg` are accepted. CompanyRegisterScreen.HandleLogoChange refuses every other type |
| CompanyRegister.CompanyRegisterScreen.HandleLogoChange | src/caracteristicas/autenticacion/components/CompanyRegister.jsx:66-78 | A PNG or JPEG becomes the logo with its preview. Any other type is refused and the logo is unchanged |
| CompanyRegister.CompanyRegisterScreen.Submit | src/caracteristicas/autenticacion/components/CompanyRegister.jsx:80-136 | While loading, nothing. On a mismatch, nothing is sent and loading stays false. Otherwise the bracket's body is sent. A failed post clears loading and uploads nothing. A success uploads the logo only when one was chosen |

## Left out

- Network requests, `localStorage`, toasts, navigation and JSX rendering are left out. Request outcomes, lookups and the stored user are parameters.
- Asynchrony and `Promise.all` concurrency are left out. Each request is one step with a given outcome. The `removingId` value held while a delete is in flight is not observable in the model.
- `Intl.NumberFormat`/`toLocaleString` (`formatMoney`, `formatDate`) and `URL.createObjectURL` are left out. They are parameters, because they depend on the locale and the browser.
- Floating-point numbers are left out. Numbers are integers, and `Number(...)` of a string is exact only for decimal integers with an optional sign and surrounding whitespace.
- Js.StringToNumber: text with a decimal point, an exponent, a hexadecimal prefix or `Infinity` reads as NaN, although JavaScript gives a number (`Number("25000.50")` is 25000.5, `Number("1e3")` is 1000). The members below inherit this.
- VacanteCard.HasAmount: a bound written as such text counts as absent, so VacanteCard.FormatSalario shows no salary, or only the other bound, where the source shows the amount.
- MisFavoritos.CanNext: a total written as such text disables the next button, and MisFavoritos.Decrement turns it into NaN, where the source computes with the number.
- RegisterMapper.CompanyRoundTrip: a company size written as such text (for example "10.5") arrives as NaN, where the source sends the number.
- String lengths count code points, not UTF-16 units. Case mapping covers ASCII and the Spanish accented letters and ñ, not all of Unicode.
- Inherited `Object.prototype` keys are left out. The label tables of `formatWorkType`/`formatPayPeriod`, and object property reads generally, see only own fields.
- `StrictEq` treats every array and object as distinct from every other value. Reference identity is not modelled.
- MisFavoritos.RemoveById: `f.job.job_id` on a favourite without a `job` object throws in the source. The model reads it as `undefined`, and such a favourite is kept.
- The spread `{...item}` of a string or array item (index keys) is not modelled; such an item spreads as `{}`.
- The location-list effects that fetch countries, states and cities are left out as I/O, in Vacantes.js, EditarEmpresa.js and CompanyRegister.jsx. So is CompanyRegister's effect-driven clearing of state and city after those fetches, which only happens once a request completes.
- The plain field setters of the Registro and CompanyRegister forms (`setForm({...form, x: value})`) are left out. Each one only replaces one field.
- EditarEmpresa's `handleSubmit` is left out. It only forwards the form fields to two PUT requests and navigates.
- URL encoding of the query string (`URLSearchParams.toString`) is left out. The model keeps the entries as key/value pairs.
- The session check at the start of the favourites fetch is left out. Unauthenticated users are redirected.
- The `alive` flag in PostulantesVacante.js is left out.
- The other screens (dashboard mock data, profile pages, login forms, candidate registration) hold no logic beyond I/O and are not part of this model.
