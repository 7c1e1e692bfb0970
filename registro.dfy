/** Client-side validation of the sign-up form (src/app/components/Registro.js):
    the ordered validator, the Mexican tax id (RFC) pattern and the
    corporate-email domain blocklist. */
module Registro {
  import opened Js

  datatype RegistroForm = RegistroForm(
    tipo: string,
    nombre: string,
    email: string,
    password: string,
    confirmarPassword: string,
    cv: Option<File>,
    rfc: string,
    sitio: string,
    contacto: string,
    documento: Option<File>)

  const InitialForm: RegistroForm := RegistroForm("postulante", "", "", "", "", None, "", "", "", None)

  // ---------------------------------------------------------------------------
  // validarCorreoCorporativo

  const DominiosInvalidos: seq<string> :=
    ["gmail.com", "hotmail.com", "outlook.com", "yahoo.com", "live.com", "icloud.com", "proton.me"]

  /** The index of the first `c` in `s`, if any. */
  function IndexOf(s: string, c: char): (r: Option<nat>)
    ensures r.None? <==> !Contains(s, c)
    ensures r.Some? ==> r.value < |s| && s[r.value] == c && !Contains(s[..r.value], c)
  {
    if s == [] then None
    else if s[0] == c then Some(0)
    else
      match IndexOf(s[1..], c)
      case None => None
      case Some(k) =>
        assert s[..k + 1] == [s[0]] + s[1..][..k];
        Some(k + 1)
  }

  /** An occurrence with no earlier one is the one `IndexOf` finds. */
  lemma IndexOfIsFirst(s: string, c: char, i: nat)
    requires i < |s| && s[i] == c && !Contains(s[..i], c)
    ensures IndexOf(s, c) == Some(i)
  {
    assert Contains(s, c);
    var k := IndexOf(s, c).value;
    assert forall j :: 0 <= j < i ==> s[..i][j] == s[j];
    assert forall j :: 0 <= j < k ==> s[..k][j] == s[j];
  }

  /** `email` is `pre + "@" + domain + post`, where `pre` holds no `@`,
      `domain` holds none either, and `post` is empty or starts a new field. */
  predicate SplitsAt(email: string, pre: string, domain: string, post: string) {
    && email == pre + "@" + domain + post
    && !Contains(pre, '@')
    && !Contains(domain, '@')
    && (post == "" || post[0] == '@')
  }

  /** `email.split("@")[1]`: the text between the first and the second `@`
      (or the end), or None when there is no `@` (the element is `undefined`). */
  function EmailDomain(email: string): (r: Option<string>)
    ensures r.None? <==> !Contains(email, '@')
    ensures r.Some? ==> exists pre, post :: SplitsAt(email, pre, r.value, post)
  {
    match IndexOf(email, '@')
    case None => None
    case Some(i) =>
      var rest := email[i + 1..];
      match IndexOf(rest, '@')
      case None =>
        SplitAfterFirst(email, i, |rest|);
        assert rest[..|rest|] == rest && rest[|rest|..] == "";
        assert SplitsAt(email, email[..i], rest, "");
        Some(rest)
      case Some(j) =>
        SplitAfterFirst(email, i, j);
        assert SplitsAt(email, email[..i], rest[..j], rest[j..]);
        Some(rest[..j])
  }

  /** Cutting at the first `@` (index `i`) and at the next `@` after it (`j`
      characters later, or the end) is a split. */
  lemma SplitAfterFirst(email: string, i: nat, j: nat)
    requires IndexOf(email, '@') == Some(i)
    requires j <= |email| - i - 1
    requires !Contains(email[i + 1..][..j], '@')
    requires j < |email| - i - 1 ==> email[i + 1..][j] == '@'
    ensures SplitsAt(email, email[..i], email[i + 1..][..j], email[i + 1..][j..])
  {
    CutAround(email, i, j);
    assert email[i + 1..][j..] != "" ==> email[i + 1..][j..][0] == email[i + 1..][j];
  }

  /** The three cuts put back together give the address. */
  lemma CutAround(email: string, i: nat, j: nat)
    requires i < |email| && email[i] == '@'
    requires j <= |email| - i - 1
    ensures email == email[..i] + "@" + email[i + 1..][..j] + email[i + 1..][j..]
  {
    var pre, rest := email[..i], email[i + 1..];
    assert email == pre + "@" + rest;
    assert rest == rest[..j] + rest[j..];
  }

  /** There is only one such split: the domain is fixed by the first two `@`. */
  lemma SplitIsUnique(email: string, pre: string, domain: string, post: string)
    requires SplitsAt(email, pre, domain, post)
    ensures EmailDomain(email) == Some(domain)
  {
    var i := |pre|;
    assert email[i] == '@';
    assert email[..i] == pre;
    IndexOfIsFirst(email, '@', i);
    var rest := email[i + 1..];
    assert rest == domain + post;
    if post == "" {
      assert rest == domain;
    } else {
      var j := |domain|;
      assert rest[j] == '@' && rest[..j] == domain;
      IndexOfIsFirst(rest, '@', j);
    }
  }

  /** `validarCorreoCorporativo(email)`, read as a boolean. */
  predicate ValidarCorreoCorporativo(email: string) {
    match EmailDomain(email)
    case None => false
    case Some(dominio) => dominio != "" && dominio !in DominiosInvalidos
  }

  /** The check fails exactly when the domain (the text between the first and
      the second `@`) is missing, empty or one of the blocked domains. */
  lemma CorreoCorporativoCases(email: string)
    ensures !Contains(email, '@') ==> !ValidarCorreoCorporativo(email)
    ensures forall pre, domain, post :: SplitsAt(email, pre, domain, post) ==>
      (ValidarCorreoCorporativo(email) <==> domain != "" && domain !in DominiosInvalidos)
  {
    forall pre, domain, post | SplitsAt(email, pre, domain, post)
      ensures ValidarCorreoCorporativo(email) <==> domain != "" && domain !in DominiosInvalidos
    {
      SplitIsUnique(email, pre, domain, post);
    }
  }

  // ---------------------------------------------------------------------------
  // validarRFC: /^[A-ZÑ&]{3,4}\d{6}[A-Z0-9]{3}$/

  predicate IsRfcLetter(c: char) {
    'A' <= c <= 'Z' || c == 'Ñ' || c == '&'
  }

  predicate IsRfcCheckChar(c: char) {
    'A' <= c <= 'Z' || '0' <= c <= '9'
  }

  /** The length of the longest prefix of `s` made of RFC letters. */
  function LeadingLetters(s: string): (n: nat)
    ensures n <= |s|
    ensures forall i :: 0 <= i < n ==> IsRfcLetter(s[i])
    ensures n == |s| || !IsRfcLetter(s[n])
  {
    if s == [] || !IsRfcLetter(s[0]) then 0 else 1 + LeadingLetters(s[1..])
  }

  /** A run of `k` letters followed by a non-letter is the leading run. */
  lemma {:induction false} LeadingLettersIs(s: string, k: nat)
    requires k < |s| && !IsRfcLetter(s[k])
    requires forall i :: 0 <= i < k ==> IsRfcLetter(s[i])
    ensures LeadingLetters(s) == k
  {
    if k > 0 {
      assert IsRfcLetter(s[0]);
      assert forall i :: 0 <= i < k - 1 ==> s[1..][i] == s[i + 1];
      LeadingLettersIs(s[1..], k - 1);
    }
  }

  /** The matcher: the letter run must be 3 or 4 long, then exactly six digits
      and three check characters must follow and end the string. */
  predicate ValidarRFC(rfc: string) {
    var n := LeadingLetters(rfc);
    && (n == 3 || n == 4)
    && |rfc| == n + 9
    && AllDigits(rfc[n..n + 6])
    && forall i :: n + 6 <= i < |rfc| ==> IsRfcCheckChar(rfc[i])
  }

  /** The regular expression read as a shape: `k` letters, six digits, three
      check characters, and nothing else. */
  predicate RfcShape(rfc: string, k: nat) {
    && |rfc| == k + 9
    && (forall i :: 0 <= i < k ==> IsRfcLetter(rfc[i]))
    && (forall i :: k <= i < k + 6 ==> IsDigit(rfc[i]))
    && (forall i :: k + 6 <= i < |rfc| ==> IsRfcCheckChar(rfc[i]))
  }

  /** The matcher accepts exactly the strings of the pattern. */
  lemma ValidarRFCMatchesPattern(rfc: string)
    ensures ValidarRFC(rfc) <==> RfcShape(rfc, 3) || RfcShape(rfc, 4)
  {
    var n := LeadingLetters(rfc);
    if ValidarRFC(rfc) {
      forall i | n <= i < n + 6 ensures IsDigit(rfc[i]) {
        assert rfc[n..n + 6][i - n] == rfc[i];
      }
      assert RfcShape(rfc, n);
    }
    if RfcShape(rfc, 3) || RfcShape(rfc, 4) {
      var k := if RfcShape(rfc, 3) then 3 else 4;
      assert !IsRfcLetter(rfc[k]) by { assert IsDigit(rfc[k]); }
      LeadingLettersIs(rfc, k);
      assert AllDigits(rfc[n..n + 6]);
    }
  }

  /** Only strings of length 12 (persona moral) or 13 (persona física) pass. */
  lemma ValidRfcLength(rfc: string)
    requires ValidarRFC(rfc)
    ensures |rfc| == 12 || |rfc| == 13
  {
  }

  /** RFC input is upper-cased as it is typed. */
  function SetRfc(form: RegistroForm, typed: string): (r: RegistroForm)
    ensures r == form.(rfc := r.rfc)
    ensures |r.rfc| == |typed|
    ensures forall i :: 0 <= i < |typed| ==> r.rfc[i] == UpperChar(typed[i])
    ensures forall i :: 0 <= i < |r.rfc| ==> !('a' <= r.rfc[i] <= 'z') && r.rfc[i] != 'ñ'
    ensures forall i :: 0 <= i < |typed| && IsRfcLetter(typed[i]) ==> r.rfc[i] == typed[i]
  {
    form.(rfc := ToUpper(typed))
  }

  // ---------------------------------------------------------------------------
  // validarFormulario

  datatype FormError =
    | NombreObligatorio
    | CorreoInvalido
    | PasswordCorta
    | PasswordsNoCoinciden
    | CvObligatorio
    | RfcInvalido
    | SitioSinHttp
    | CorreoNoCorporativo
    | DocumentoObligatorio

  /** The message shown for each failure. */
  function Message(e: FormError): string {
    match e
    case NombreObligatorio => "El nombre es obligatorio"
    case CorreoInvalido => "Correo electrónico inválido"
    case PasswordCorta => "La contraseña debe tener al menos 6 caracteres"
    case PasswordsNoCoinciden => "Las contraseñas no coinciden"
    case CvObligatorio => "Debes subir tu CV en PDF"
    case RfcInvalido => "RFC inválido"
    case SitioSinHttp => "La URL del sitio debe comenzar con https://"
    case CorreoNoCorporativo => "Usa un correo corporativo (no Gmail/Outlook/etc.)"
    case DocumentoObligatorio => "Debes subir un documento de verificación de la empresa"
  }

  /** Every message is a non-empty string, so `if (error)` in `enviar` sees each
      failure, and no two checks share a message. */
  lemma MessagesIdentifyFailures(e1: FormError, e2: FormError)
    ensures Message(e1) != ""
    ensures Message(e1) == Message(e2) ==> e1 == e2
  {
  }

  /** `validarFormulario()`: the first failing check, or None (`null`). */
  function ValidarFormulario(f: RegistroForm): Option<FormError> {
    if f.nombre == "" then Some(NombreObligatorio)
    else if !Contains(f.email, '@') then Some(CorreoInvalido)
    else if |f.password| < 6 then Some(PasswordCorta)
    else if f.password != f.confirmarPassword then Some(PasswordsNoCoinciden)
    else if f.tipo == "postulante" && f.cv.None? then Some(CvObligatorio)
    else if f.tipo == "empresa" && !ValidarRFC(f.rfc) then Some(RfcInvalido)
    else if f.tipo == "empresa" && !StartsWith(f.sitio, "http") then Some(SitioSinHttp)
    else if f.tipo == "empresa" && !ValidarCorreoCorporativo(f.email) then Some(CorreoNoCorporativo)
    else if f.tipo == "empresa" && f.documento.None? then Some(DocumentoObligatorio)
    else None
  }

  /** The blank form the screen starts with is refused for its missing name. */
  lemma InitialFormRejected()
    ensures InitialForm.tipo == "postulante"
    ensures ValidarFormulario(InitialForm) == Some(NombreObligatorio)
    ensures Message(ValidarFormulario(InitialForm).value) == "El nombre es obligatorio"
  {
  }

  /** Each check on its own: does the form fail it? */
  predicate Fails(f: RegistroForm, e: FormError) {
    match e
    case NombreObligatorio => f.nombre == ""
    case CorreoInvalido => !Contains(f.email, '@')
    case PasswordCorta => |f.password| < 6
    case PasswordsNoCoinciden => f.password != f.confirmarPassword
    case CvObligatorio => f.tipo == "postulante" && f.cv.None?
    case RfcInvalido => f.tipo == "empresa" && !ValidarRFC(f.rfc)
    case SitioSinHttp => f.tipo == "empresa" && !StartsWith(f.sitio, "http")
    case CorreoNoCorporativo => f.tipo == "empresa" && !ValidarCorreoCorporativo(f.email)
    case DocumentoObligatorio => f.tipo == "empresa" && f.documento.None?
  }

  /** The position of each check in the validator. */
  function Rank(e: FormError): nat {
    match e
    case NombreObligatorio => 0
    case CorreoInvalido => 1
    case PasswordCorta => 2
    case PasswordsNoCoinciden => 3
    case CvObligatorio => 4
    case RfcInvalido => 5
    case SitioSinHttp => 6
    case CorreoNoCorporativo => 7
    case DocumentoObligatorio => 8
  }

  /** The validator reports the earliest failing check, and passes only when
      no check fails. */
  lemma ValidarFormularioIsFirstFailure(f: RegistroForm)
    ensures ValidarFormulario(f) == None <==> forall e :: !Fails(f, e)
    ensures forall e :: ValidarFormulario(f) == Some(e) <==>
      Fails(f, e) && forall e' :: Rank(e') < Rank(e) ==> !Fails(f, e')
  {
    forall e ensures ValidarFormulario(f) == Some(e) <==>
      Fails(f, e) && forall e' :: Rank(e') < Rank(e) ==> !Fails(f, e')
    {
      if ValidarFormulario(f) == Some(e) {
        forall e' | Rank(e') < Rank(e) ensures !Fails(f, e') {
          match e' {
            case NombreObligatorio =>
            case CorreoInvalido =>
            case PasswordCorta =>
            case PasswordsNoCoinciden =>
            case CvObligatorio =>
            case RfcInvalido =>
            case SitioSinHttp =>
            case CorreoNoCorporativo =>
            case DocumentoObligatorio =>
          }
        }
      }
      if Fails(f, e) && forall e' :: Rank(e') < Rank(e) ==> !Fails(f, e') {
        assert Rank(NombreObligatorio) == 0 && Rank(CorreoInvalido) == 1 && Rank(PasswordCorta) == 2;
        assert Rank(PasswordsNoCoinciden) == 3 && Rank(CvObligatorio) == 4 && Rank(RfcInvalido) == 5;
        assert Rank(SitioSinHttp) == 6 && Rank(CorreoNoCorporativo) == 7;
      }
    }
    if ValidarFormulario(f) != None {
      assert Fails(f, ValidarFormulario(f).value);
    }
  }

  /** A short password is reported before any confirmation mismatch. */
  lemma ShortPasswordBeforeMismatch(f: RegistroForm)
    requires f.nombre != "" && Contains(f.email, '@')
    requires |f.password| < 6
    ensures ValidarFormulario(f) == Some(PasswordCorta)
  {
  }

  /** A candidate needs a CV and never sees a company check; the company
      checks apply only to "empresa". */
  lemma CompanyChecksOnlyForEmpresa(f: RegistroForm)
    ensures f.tipo == "postulante" && f.cv.None? ==> ValidarFormulario(f).Some?
    ensures f.tipo != "empresa" ==>
      ValidarFormulario(f) !in {Some(RfcInvalido), Some(SitioSinHttp), Some(CorreoNoCorporativo), Some(DocumentoObligatorio)}
    ensures f.tipo != "postulante" && f.tipo != "empresa" ==>
      (ValidarFormulario(f) == None <==> f.nombre != "" && Contains(f.email, '@') && |f.password| >= 6
                                          && f.password == f.confirmarPassword)
  {
  }
}
