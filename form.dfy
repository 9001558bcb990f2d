/**
 * The record form of src/components/Form.js: its seven text fields, the two
 * error flags, the submit-time validation chain, and the three handlers that
 * update the component state (field change, submit, prefill for editing).
 * Alerts become a returned `FormError`; the `onSubmit` callback becomes the
 * record carried by a `Submitted` outcome.
 */
module RecordForm {

  datatype Option<+T> = None | Some(value: T)

  /** The names of the seven inputs, as given by their `name` attributes. */
  datatype Field = Nome | Telefone | Cpf | Email | ConfirmEmail | Senha | ConfirmSenha

  /** The `form` state object: one string per input. */
  datatype FormData = FormData(
    nome: string,
    telefone: string,
    cpf: string,
    email: string,
    confirmEmail: string,
    senha: string,
    confirmSenha: string)
  {
    /** The value stored under the field `k` (`form[k]`). */
    function Get(k: Field): string {
      match k
      case Nome => nome
      case Telefone => telefone
      case Cpf => cpf
      case Email => email
      case ConfirmEmail => confirmEmail
      case Senha => senha
      case ConfirmSenha => confirmSenha
    }

    /** `{ ...form, [k]: v }`: the field `k` becomes `v`, every other field is kept. */
    function Set(k: Field, v: string): (r: FormData)
      ensures r.Get(k) == v
      ensures forall j :: j != k ==> r.Get(j) == Get(j)
    {
      match k
      case Nome => this.(nome := v)
      case Telefone => this.(telefone := v)
      case Cpf => this.(cpf := v)
      case Email => this.(email := v)
      case ConfirmEmail => this.(confirmEmail := v)
      case Senha => this.(senha := v)
      case ConfirmSenha => this.(confirmSenha := v)
    }
  }

  /** The initial (and reset) value of `form`. */
  const EMPTY_FORM := FormData("", "", "", "", "", "", "")

  /** The `errors` state object: one "known invalid" flag per checked input. */
  datatype Errors = Errors(cpf: bool, telefone: bool)

  /** The initial (and reset) value of `errors`. */
  const NO_ERRORS := Errors(false, false)

  lemma EmptyFormIsEmpty()
    ensures forall k :: EMPTY_FORM.Get(k) == ""
  {
  }

  // ---------------------------------------------------------------------
  // Phone digits

  predicate IsDigit(c: char) {
    '0' <= c <= '9'
  }

  /**
   * The phone with every character that is not an ASCII digit removed
   * (`replace(/[^\d]/g, '')`): only digits remain, and the length is kept
   * exactly when there was nothing to remove.
   */
  function OnlyDigits(s: string): (r: string)
    ensures |r| <= |s|
    ensures forall i :: 0 <= i < |r| ==> IsDigit(r[i])
    ensures |r| == |s| <==> forall i :: 0 <= i < |s| ==> IsDigit(s[i])
  {
    if s == [] then []
    else (if IsDigit(s[0]) then [s[0]] else []) + OnlyDigits(s[1..])
  }

  /** No digit is lost: each digit occurs as often as in the input. */
  lemma {:induction false} OnlyDigitsKeepsDigits(s: string, c: char)
    requires IsDigit(c)
    ensures multiset(OnlyDigits(s))[c] == multiset(s)[c]
  {
    if s != [] {
      OnlyDigitsKeepsDigits(s[1..], c);
      assert s == [s[0]] + s[1..];
    }
  }

  /** Removing non-digits works piecewise: the digits keep their order. */
  lemma {:induction false} OnlyDigitsAppend(a: string, b: string)
    ensures OnlyDigits(a + b) == OnlyDigits(a) + OnlyDigits(b)
  {
    if a == [] {
      assert a + b == b;
    } else {
      var h := if IsDigit(a[0]) then [a[0]] else [];
      assert (a + b)[0] == a[0] && (a + b)[1..] == a[1..] + b;
      OnlyDigitsAppend(a[1..], b);
      assert h + (OnlyDigits(a[1..]) + OnlyDigits(b)) == (h + OnlyDigits(a[1..])) + OnlyDigits(b);
    }
  }

  /** A string made only of digits is left as it is. */
  lemma {:induction false} OnlyDigitsOfDigits(s: string)
    requires forall i :: 0 <= i < |s| ==> IsDigit(s[i])
    ensures OnlyDigits(s) == s
  {
    if s != [] {
      OnlyDigitsOfDigits(s[1..]);
    }
  }

  /** The number of ASCII digits in `s` (`replace(/[^\d]/g, '').length`). */
  function DigitCount(s: string): (n: nat)
    ensures n <= |s|
    ensures n == |s| <==> forall i :: 0 <= i < |s| ==> IsDigit(s[i])
  {
    |OnlyDigits(s)|
  }
  /** Digits of two pieces add up. */
  lemma DigitCountAppend(a: string, b: string)
    ensures DigitCount(a + b) == DigitCount(a) + DigitCount(b)
  {
    OnlyDigitsAppend(a, b);
  }

  // ---------------------------------------------------------------------
  // String length as JavaScript counts it

  /** Whether `c` lies in the Basic Multilingual Plane, where UTF-16 needs one code unit for it. */
  predicate InBmp(c: char) {
    c as int < 0x1_0000
  }

  /**
   * JavaScript's `.length`: the number of UTF-16 code units, one for a
   * character of the Basic Multilingual Plane and two (a surrogate pair)
   * for any other. It equals the character count exactly when every
   * character lies in the Basic Multilingual Plane.
   */
  function Utf16Length(s: string): (n: nat)
    ensures |s| <= n <= 2 * |s|
    ensures n == |s| <==> forall i :: 0 <= i < |s| ==> InBmp(s[i])
  {
    if s == [] then 0 else (if InBmp(s[0]) then 1 else 2) + Utf16Length(s[1..])
  }

  /** Code units of two pieces add up. */
  lemma {:induction false} Utf16LengthAppend(a: string, b: string)
    ensures Utf16Length(a + b) == Utf16Length(a) + Utf16Length(b)
  {
    if a != [] {
      assert (a + b)[0] == a[0] && (a + b)[1..] == a[1..] + b;
      Utf16LengthAppend(a[1..], b);
    } else {
      assert a + b == b;
    }
  }

  /** The characters the CPF mask produces: digits, separators and the `_` placeholder. */
  predicate IsMaskChar(c: char) {
    IsDigit(c) || c == '.' || c == '-' || c == '_'
  }

  /** For what the CPF mask can produce, `.length` is the character count. */
  lemma MaskTextLength(s: string)
    requires forall i :: 0 <= i < |s| ==> IsMaskChar(s[i])
    ensures Utf16Length(s) == |s|
  {
  }

  // ---------------------------------------------------------------------
  // Submit-time validation

  /** The five alerts `handleSubmit` can raise. */
  datatype FormError = MissingFields | InvalidPhone | EmailMismatch | PasswordMismatch | InvalidCpf

  datatype Verdict = Accepted | Rejected(error: FormError)

  /** The position of a check in the submit chain: missing fields first, CPF last. */
  function Rank(e: FormError): nat {
    match e
    case MissingFields => 0
    case InvalidPhone => 1
    case EmailMismatch => 2
    case PasswordMismatch => 3
    case InvalidCpf => 4
  }

  /** Whether `f` passes the check whose failure raises `e`, taken on its own. */
  predicate Passes(f: FormData, e: FormError) {
    match e
    case MissingFields => forall k :: f.Get(k) != ""
    case InvalidPhone => DigitCount(f.telefone) == 11
    case EmailMismatch => f.email == f.confirmEmail
    case PasswordMismatch => f.senha == f.confirmSenha
    case InvalidCpf => Utf16Length(f.cpf) == 14
  }

  /** "Every field is filled" spelled out field by field, as `handleSubmit` tests it. */
  lemma AllFilledByField(f: FormData)
    ensures (forall k :: f.Get(k) != "") <==>
      f.nome != "" && f.telefone != "" && f.cpf != "" && f.email != "" && f.confirmEmail != ""
      && f.senha != "" && f.confirmSenha != ""
  {
    assert f.Get(Nome) == f.nome && f.Get(Telefone) == f.telefone && f.Get(Cpf) == f.cpf;
    assert f.Get(Email) == f.email && f.Get(ConfirmEmail) == f.confirmEmail;
    assert f.Get(Senha) == f.senha && f.Get(ConfirmSenha) == f.confirmSenha;
  }

  /**
   * The check chain of `handleSubmit`: the first failing check, in rank
   * order, is reported, and the form is accepted exactly when every check
   * passes. The CPF check looks at the `.length` only (the mask is
   * "999.999.999-99"), so a CPF still holding `_` placeholders passes it.
   */
  function Validate(f: FormData): (r: Verdict)
    ensures r.Rejected? ==> !Passes(f, r.error)
    ensures r.Rejected? ==> forall e :: Rank(e) < Rank(r.error) ==> Passes(f, e)
    ensures r == Accepted <==> forall e :: Passes(f, e)
    ensures r == Accepted <==>
      && (forall k :: f.Get(k) != "")
      && DigitCount(f.telefone) == 11
      && f.email == f.confirmEmail
      && f.senha == f.confirmSenha
      && Utf16Length(f.cpf) == 14
  {
    AllFilledByField(f);
    if f.nome == "" || f.telefone == "" || f.cpf == "" || f.email == "" || f.confirmEmail == ""
       || f.senha == "" || f.confirmSenha == "" then
      Rejected(MissingFields)
    else if DigitCount(f.telefone) != 11 then
      Rejected(InvalidPhone)
    else if f.email != f.confirmEmail then
      Rejected(EmailMismatch)
    else if f.senha != f.confirmSenha then
      Rejected(PasswordMismatch)
    else if Utf16Length(f.cpf) != 14 then
      Rejected(InvalidCpf)
    else
      Accepted
  }

  /**
   * The CPF is checked for its length only: any other value of the same
   * `.length`, placeholders included, leaves the verdict as it was.
   */
  lemma CpfCheckIsLengthOnly(f: FormData, c: string)
    requires Utf16Length(c) == Utf16Length(f.cpf)
    ensures Validate(f.(cpf := c)) == Validate(f)
  {
  }

  /**
   * Fourteen characters are not always fourteen code units: thirteen mask
   * characters followed by one character outside the Basic Multilingual
   * Plane (an emoji, say) make 15 units, so the form is refused.
   */
  lemma AstralCpfRefused(f: FormData, head: string, c: char)
    requires |head| == 13 && forall i :: 0 <= i < |head| ==> IsMaskChar(head[i])
    requires !InBmp(c) && f.cpf == head + [c]
    ensures |f.cpf| == 14 && Utf16Length(f.cpf) == 15
    ensures Validate(f) != Accepted
  {
    MaskTextLength(head);
    Utf16LengthAppend(head, [c]);
  }

  // ---------------------------------------------------------------------
  // Prefill from `initialData`

  /** The `initialData` object: each field may be missing. */
  datatype InitialData = InitialData(
    nome: Option<string>,
    telefone: Option<string>,
    cpf: Option<string>,
    email: Option<string>,
    confirmEmail: Option<string>,
    senha: Option<string>,
    confirmSenha: Option<string>)
  {
    function Lookup(k: Field): Option<string> {
      match k
      case Nome => nome
      case Telefone => telefone
      case Cpf => cpf
      case Email => email
      case ConfirmEmail => confirmEmail
      case Senha => senha
      case ConfirmSenha => confirmSenha
    }
  }

  /** `v || ''`: a missing or falsy (empty) value becomes the empty string, any other is kept. */
  function OrEmpty(v: Option<string>): (s: string)
    ensures v.None? ==> s == ""
    ensures v.Some? ==> s == v.value
  {
    if v.Some? && v.value != "" then v.value else ""
  }

  /** The form the prefill effect builds from `initialData`. */
  function Prefilled(d: InitialData): (f: FormData)
    ensures forall k :: d.Lookup(k).None? ==> f.Get(k) == ""
    ensures forall k :: d.Lookup(k).Some? ==> f.Get(k) == d.Lookup(k).value
  {
    FormData(OrEmpty(d.nome), OrEmpty(d.telefone), OrEmpty(d.cpf), OrEmpty(d.email),
             OrEmpty(d.confirmEmail), OrEmpty(d.senha), OrEmpty(d.confirmSenha))
  }

  /** A submitted form seen as `initialData`: every field present. */
  function AsInitialData(f: FormData): (d: InitialData)
    ensures forall k :: d.Lookup(k) == Some(f.Get(k))
  {
    InitialData(Some(f.nome), Some(f.telefone), Some(f.cpf), Some(f.email),
                Some(f.confirmEmail), Some(f.senha), Some(f.confirmSenha))
  }

  /** Editing a record that the form once submitted prefills exactly that record. */
  lemma PrefillRoundTrip(f: FormData)
    ensures Prefilled(AsInitialData(f)) == f
  {
  }

  // ---------------------------------------------------------------------
  // The component state

  /** What a submit does: an alert, or a call of `onSubmit` with the form. */
  datatype Submission = Refused(error: FormError) | Submitted(record: FormData)

  /**
   * The state of one mounted `Form`: the `form` and `errors` objects.
   * `isEditing` and `initialData` are props and are passed to the handlers.
   */
  class FormState {
    var form: FormData
    var errors: Errors

    /** `useState` with an empty form and both flags clear. */
    constructor ()
      ensures form == EMPTY_FORM && errors == NO_ERRORS
    {
      form := EMPTY_FORM;
      errors := NO_ERRORS;
    }

    /**
     * `handleChange`: the changed field takes the new value. Both calls to
     * `setErrors` spread the same `errors` and the later one wins, so the CPF
     * flag keeps its value, and the phone flag ends up raised exactly when
     * the phone itself changed to a value without 11 digits.
     */
    method HandleChange(name: Field, value: string)
      modifies this
      ensures form == old(form).Set(name, value)
      ensures errors.cpf == old(errors.cpf)
      ensures errors.telefone <==> name == Telefone && DigitCount(value) != 11
    {
      form := form.Set(name, value);
      var stale := errors;
      if name == Cpf && '_' in value {
        errors := stale.(cpf := true);
      } else {
        errors := stale.(cpf := false);
      }
      if name == Telefone && DigitCount(value) != 11 {
        errors := stale.(telefone := true);
      } else {
        errors := stale.(telefone := false);
      }
    }

    /**
     * `handleSubmit`: a rejected form raises the first failing check and
     * changes nothing; an accepted one is handed to `onSubmit` and, outside
     * edit mode, the form and the flags are reset.
     */
    method HandleSubmit(isEditing: bool) returns (outcome: Submission)
      modifies this
      ensures outcome.Submitted? <==> Validate(old(form)) == Accepted
      ensures outcome.Submitted? ==> outcome.record == old(form)
      ensures outcome.Refused? ==> outcome.error == Validate(old(form)).error
      ensures outcome.Refused? ==> form == old(form) && errors == old(errors)
      ensures outcome.Submitted? && !isEditing ==> form == EMPTY_FORM && errors == NO_ERRORS
      ensures outcome.Submitted? && isEditing ==> form == old(form) && errors == old(errors)
    {
      var f := form;
      if f.nome == "" || f.telefone == "" || f.cpf == "" || f.email == "" || f.confirmEmail == ""
         || f.senha == "" || f.confirmSenha == "" {
        return Refused(MissingFields);
      }
      if DigitCount(f.telefone) != 11 {
        return Refused(InvalidPhone);
      }
      if f.email != f.confirmEmail {
        return Refused(EmailMismatch);
      }
      if f.senha != f.confirmSenha {
        return Refused(PasswordMismatch);
      }
      if Utf16Length(f.cpf) != 14 {
        return Refused(InvalidCpf);
      }
      outcome := Submitted(f);
      if !isEditing {
        form := EMPTY_FORM;
        errors := NO_ERRORS;
      }
    }

    /**
     * The `useEffect` prefill: only in edit mode and with `initialData`
     * present (`None` stands for `null`), the form is replaced field by field
     * by the data, missing or empty values by `''`; the flags are untouched.
     */
    method Prefill(isEditing: bool, initialData: Option<InitialData>)
      modifies this
      ensures isEditing && initialData.Some? ==> form == Prefilled(initialData.value)
      ensures !(isEditing && initialData.Some?) ==> form == old(form)
      ensures errors == old(errors)
    {
      if isEditing && initialData.Some? {
        form := Prefilled(initialData.value);
      }
    }
  }
}
