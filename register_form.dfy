/**
 * `validateForm` of the registration page (src/components/Register.jsx):
 * it collects one message per offending field, the phone check against the
 * existing users last, and accepts the form when no message was collected.
 */
module RegisterForm {
  import opened Common
  import opened Text

  datatype FormData = FormData(name: string, phone: string, room: string, password: string, confirmPassword: string)

  /** A message `newErrors` can hold. */
  datatype Problem =
    | NameMissing       // 請輸入姓名
    | PhoneMissing      // 請輸入電話號碼
    | PhoneMalformed    // 請輸入有效的10位電話號碼
    | PhoneTaken        // 此電話號碼已被註冊
    | RoomMissing       // 請輸入房間號
    | PasswordMissing   // 請輸入密碼
    | PasswordTooShort  // 密碼至少6位
    | PasswordsDiffer   // 兩次密碼輸入不一致

  /** `newErrors`: each of the five keys is either absent or holds one message. */
  datatype Errors = Errors(
    name: Option<Problem>,
    phone: Option<Problem>,
    room: Option<Problem>,
    password: Option<Problem>,
    confirmPassword: Option<Problem>)

  const NoErrors: Errors := Errors(None, None, None, None, None)

  function Present(o: Option<Problem>): nat {
    if o.Some? then 1 else 0
  }

  /** `Object.keys(newErrors).length`. */
  function KeyCount(e: Errors): (n: nat)
    ensures n == 0 <==> e == NoErrors
    ensures n <= 5
  {
    Present(e.name) + Present(e.phone) + Present(e.room) + Present(e.password) + Present(e.confirmPassword)
  }

  /** `users.find(u => u.phone === phone)` finds someone. */
  predicate PhoneRegistered(registeredPhones: seq<string>, phone: string) {
    phone in registeredPhones
  }

  /** A form every check lets through. */
  predicate Acceptable(form: FormData, registeredPhones: seq<string>) {
    !IsBlank(form.name) && !IsBlank(form.room)
    && IsTenDigits(form.phone) && !PhoneRegistered(registeredPhones, form.phone)
    && Utf16Length(form.password) >= 6
    && form.password == form.confirmPassword
  }

  /**
   * The message each key ends up with, read off field by field: a
   * registered phone wins over the blank and format messages, an empty
   * password over the length message.
   */
  function ExpectedErrors(form: FormData, registeredPhones: seq<string>): Errors {
    Errors(
      if IsBlank(form.name) then Some(NameMissing) else None,
      if PhoneRegistered(registeredPhones, form.phone) then Some(PhoneTaken)
      else if IsBlank(form.phone) then Some(PhoneMissing)
      else if !IsTenDigits(form.phone) then Some(PhoneMalformed)
      else None,
      if IsBlank(form.room) then Some(RoomMissing) else None,
      if form.password == "" then Some(PasswordMissing)
      else if Utf16Length(form.password) < 6 then Some(PasswordTooShort)
      else None,
      if form.password != form.confirmPassword then Some(PasswordsDiffer) else None)
  }

  /** Ten digits are never blank, so a phone that fails the format test was not empty. */
  lemma TenDigitsNotBlank(s: string)
    requires IsTenDigits(s)
    ensures !IsBlank(s)
  {
    assert !IsJsWhitespace(s[0]);
  }

  /**
   * Which keys are present: the phone key exactly when the phone is blank,
   * malformed or registered; the password key exactly when the password is
   * shorter than six UTF-16 units (the empty one included).
   */
  lemma ExpectedErrorsKeys(form: FormData, registeredPhones: seq<string>)
    ensures var e := ExpectedErrors(form, registeredPhones);
      && (e.name.Some? <==> IsBlank(form.name))
      && (e.room.Some? <==> IsBlank(form.room))
      && (e.phone.Some? <==> IsBlank(form.phone) || !IsTenDigits(form.phone) || PhoneRegistered(registeredPhones, form.phone))
      && (e.phone == Some(PhoneMalformed) ==> !IsBlank(form.phone) && !IsTenDigits(form.phone))
      && (e.password.Some? <==> Utf16Length(form.password) < 6)
      && (e.confirmPassword.Some? <==> form.password != form.confirmPassword)
  {
    if IsTenDigits(form.phone) {
      TenDigitsNotBlank(form.phone);
    }
  }

  /** The form is accepted exactly when every check passes. */
  lemma NoErrorsIffAcceptable(form: FormData, registeredPhones: seq<string>)
    ensures ExpectedErrors(form, registeredPhones) == NoErrors <==> Acceptable(form, registeredPhones)
  {
    ExpectedErrorsKeys(form, registeredPhones);
    if IsTenDigits(form.phone) {
      TenDigitsNotBlank(form.phone);
    }
  }

  /**
   * The checks in the page's order; `registeredPhones` stands for the phone
   * numbers of the users `getUsers()` returns.
   */
  method ValidateForm(form: FormData, registeredPhones: seq<string>) returns (ok: bool, errors: Errors)
    ensures errors == ExpectedErrors(form, registeredPhones)
    ensures ok <==> errors == NoErrors
    ensures ok <==> Acceptable(form, registeredPhones)
  {
    errors := NoErrors;
    if IsBlank(form.name) {
      errors := errors.(name := Some(NameMissing));
    }
    if IsBlank(form.phone) {
      errors := errors.(phone := Some(PhoneMissing));
    } else if !IsTenDigits(form.phone) {
      errors := errors.(phone := Some(PhoneMalformed));
    }
    if IsBlank(form.room) {
      errors := errors.(room := Some(RoomMissing));
    }
    if form.password == "" {
      errors := errors.(password := Some(PasswordMissing));
    } else if Utf16Length(form.password) < 6 {
      errors := errors.(password := Some(PasswordTooShort));
    }
    if form.password != form.confirmPassword {
      errors := errors.(confirmPassword := Some(PasswordsDiffer));
    }
    if PhoneRegistered(registeredPhones, form.phone) {
      errors := errors.(phone := Some(PhoneTaken));
    }
    ok := KeyCount(errors) == 0;
    NoErrorsIffAcceptable(form, registeredPhones);
  }
}
