/**
 * The login screen's `handleLogin`: the ordered input checks that decide
 * whether the `login` thunk is dispatched, and the text of the alert shown
 * when it fails.
 */
module LoginPage {
  import opened Common
  import opened Text
  import opened AuthSlice

  const EmptyUsernameMessage: string := "Vui lòng nhập tên đăng nhập"
  const ShortUsernameMessage: string := "Tên đăng nhập phải có ít nhất 3 ký tự"
  const EmptyPasswordMessage: string := "Vui lòng nhập mật khẩu"
  const ShortPasswordMessage: string := "Mật khẩu phải có ít nhất 6 ký tự"
  const LoginFailedMessage: string := "Đăng nhập thất bại. Vui lòng thử lại."

  const MinUsernameLength: nat := 3
  const MinPasswordLength: nat := 6

  /** The outcome of the checks: dispatch the login, or alert the first failure. */
  datatype Check = Submit | Invalid(message: string)

  predicate IsUsernameMessage(m: string) {
    m == EmptyUsernameMessage || m == ShortUsernameMessage
  }

  predicate IsPasswordMessage(m: string) {
    m == EmptyPasswordMessage || m == ShortPasswordMessage
  }

  /**
   * The checks in order: username present, username long enough, then the
   * same for the password. Lengths are JavaScript's `.length`, in UTF-16
   * code units.
   */
  function Validate(username: string, password: string): (r: Check)
    ensures r == Submit <==>
      Utf16Length(username) >= MinUsernameLength && Utf16Length(password) >= MinPasswordLength
    ensures r.Invalid? ==> (IsUsernameMessage(r.message) <==> Utf16Length(username) < MinUsernameLength)
    ensures r.Invalid? ==> IsUsernameMessage(r.message) || IsPasswordMessage(r.message)
  {
    if username == "" then Invalid(EmptyUsernameMessage)
    else if Utf16Length(username) < MinUsernameLength then Invalid(ShortUsernameMessage)
    else if password == "" then Invalid(EmptyPasswordMessage)
    else if Utf16Length(password) < MinPasswordLength then Invalid(ShortPasswordMessage)
    else Submit
  }

  /**
   * The message reported is the first failing check's: emptiness is
   * reported before shortness, and any username problem before any
   * password problem.
   */
  lemma FirstFailureReported(username: string, password: string)
    ensures |username| == 0 ==> Validate(username, password) == Invalid(EmptyUsernameMessage)
    ensures 0 < |username| && Utf16Length(username) < 3 ==>
      Validate(username, password) == Invalid(ShortUsernameMessage)
    ensures Utf16Length(username) >= 3 && |password| == 0 ==>
      Validate(username, password) == Invalid(EmptyPasswordMessage)
    ensures Utf16Length(username) >= 3 && 0 < |password| && Utf16Length(password) < 6 ==>
      Validate(username, password) == Invalid(ShortPasswordMessage)
  {
  }

  /** The username's checks do not depend on the password. */
  lemma UsernameFailureIgnoresPassword(username: string, p1: string, p2: string)
    requires Utf16Length(username) < MinUsernameLength
    ensures Validate(username, p1) == Validate(username, p2)
  {
  }

  /** The limits are inclusive: three code units and six code units pass. */
  lemma BoundaryLengthsPass()
    ensures Validate("abc", "abcdef") == Submit
    ensures Validate("ab", "abcdef") == Invalid(ShortUsernameMessage)
    ensures Validate("abc", "abcde") == Invalid(ShortPasswordMessage)
  {
    Utf16LengthBmp("ab");
    Utf16LengthBmp("abc");
    Utf16LengthBmp("abcde");
    Utf16LengthBmp("abcdef");
  }

  /**
   * A character outside the Basic Multilingual Plane counts as two code
   * units, so a two-character username can already be long enough.
   */
  lemma AstralCharactersCountTwice()
    ensures Validate("a\U{1F600}", "abcdef") == Submit
    ensures Validate("abc", "1234\U{1F600}") == Submit
  {
    AstralCountsTwice();
    Utf16LengthBmp("abc");
    Utf16LengthBmp("abcdef");
    Utf16LengthBmp("1234");
    assert Utf16Length("\U{1F600}") == 2 by {
      assert "\U{1F600}"[..0] == "";
    }
    Utf16LengthAppend("1234", "\U{1F600}");
  }

  /** `error.response?.data?.message || error.message || <fallback>`. */
  function AlertMessage(e: RequestError): (m: string)
    ensures |m| > 0
    ensures e.responseData.Some? && TruthyText(e.responseData.value.message) ==>
      m == e.responseData.value.message.value
    ensures !(e.responseData.Some? && TruthyText(e.responseData.value.message)) && TruthyText(e.message) ==>
      m == e.message.value
    ensures !(e.responseData.Some? && TruthyText(e.responseData.value.message)) && !TruthyText(e.message) ==>
      m == LoginFailedMessage
  {
    var server := if e.responseData.Some? then e.responseData.value.message else None;
    OrElse(server, OrElse(e.message, Some(LoginFailedMessage))).value
  }

  /** What the client sees from the login request. */
  datatype LoginResult = Accepted(payload: LoginPayload) | Refused(error: RequestError)

  /** What `handleLogin` does on screen: alert with a title and text, or nothing (navigation follows the store). */
  datatype Effect = Alert(title: string, text: string) | NoAlert

  /**
   * `handleLogin` as written: the alert reads the error that `unwrap()`
   * rethrows, which is the serialized error with its response dropped.
   */
  function HandleLoginAsWritten(username: string, password: string, result: LoginResult): (e: Effect)
    ensures Validate(username, password).Invalid? ==> e == Alert("Lỗi", Validate(username, password).message)
    ensures Validate(username, password) == Submit && result.Accepted? ==> e == NoAlert
    ensures Validate(username, password) == Submit && result.Refused? ==>
      e == Alert("Lỗi đăng nhập", if TruthyText(result.error.message) then result.error.message.value else LoginFailedMessage)
  {
    match Validate(username, password)
    case Invalid(message) => Alert("Lỗi", message)
    case Submit =>
      match result
      case Accepted(_) => NoAlert
      case Refused(error) => Alert("Lỗi đăng nhập", AlertMessage(SerializeError(error)))
  }

  /**
   * As written, a refused login's alert depends only on the request error's
   * own message: two errors with the same message give the same alert,
   * whatever their response bodies say.
   */
  lemma ResponseIgnoredAsWritten(username: string, password: string, e1: RequestError, e2: RequestError)
    requires e1.message == e2.message
    ensures HandleLoginAsWritten(username, password, Refused(e1)) ==
      HandleLoginAsWritten(username, password, Refused(e2))
  {
  }

  /**
   * The server's explanation never reaches the alert as written: a rejected
   * login whose response body says why shows the client's generic message.
   */
  lemma ServerMessageLostAsWritten()
    ensures
      var error := RequestError(Some("Request failed with status code 401"), Some(ErrorBody(Some("Sai mật khẩu"))));
      HandleLoginAsWritten("admin", "secret1", Refused(error)) ==
        Alert("Lỗi đăng nhập", "Request failed with status code 401")
  {
  }

  /** `handleLogin` with the alert reading the thrown request error itself. */
  function HandleLogin(username: string, password: string, result: LoginResult): (e: Effect)
    ensures Validate(username, password).Invalid? ==> e == Alert("Lỗi", Validate(username, password).message)
    ensures Validate(username, password) == Submit && result.Accepted? ==> e == NoAlert
    ensures Validate(username, password) == Submit && result.Refused? ==>
      e == Alert("Lỗi đăng nhập", AlertMessage(result.error))
  {
    match Validate(username, password)
    case Invalid(message) => Alert("Lỗi", message)
    case Submit =>
      match result
      case Accepted(_) => NoAlert
      case Refused(error) => Alert("Lỗi đăng nhập", AlertMessage(error))
  }

  /** With the error passed through, a server message is what the user reads. */
  lemma ServerMessageShown(username: string, password: string, error: RequestError, text: string)
    requires Validate(username, password) == Submit
    requires error.responseData == Some(ErrorBody(Some(text))) && |text| > 0
    ensures HandleLogin(username, password, Refused(error)) == Alert("Lỗi đăng nhập", text)
  {
  }
}
