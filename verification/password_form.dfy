/** The password-change form of My Page (`MyPagePassword.jsx`): three
    fields checked by the form library before the submit handler runs,
    and a submit handler that calls the password-change API and then shows
    either a success note with emptied fields or a server error. */
module PasswordForm {
  import opened Base
  import StoreApi

  /** The form's three values, as typed. */
  datatype PasswordValues = PasswordValues(currentPassword: string, newPassword: string, confirm: string)

  const Blank := PasswordValues("", "", "")

  datatype PasswordField = CurrentField | NewField | ConfirmField

  /** The message under each field; `None` when the field is fine. */
  datatype FieldErrors = FieldErrors(current: Option<string>, newPassword: Option<string>, confirm: Option<string>)

  const CurrentRequired := "현재 비밀번호를 입력하세요."
  const NewRequired := "새 비밀번호를 입력하세요."
  const NewTooShort := "8자 이상 입력하세요."
  const ConfirmMismatch := "비밀번호가 일치하지 않습니다."
  /** Shown when the failure carries no `userMessage`. */
  const ChangeFailed := "비밀번호 변경에 실패했어요. 다시 시도해 주세요."

  /** The least length of a new password. */
  const MinLength := 8

  // ----- field rules -----

  /** The rules registered with the form library: the current password
      is required; the new one is required and, when given, at least
      `MinLength` characters long; the confirmation must equal the new
      password. */
  function Errors(v: PasswordValues): (e: FieldErrors)
    ensures e.current.Some? <==> v.currentPassword == ""
    ensures v.newPassword == "" ==> e.newPassword == Some(NewRequired)
    ensures 0 < |v.newPassword| < MinLength ==> e.newPassword == Some(NewTooShort)
    ensures |v.newPassword| >= MinLength ==> e.newPassword == None
    ensures e.confirm.Some? <==> v.confirm != v.newPassword
    ensures e == FieldErrors(None, None, None) <==>
      v.currentPassword != "" && |v.newPassword| >= MinLength && v.confirm == v.newPassword
  {
    FieldErrors(
      if v.currentPassword == "" then Some(CurrentRequired) else None,
      if v.newPassword == "" then Some(NewRequired)
      else if |v.newPassword| < MinLength then Some(NewTooShort)
      else None,
      if v.confirm == v.newPassword then None else Some(ConfirmMismatch))
  }

  /** The form library hands the values to the submit handler only when
      no field has an error. */
  predicate Valid(v: PasswordValues)
  {
    Errors(v) == FieldErrors(None, None, None)
  }

  /** The empty form is never submitted. */
  lemma BlankIsInvalid()
    ensures !Valid(Blank)
    ensures Errors(Blank) == FieldErrors(Some(CurrentRequired), Some(NewRequired), None)
  {
  }

  /** Values that pass the form never meet the API's own pre-check for
      empty passwords: the request always goes out. */
  lemma ValidPassesPreCheck(v: PasswordValues, response: StoreApi.HttpOutcome)
    requires Valid(v)
    ensures StoreApi.ChangeMyPassword(v.currentPassword, v.newPassword, response).requestSent
  {
  }

  // ----- the submit handler -----

  /** The message of a failed call: its `userMessage`, or the fallback
      when it has none (an empty one counts as none). */
  function FailureMessage(f: StoreApi.ApiFailure): (m: string)
    ensures m != ""
    ensures f.userMessage.Some? && f.userMessage.value != "" ==> m == f.userMessage.value
  {
    match f.userMessage
    case Some(message) => if message != "" then message else ChangeFailed
    case None => ChangeFailed
  }

  /** The success flag and the server error the handler leaves, given how
      the awaited call ended: exactly one of the two is shown. */
  function Settle(call: Result<(), StoreApi.ApiFailure>): (r: (bool, string))
    ensures r.0 <==> call.Ok?
    ensures r.0 <==> r.1 == ""
    ensures call.Err? ==> r.1 == FailureMessage(call.error)
  {
    match call
    case Ok(_) => (true, "")
    case Err(f) => (false, FailureMessage(f))
  }

  /** The call the handler makes, with the request answered by
      `response`: the password-change API of `StoreApi.js`. */
  function Call(v: PasswordValues, response: StoreApi.HttpOutcome): Result<(), StoreApi.ApiFailure>
  {
    StoreApi.ChangeMyPassword(v.currentPassword, v.newPassword, response).result
  }

  /** The call as the file imports it, from `storeApi.js`, which exports
      no `changeMyPassword`. What happens then depends on the toolchain.
      On a case-sensitive checkout, with a bundler that tolerates a
      missing named export, the name is `undefined` and calling it throws
      a `TypeError`: an error with no status and no `userMessage`, before
      any request. That is the case modelled here. A bundler that insists
      on present exports (webpack's `strictExportPresence`, which
      create-react-app sets), or native ES modules, refuse to build or
      link the page instead. On a case-insensitive file system the import
      may reach `StoreApi.js`, which does export the function, and then
      the page behaves as `Call`. */
  function CallAsWritten(v: PasswordValues, response: StoreApi.HttpOutcome): Result<(), StoreApi.ApiFailure>
  {
    Err(StoreApi.ApiFailure(None, None))
  }

  /** As written, and built as `CallAsWritten` describes, no submit can
      ever succeed: every valid submit ends in the fallback error. */
  lemma AsWrittenAlwaysFails(v: PasswordValues, response: StoreApi.HttpOutcome)
    ensures Settle(CallAsWritten(v, response)) == (false, ChangeFailed)
  {
  }

  /** With the password-change API of `StoreApi.js`, a valid submit the
      server accepts succeeds; the two differ on every such input. */
  lemma CallSucceedsWhenServerAccepts(v: PasswordValues)
    requires Valid(v)
    ensures Settle(Call(v, StoreApi.Success)) == (true, "")
    ensures Settle(Call(v, StoreApi.Success)) != Settle(CallAsWritten(v, StoreApi.Success))
  {
  }

  /** A valid submit the server refuses shows the status table's message,
      or the fallback for a status outside the table. */
  lemma CallRefused(v: PasswordValues, status: Option<int>)
    requires Valid(v)
    ensures var r := Settle(Call(v, StoreApi.HttpError(status)));
      && !r.0
      && (StoreApi.PasswordUserMessage(status).Some? ==> r.1 == StoreApi.PasswordUserMessage(status).value)
      && (StoreApi.PasswordUserMessage(status).None? ==> r.1 == ChangeFailed)
  {
    var m := StoreApi.PasswordUserMessage(status);
    if m.Some? {
      assert m.value != "" by {
        assert status.Some? && status.value in {400, 403, 404, 409, 422};
      }
    }
  }

  class PasswordEditor {
    var values: PasswordValues
    var errors: FieldErrors
    var serverError: string
    var ok: bool

    /** The default values: three empty fields, no messages. */
    constructor ()
      ensures values == Blank && errors == FieldErrors(None, None, None)
      ensures serverError == "" && !ok
    {
      values := Blank;
      errors := FieldErrors(None, None, None);
      serverError := "";
      ok := false;
    }

    /** Typing into one field. */
    method Type(field: PasswordField, value: string)
      modifies this`values
      ensures values == match field
        case CurrentField => old(values).(currentPassword := value)
        case NewField => old(values).(newPassword := value)
        case ConfirmField => old(values).(confirm := value)
    {
      match field {
        case CurrentField => values := values.(currentPassword := value);
        case NewField => values := values.(newPassword := value);
        case ConfirmField => values := values.(confirm := value);
      }
    }

    /** One press of the submit button, the request answered by
        `response`. With a broken rule only the field messages change.
        Otherwise the handler clears the server error and the success
        flag, awaits the call and shows its outcome; on success it also
        resets the three fields to "". Returns whether the handler ran. */
    method Submit(response: StoreApi.HttpOutcome) returns (handled: bool)
      modifies this
      ensures errors == Errors(old(values))
      ensures handled == Valid(old(values))
      ensures !handled ==> values == old(values) && serverError == old(serverError) && ok == old(ok)
      ensures handled ==> (ok, serverError) == Settle(Call(old(values), response))
      ensures handled ==> values == (if ok then Blank else old(values))
    {
      errors := Errors(values);
      handled := Valid(values);
      if handled {
        serverError := "";
        ok := false;
        var call := Call(values, response);
        match call {
          case Ok(_) =>
            ok := true;
            values := Blank;
          case Err(failure) =>
            serverError := FailureMessage(failure);
        }
      }
    }
  }
}
