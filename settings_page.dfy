/** The settings page's password change: three client-side checks, in order,
    before `updatePassword` is called, and the form reset on success. */
module SettingsPage {
  import opened Options
  import opened JsValues
  import opened Toasts
  import Api

  const MismatchMessage := "New passwords do not match"
  const TooShortMessage := "New password must be at least 6 characters long"
  const UnchangedMessage := "New password must be different from current password"

  /** The password form (`passwordData`). */
  datatype PasswordForm = PasswordForm(currentpassword: string, newpassword: string, confirmpassword: string)

  const EmptyPasswordForm := PasswordForm("", "", "")

  /** The first check the form fails, if any: the confirmation must match, the new
      password must have at least 6 characters, and it must differ from the
      current one. */
  function PasswordChangeError(f: PasswordForm): (r: Option<string>)
    ensures r.None? <==>
      f.newpassword == f.confirmpassword && |f.newpassword| >= 6 && f.currentpassword != f.newpassword
    ensures f.newpassword != f.confirmpassword ==> r == Some(MismatchMessage)
    ensures f.newpassword == f.confirmpassword && |f.newpassword| < 6 ==> r == Some(TooShortMessage)
    ensures f.newpassword == f.confirmpassword && |f.newpassword| >= 6 && f.currentpassword == f.newpassword ==>
              r == Some(UnchangedMessage)
  {
    if f.newpassword != f.confirmpassword then Some(MismatchMessage)
    else if |f.newpassword| < 6 then Some(TooShortMessage)
    else if f.currentpassword == f.newpassword then Some(UnchangedMessage)
    else None
  }

  class Settings {
    var passwordData: PasswordForm
    var isLoading: bool

    constructor ()
      ensures passwordData == EmptyPasswordForm && !isLoading
    {
      passwordData := EmptyPasswordForm;
      isLoading := false;
    }

    /** `handleSubmit`: a failed check shows its one message, makes no request and
        leaves the loading flag alone. Otherwise `updatePassword` is called with the
        form and the token; a usable result clears the three fields, any other
        keeps them and is shown as an error. `updatePassword` never rejects, so the
        `catch` branch is not reachable. */
    method HandleSubmit(token: Value, outcome: Api.HttpOutcome, parse: Parser)
      returns (sent: Option<Api.Request>, toast: Option<ToastCall>)
      modifies this
      ensures PasswordChangeError(old(passwordData)).Some? ==>
        sent == None && toast == Some(ToastCall(ErrorKind, Str(PasswordChangeError(old(passwordData)).value)))
        && passwordData == old(passwordData) && isLoading == old(isLoading)
      ensures PasswordChangeError(old(passwordData)).None? ==>
        var f := old(passwordData);
        var ex := Api.Invoke(Api.UpdatePassword(f.currentpassword, f.newpassword, f.confirmpassword, token), outcome, parse);
        ex.settled.Resolved? && sent == ex.sent && !isLoading
        && (Usable(ex.settled.value) ==>
              toast == Some(ToastCall(SuccessKind, Str("Password updated successfully"))) && passwordData == EmptyPasswordForm)
        && (!Usable(ex.settled.value) ==>
              toast == ShowBackendMessage(ex.settled.value, "error", parse) && passwordData == old(passwordData))
    {
      var error := PasswordChangeError(passwordData);
      if error.Some? {
        NoticeToast(false, Str(error.value), "error");
        toast := MessageToast(Notice(false, Str(error.value)), "error");
        return None, toast;
      }
      isLoading := true;
      var call := Api.UpdatePassword(passwordData.currentpassword, passwordData.newpassword, passwordData.confirmpassword, token);
      var ex := Api.Invoke(call, outcome, parse);
      Api.RejectsOnlyInTwoPlaces(call, outcome, parse);
      sent := ex.sent;
      var response := ex.settled.value;
      if Usable(response) {
        NoticeToast(true, Str("Password updated successfully"), "success");
        toast := MessageToast(Notice(true, Str("Password updated successfully")), "success");
        passwordData := EmptyPasswordForm;
      } else {
        toast := ShowBackendMessage(response, "error", parse);
      }
      // `finally`
      isLoading := false;
    }
  }

  // ---- properties ----

  /** The request is made only for a form that passes all three checks, and it
      then carries exactly the form's three fields. */
  lemma AcceptedFormIsSent(f: PasswordForm, token: Value, outcome: Api.HttpOutcome, parse: Parser)
    requires PasswordChangeError(f).None? && Truthy(token)
    ensures var ex := Api.Invoke(Api.UpdatePassword(f.currentpassword, f.newpassword, f.confirmpassword, token), outcome, parse);
      ex.sent.Some? && ex.sent.value.body == Some(Obj(map["currentpassword" := Str(f.currentpassword),
        "newpassword" := Str(f.newpassword), "confirmpassword" := Str(f.confirmpassword)]))
      && ex.sent.value.httpMethod == "PUT"
  {
  }
}
