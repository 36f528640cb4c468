/** The password-gated admin dialog (src/components/AdminPanel.tsx): four
    state fields and the handlers that update them. */
module Admin {
  import opened Options
  import opened AccountIds
  import opened Writer

  const AdminPassword: string := "00000"
  const InvalidPasswordMessage: string := "Invalid password"

  class AdminPanel {
    var isOpen: bool
    var password: string
    var isAuthenticated: bool
    var error: string

    /** The panel is authenticated only while its dialog is open: every
        handler that closes the dialog also drops the authentication. */
    predicate Valid()
      reads this
    {
      isAuthenticated ==> isOpen
    }

    constructor ()
      ensures Valid()
      ensures !isOpen && password == "" && !isAuthenticated && error == ""
    {
      isOpen := false;
      password := "";
      isAuthenticated := false;
      error := "";
    }

    /** The dialog shows the login form: open and not yet authenticated.
        An open dialog shows exactly one of the login form and the writer. */
    predicate LoginFormShown()
      reads this
      ensures isOpen ==> (LoginFormShown() <==> !WriterShown())
      ensures LoginFormShown() ==> isOpen
    {
      isOpen && !isAuthenticated
    }

    /** The dialog shows the NFC writer instead of the login form. */
    predicate WriterShown()
      reads this
      ensures WriterShown() ==> isAuthenticated
      ensures Valid() ==> (WriterShown() <==> isAuthenticated)
    {
      isOpen && isAuthenticated
    }

    /** The error line under the password field is rendered (`{error && …}`).
        It sits in the login branch, so it never appears beside the writer. */
    predicate ErrorShown()
      reads this
      ensures ErrorShown() ==> !WriterShown()
    {
      LoginFormShown() && error != ""
    }

    /** The Admin button: opens the dialog and touches nothing else. */
    method Open()
      requires Valid()
      modifies this`isOpen
      ensures Valid()
      ensures isOpen
    {
      isOpen := true;
    }

    /** The password field's `onChange`. */
    method TypePassword(text: string)
      requires Valid() && LoginFormShown()
      modifies this`password
      ensures Valid() && LoginFormShown()
      ensures password == text
    {
      password := text;
    }

    /** `handleLogin`, from the Login button or the Enter key. The right
        password authenticates and clears the error; any other sets the
        error message and changes nothing else. */
    method HandleLogin()
      requires Valid() && LoginFormShown()
      modifies this`isAuthenticated, this`error
      ensures Valid()
      ensures isAuthenticated <==> old(password) == AdminPassword
      ensures old(password) == AdminPassword ==> error == ""
      ensures old(password) != AdminPassword ==> error == InvalidPasswordMessage
      ensures WriterShown() <==> old(password) == AdminPassword
      ensures ErrorShown() <==> old(password) != AdminPassword
    {
      if password == AdminPassword {
        isAuthenticated := true;
        error := "";
      } else {
        error := InvalidPasswordMessage;
      }
    }

    /** `handleWriteComplete`, wired to the writer's `onWriteComplete`: the
        id goes to the parent as it is, and the dialog closes and forgets
        the login; the error text is left as it was. The writer calls it
        from code that runs after an await or a timer, so it may arrive
        after the dialog was closed; nothing here checks that the writer is
        still shown. */
    method HandleWriteComplete(accountId: string) returns (forwarded: string)
      requires Valid()
      modifies this`isOpen, this`isAuthenticated, this`password
      ensures Valid()
      ensures forwarded == accountId
      ensures !isOpen && !isAuthenticated && password == ""
    {
      forwarded := accountId;
      isOpen := false;
      isAuthenticated := false;
      password := "";
    }

    /** `handleWriteError`: only logs, so no field changes, whenever it
        arrives. */
    method HandleWriteError(message: string)
      requires Valid()
      ensures Valid()
      ensures unchanged(this)
    {
    }

    /** `handleClose`, the dialog's `onOpenChange`: back to the initial state. */
    method HandleClose()
      modifies this
      ensures Valid()
      ensures !isOpen && password == "" && !isAuthenticated && error == ""
      ensures !ErrorShown()
    {
      isOpen := false;
      isAuthenticated := false;
      password := "";
      error := "";
    }
  }

  /** One pass through the admin flow on a fresh page: open the dialog,
      enter `pw`, log in, and, if the writer appears, type `raw` and press
      Write on a device where Web NFC is `available` and the write ends as
      `outcome`. Before `handleWrite` returns, an id reaches the parent
      exactly when the password is right, the value the field received held
      five digits and the real write resolved; it is then the normalised
      value, a valid account id. */
  method AdminWriteSession(pw: string, raw: string, available: bool, outcome: WriteOutcome)
    returns (forwarded: Option<string>)
    ensures forwarded.Some? <==>
              pw == AdminPassword && |StripNonDigits(raw)| >= IdLength &&
              available && outcome == Written
    ensures forwarded.Some? ==>
              forwarded.value == Normalize(raw) && ValidateAccountId(forwarded.value)
  {
    var panel := new AdminPanel();
    panel.Open();
    panel.TypePassword(pw);
    panel.HandleLogin();
    forwarded := None;
    if panel.WriterShown() {
      var writer := new NfcWriter();
      writer.DetectSupport(available);
      writer.ChangeInput(raw);
      NormalizeValidIff(raw);
      var request, report := writer.HandleWrite(outcome);
      match report
      case Completed(id) =>
        var f := panel.HandleWriteComplete(id);
        forwarded := Some(f);
      case Failed(message) =>
        panel.HandleWriteError(message);
      case NoReport =>
    }
  }

  /** A write that completes after the dialog was dismissed: log in, close
      the dialog while the write is pending, reopen it and start typing a
      password, then let the pending write resolve. The id still reaches the
      parent although the panel is no longer authenticated, and the
      half-typed password is cleared. */
  method LateWriteCompletion(accountId: string)
    returns (forwarded: string, authenticatedAtCompletion: bool, passwordAfter: string)
    ensures forwarded == accountId
    ensures !authenticatedAtCompletion
    ensures passwordAfter == ""
  {
    var panel := new AdminPanel();
    panel.Open();
    panel.TypePassword(AdminPassword);
    panel.HandleLogin();
    panel.HandleClose();
    panel.Open();
    panel.TypePassword("000");
    authenticatedAtCompletion := panel.isAuthenticated;
    forwarded := panel.HandleWriteComplete(accountId);
    passwordAfter := panel.password;
  }
}
