/** The administrator login form (components/AdminLoginModal.tsx): the
    priority-ordered credential check and the form reset that follows a
    success. This is the decision as the component makes it, not a security model. */
module AdminLogin {

  const AdminPasscode: string := "yahadmin"
  const MasterCode: string := "84268520yah2026"
  const AdminUsername: string := "YAH-2026"
  const WrongCredentials: string := "Code ou identifiants incorrects"

  /** What a submission decides: access, or a refusal that shows the error
      message or stays silent. */
  datatype LoginDecision = Granted | Refused(showError: bool)

  predicate PasscodeAccepted(passcode: string) {
    passcode == AdminPasscode || passcode == MasterCode
  }

  predicate CredentialsAccepted(username: string, password: string) {
    username == AdminUsername && password == MasterCode
  }

  /** `handleLogin`'s decision. The passcode is checked first, then the pair;
      when both fail the error appears only if a passcode, or both a username
      and a password, were typed. */
  function DecideLogin(username: string, password: string, passcode: string): (d: LoginDecision)
    ensures d.Granted? <==> PasscodeAccepted(passcode) || CredentialsAccepted(username, password)
    ensures d.Refused? ==> (d.showError <==> passcode != "" || (username != "" && password != ""))
  {
    if PasscodeAccepted(passcode) then Granted
    else if CredentialsAccepted(username, password) then Granted
    else Refused(passcode != "" || (username != "" && password != ""))
  }

  /** An accepted passcode grants access whatever the other two fields hold. */
  lemma PasscodeTakesPriority(username: string, password: string, username': string,
                              password': string, passcode: string)
    requires PasscodeAccepted(passcode)
    ensures DecideLogin(username, password, passcode) == DecideLogin(username', password', passcode) == Granted
  {
  }

  /** The master code works as a passcode and as the password of the admin
      user; the passcode `yahadmin` does not work as that password. */
  lemma MasterCodeTwoWays()
    ensures DecideLogin("", "", MasterCode) == Granted
    ensures DecideLogin(AdminUsername, MasterCode, "") == Granted
    ensures DecideLogin(AdminUsername, AdminPasscode, "") == Refused(true)
  {
    assert AdminPasscode != MasterCode by {
      assert |AdminPasscode| != |MasterCode|;
    }
  }

  /** A form with only a username, or only a password, is refused silently;
      so is an empty form. */
  lemma HalfFilledIsSilent(username: string, password: string)
    requires username == "" || password == ""
    ensures DecideLogin(username, password, "") == Refused(false)
  {
    assert !PasscodeAccepted("");
    assert username == "" ==> username != AdminUsername;
  }

  /** The form's fields. `isOpen` stands for the modal being shown. */
  class LoginForm {
    var username: string
    var password: string
    var passcode: string
    var error: string
    var isOpen: bool

    constructor ()
      ensures username == "" && password == "" && passcode == "" && error == "" && isOpen
    {
      username, password, passcode, error := "", "", "", "";
      isOpen := true;
    }

    /** `resetForm`: every field cleared, then `onClose`. */
    method Reset()
      modifies this
      ensures username == "" && password == "" && passcode == "" && error == "" && !isOpen
    {
      username, password, passcode, error := "", "", "", "";
      isOpen := false;
    }

    /** `handleLogin`: returns whether `onLoginSuccess` was called. A refusal
        keeps what was typed and either shows the error or leaves the old one. */
    method Submit() returns (granted: bool)
      modifies this
      ensures granted <==> DecideLogin(old(username), old(password), old(passcode)).Granted?
      ensures granted ==> username == "" && password == "" && passcode == "" && error == "" && !isOpen
      ensures !granted ==>
                && username == old(username) && password == old(password) && passcode == old(passcode)
                && isOpen == old(isOpen)
                && error == if DecideLogin(old(username), old(password), old(passcode)).showError
                            then WrongCredentials else old(error)
    {
      var d := DecideLogin(username, password, passcode);
      granted := d.Granted?;
      if granted {
        Reset();
      } else if d.showError {
        error := WrongCredentials;
      }
    }

    /** The close button calls `onClose` alone: what was typed stays. */
    method Close()
      modifies this
      ensures !isOpen
      ensures username == old(username) && password == old(password)
      ensures passcode == old(passcode) && error == old(error)
    {
      isOpen := false;
    }
  }
}
