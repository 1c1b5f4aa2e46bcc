/** The sign-in / sign-up form of
    app-zone/src/components/login-form/login-form.tsx: the ordered checks of
    `validateForm`, which stop at the first failure and show its message,
    and `toggleMode`, which switches between the two modes and clears the
    form. The component's state hooks are the fields of a class. */
module LoginForm {
  import opened Common

  datatype Mode = LoginMode | SignupMode

  /** The form's fields. */
  datatype FormData = FormData(email: string, password: string, username: string,
                               confirmPassword: string, rememberMe: bool)

  const EmptyForm: FormData := FormData("", "", "", "", false)

  const MissingCredentials: string := "Email e senha são obrigatórios"
  const InvalidEmail: string := "Email inválido"
  const ShortPassword: string := "Senha deve ter pelo menos 6 caracteres"
  const MissingUsername: string := "Nome de usuário é obrigatório"
  const ShortUsername: string := "Nome de usuário deve ter pelo menos 3 caracteres"
  const PasswordMismatch: string := "Senhas não conferem"

  /** The characters of the regular-expression class `\s`. */
  predicate IsSpace(c: char)
  {
    c == '\t' || c == '\n' || c == '\U{000B}' || c == '\U{000C}' || c == '\r' || c == ' ' ||
    c == '\U{00A0}' || c == '\U{1680}' || ('\U{2000}' <= c <= '\U{200A}') ||
    c == '\U{2028}' || c == '\U{2029}' || c == '\U{202F}' || c == '\U{205F}' ||
    c == '\U{3000}' || c == '\U{FEFF}'
  }

  /** A character of `[^\s@]`. */
  predicate Plain(c: char)
  {
    c != '@' && !IsSpace(c)
  }

  /** `s` matches `^[^\s@]+@[^\s@]+\.[^\s@]+$` with the '@' at `at` and the
      chosen dot at `dot`: every other character is plain, and each of the
      three runs is non-empty. */
  predicate EmailSplitAt(s: string, at: int, dot: int)
  {
    0 < at && at + 1 < dot < |s| - 1 && s[at] == '@' && s[dot] == '.' &&
    forall k | 0 <= k < |s| && k != at :: Plain(s[k])
  }

  predicate EmailShape(s: string)
  {
    exists at, dot | 0 <= at < |s| && 0 <= dot < |s| :: EmailSplitAt(s, at, dot)
  }

  function Flipped(m: Mode): Mode
  {
    if m == LoginMode then SignupMode else LoginMode
  }

  /** The message `validateForm` leaves in `localError`, or `None` when the
      form is valid. */
  function ValidationError(mode: Mode, f: FormData): Option<string>
  {
    if f.email == "" || f.password == "" then Some(MissingCredentials)
    else if !EmailShape(f.email) then Some(InvalidEmail)
    else if Utf16Length(f.password) < 6 then Some(ShortPassword)
    else if mode == SignupMode then
      if f.username == "" then Some(MissingUsername)
      else if Utf16Length(f.username) < 3 then Some(ShortUsername)
      else if f.password != f.confirmPassword then Some(PasswordMismatch)
      else None
    else None
  }

  class Form {
    var mode: Mode
    var form: FormData
    var localError: Option<string>
    var success: Option<string>

    constructor ()
      ensures mode == LoginMode && form == EmptyForm && localError == None && success == None
    {
      mode := LoginMode;
      form := EmptyForm;
      localError := None;
      success := None;
    }

    /** `validateForm()`: the first failing check sets its message. */
    method ValidateForm() returns (valid: bool)
      modifies this`localError
      ensures valid <==> ValidationError(mode, form) == None
      ensures localError == if valid then old(localError) else ValidationError(mode, form)
    {
      if form.email == "" || form.password == "" {
        localError := Some(MissingCredentials);
        return false;
      }
      if !EmailShape(form.email) {
        localError := Some(InvalidEmail);
        return false;
      }
      if Utf16Length(form.password) < 6 {
        localError := Some(ShortPassword);
        return false;
      }
      if mode == SignupMode {
        if form.username == "" {
          localError := Some(MissingUsername);
          return false;
        }
        if Utf16Length(form.username) < 3 {
          localError := Some(ShortUsername);
          return false;
        }
        if form.password != form.confirmPassword {
          localError := Some(PasswordMismatch);
          return false;
        }
      }
      return true;
    }

    /** `toggleMode()`. */
    method ToggleMode()
      modifies this`mode, this`form, this`localError, this`success
      ensures mode == Flipped(old(mode)) && mode != old(mode)
      ensures form == EmptyForm && localError == None && success == None
    {
      mode := if mode == LoginMode then SignupMode else LoginMode;
      localError := None;
      success := None;
      form := EmptyForm;
    }
  }

  // -----------------------------------------------------------------------
  // Properties
  // -----------------------------------------------------------------------

  /** In login mode the form passes exactly when both fields are filled, the
      e-mail has its shape and the password has at least six characters. */
  lemma LoginAcceptsExactly(f: FormData)
    ensures ValidationError(LoginMode, f) == None <==>
              f.email != "" && f.password != "" && EmailShape(f.email) && Utf16Length(f.password) >= 6
  {
  }

  /** Sign-up asks for everything login asks for, a username of at least
      three characters and a repeated password. */
  lemma SignupAcceptsExactly(f: FormData)
    ensures ValidationError(SignupMode, f) == None <==>
              ValidationError(LoginMode, f) == None && Utf16Length(f.username) >= 3 && f.password == f.confirmPassword
  {
  }

  /** Sign-up runs the login checks first: whenever login mode refuses the
      form, sign-up refuses it with the same message. */
  lemma SignupChecksLoginFirst(f: FormData)
    ensures ValidationError(LoginMode, f) != None ==> ValidationError(SignupMode, f) == ValidationError(LoginMode, f)
  {
  }

  /** Each message belongs to one failing check, and earlier checks win. */
  lemma MessagesInOrder(mode: Mode, f: FormData)
    ensures ValidationError(mode, f) == Some(MissingCredentials) <==> f.email == "" || f.password == ""
    ensures ValidationError(mode, f) == Some(InvalidEmail) <==> f.email != "" && f.password != "" && !EmailShape(f.email)
    ensures ValidationError(mode, f) == Some(PasswordMismatch) ==>
              mode == SignupMode && Utf16Length(f.username) >= 3 && Utf16Length(f.password) >= 6 && f.password != f.confirmPassword
  {
  }

  /** A valid e-mail has no white space, at least five characters, and a
      dot after its '@'. */
  lemma EmailShapeMeans(s: string)
    requires EmailShape(s)
    ensures |s| >= 5
    ensures forall k :: 0 <= k < |s| ==> !IsSpace(s[k])
    ensures exists at | 0 < at < |s| :: s[at] == '@' && Contains(s[at + 1..], ".")
  {
    var at, dot :| 0 <= at < |s| && 0 <= dot < |s| && EmailSplitAt(s, at, dot);
    assert OccursAt(s[at + 1..], ".", dot - at - 1);
  }

  /** The pattern on examples. */
  lemma EmailExamples()
    ensures EmailShape("a@b.co")
    ensures !EmailShape("a@b")
    ensures !EmailShape("@b.c")
    ensures !EmailShape("a b@c.d")
  {
    assert EmailSplitAt("a@b.co", 1, 3);
    assert IsSpace("a b@c.d"[1]);
  }

  /** Toggling twice comes back to the same mode. */
  lemma ToggleTwice(m: Mode)
    ensures Flipped(Flipped(m)) == m && Flipped(m) != m
  {
  }
}
