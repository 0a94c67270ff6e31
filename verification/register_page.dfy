/** The sign-up form: the per-field validator and the submit gate that decides
    whether a register request is sent and with which body. An empty form
    field is "". */
module RegisterPage {
  import opened Common
  import opened Text
  import opened Patterns
  import opened Database
  import opened UserModel
  import UserController
  import PortfolioModel
  import PortfolioController

  datatype FieldName = NameField | UsernameField | EmailField | PasswordField | Password2Field

  const NameTooShort := "Name must be at least 3 characters long"
  const UsernameBadChars := "Username can only contain letters, numbers, underscores and hyphens"
  const UsernameTooShort := "Username must be at least 3 characters long"
  const NotGmail := "Please use valid Gmail address (must end with @gmail.com)"
  const PasswordTooShort := "Password must be at least 6 characters long"
  const PasswordsDiffer := "Passwords do not match"

  /** The message shown under one field; "" means no error. `password` is the
      password field's current content, which the confirmation is compared to. */
  function ValidateField(field: FieldName, value: string, password: string): (r: string)
    // an empty field never shows an error
    ensures value == "" ==> r == ""
    ensures field == NameField ==> (r == "" <==> value == "" || |value| >= 3)
    // the character check is reported before the length check
    ensures field == UsernameField && value != "" && !UsernameChars(value) ==> r == UsernameBadChars
    ensures field == UsernameField ==> (r == "" <==> value == "" || ValidUsername(value))
    ensures field == EmailField ==> (r == "" <==> value == "" || IsGmail(value))
    ensures field == PasswordField ==> (r == "" <==> value == "" || |value| >= 6)
    ensures field == Password2Field ==> (r == "" <==> value == "" || value == password)
  {
    if value == "" then ""
    else
      match field
      case NameField => if |value| < 3 then NameTooShort else ""
      case UsernameField =>
        if !UsernameChars(value) then UsernameBadChars
        else if |value| < 3 then UsernameTooShort
        else ""
      case EmailField => if !IsGmail(value) then NotGmail else ""
      case PasswordField => if |value| < 6 then PasswordTooShort else ""
      case Password2Field => if value != password then PasswordsDiffer else ""
  }

  datatype RegisterForm = RegisterForm(name: string, username: string, email: string, password: string, password2: string)

  /** One message per field, "" where the field is fine. */
  datatype FieldErrors = FieldErrors(name: string, username: string, email: string, password: string, password2: string)

  /** The register request body; the confirmation is not sent. */
  datatype RegisterBody = RegisterBody(name: string, username: string, email: string, password: string)

  /** What a submit does: refuse an incomplete form, show the field errors, or
      send the request. */
  datatype Submit = FillAllFields | ShowErrors(errors: FieldErrors) | Dispatch(body: RegisterBody)

  function ErrorsOf(f: RegisterForm): FieldErrors {
    FieldErrors(ValidateField(NameField, f.name, f.password),
                ValidateField(UsernameField, f.username, f.password),
                ValidateField(EmailField, f.email, f.password),
                ValidateField(PasswordField, f.password, f.password),
                ValidateField(Password2Field, f.password2, f.password))
  }

  predicate NoErrors(e: FieldErrors) {
    e.name == "" && e.username == "" && e.email == "" && e.password == "" && e.password2 == ""
  }

  predicate Complete(f: RegisterForm) {
    f.name != "" && f.username != "" && f.email != "" && f.password != "" && f.password2 != ""
  }

  /** Every field filled and acceptable, stated without the validator. */
  predicate Acceptable(f: RegisterForm) {
    && |f.name| >= 3
    && ValidUsername(f.username)
    && IsGmail(f.email)
    && |f.password| >= 6
    && f.password2 == f.password
  }

  /** The submit handler. */
  function OnSubmit(f: RegisterForm): (r: Submit)
    ensures r == FillAllFields <==> !Complete(f)
    ensures r.Dispatch? <==> Acceptable(f)
    ensures r.Dispatch? ==> r.body == RegisterBody(f.name, f.username, f.email, f.password)
    ensures r.ShowErrors? ==> Complete(f) && !NoErrors(r.errors)
  {
    if !Complete(f) then FillAllFields
    else
      var errors := ErrorsOf(f);
      if !NoErrors(errors) then ShowErrors(errors)
      else Dispatch(RegisterBody(f.name, f.username, f.email, f.password))
  }

  /** A request the form sends passes the server's field check, and its
      username is stored exactly as typed and satisfies the schema's username
      rule. */
  lemma {:induction false} DispatchedUsernameIsStored(s: Store, f: RegisterForm, freshId: Id,
                                                      hash: UserController.Hasher, sign: UserController.Signer)
    requires FreshUserId(s, freshId)
    requires OnSubmit(f).Dispatch?
    ensures var b := OnSubmit(f).body;
      && UserController.RegisterUser(s, freshId, b.name, b.username, b.email, b.password, hash, sign)
         != Err(UserController.FieldsMissing)
      && NewUser(freshId, b.name, b.username, b.email, hash(b.password)).username == b.username
      && ValidUsername(NewUser(freshId, b.name, b.username, b.email, hash(b.password)).username)
  {
    TrimKeepsValidUsername(f.username);
  }

  /** The form's address check is looser than the schema's: a bare
      "@gmail.com" is sent, and the server refuses it for every store. */
  lemma {:induction false} BareGmailIsSentButRefused(s: Store, freshId: Id,
                                                     hash: UserController.Hasher, sign: UserController.Signer)
    requires FreshUserId(s, freshId)
    ensures OnSubmit(RegisterForm("Ann", "ann", GmailSuffix, "secret", "secret")).Dispatch?
    ensures UserController.RegisterUser(s, freshId, "Ann", "ann", GmailSuffix, "secret", hash, sign).Err?
  {
    BareGmailPassesForm();
    BareGmailIsNoAccountEmail();
    assert !Valid(NewUser(freshId, "Ann", "ann", GmailSuffix, hash("secret")));
  }

  lemma BareGmailPassesForm()
    ensures Acceptable(RegisterForm("Ann", "ann", GmailSuffix, "secret", "secret"))
  {
    var e := GmailSuffix;
    assert e[|e| - |GmailSuffix|..] == GmailSuffix;
    assert ValidUsername("ann");
  }

  lemma BareGmailIsNoAccountEmail()
    ensures !AccountEmail(GmailSuffix)
  {
    var e := GmailSuffix;
    forall a | 0 <= a < |e| && e[a] == '@'
      ensures !DottedWords(e[..a])
    {
      assert a == 0;
    }
  }

  // ---- after a successful sign-up ----

  /** The portfolio the page asks the server to create once the account
      exists: a hero titled after the user, the account's address as the
      contact email, public, light theme, and a blue customization. It names no
      owner, so it goes to the requester; the hero background the page leaves
      out takes the schema default. */
  function StarterPortfolio(name: string, email: string): (b: PortfolioModel.PortfolioBody)
    ensures b.user.None? && b.contact.Some? && b.contact.value.email == email
    ensures b.isPublic == Some(true) && b.views.None?
  {
    PortfolioModel.EmptyBody.(
      hero := Some(PortfolioModel.Hero(name + "'s Portfolio", "Welcome to my portfolio",
                                       PortfolioModel.DefaultBackground, "View My Work", "#projects")),
      about := Some(PortfolioModel.About("About Me", "Add your bio here", [], "")),
      contact := Some(PortfolioModel.EmptyContact.(email := email)),
      isPublic := Some(true),
      theme := Some("light"),
      customization := Some(PortfolioModel.Customization("#3B82F6", "#1E40AF", "Inter", "modern", "comfortable")))
  }

  /** The starter portfolio is created for a requester who owns none exactly
      when the account's address also passes the portfolio schema's looser
      contact-email pattern; every other field it sends is valid. */
  lemma StarterPortfolioAccepted(s: Store, requester: Id, name: string, email: string, freshId: Id,
                                 validUrl: PortfolioModel.UrlCheck)
    requires FreshPortfolioId(s, freshId)
    requires requester != ""
    requires !PortfolioController.OwnsPortfolio(s, requester)
    ensures PortfolioController.CreatePortfolio(s, requester, StarterPortfolio(name, email), freshId, validUrl).Ok?
            <==> LooseEmail(email)
  {
  }
}
