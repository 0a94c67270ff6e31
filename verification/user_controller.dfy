/** The account handlers: registration, sign-in, the profile read and the
    profile updates, and the password reset. Password hashing, hash
    comparison and token signing are parameters: `hash` stands for the salted
    hash, `matches(plain, stored)` for the comparison, `sign(id)` for the
    token. */
module UserController {
  import opened Common
  import opened Text
  import opened Patterns
  import opened UserModel
  import opened Database

  type Hasher = string -> string
  type Matcher = (string, string) -> bool
  type Signer = Id -> string

  const FieldsMissing := Error(Validation, "Please add all fields")
  const EmailTaken := Error(Conflict, "Email already exists")
  const UsernameTaken := Error(Conflict, "Username already taken")
  const SchemaRejected := Error(Validation, "User validation failed")
  const InvalidCredentials := Error(Validation, "Invalid credentials")
  const UserNotFound := Error(NotFound, "User not found")
  const ResetFieldsMissing := Error(Validation, "Please provide both email and new password")
  const ResetNotGmail := Error(Validation, "Please use valid email address")
  const ResetTooShort := Error(Validation, "Password must be at least 6 characters long")
  const ResetNoUser := Error(NotFound, "User not found with this email")
  const ResetFailed := Error(Internal, "Failed to reset password. Please try again.")

  const MinPasswordLength := 6

  /** The reply of register and login. */
  datatype Session = Session(id: Id, name: string, username: string, email: string, token: string)

  /** A user record as `select("-password")` returns it. */
  datatype Profile = Profile(
    id: Id,
    name: string,
    username: string,
    email: string,
    role: string,
    bio: string,
    avatar: string,
    socialLinks: SocialLinks,
    skills: seq<Skill>,
    resumeUrl: string)

  datatype ResetReply = ResetReply(message: string, userId: Id)

  /** The keys of a social-links update that a client supplied. */
  datatype LinksPatch = LinksPatch(linkedin: Option<string>, github: Option<string>,
                                   twitter: Option<string>, website: Option<string>)

  /** The first user with the given email or the given username (`$or`). */
  function UserByEmailOrUsername(s: Store, email: string, username: string): (r: Option<nat>)
    ensures r.Some? ==> r.value < |s.users| && (s.users[r.value].email == email || s.users[r.value].username == username)
    ensures r.Some? ==> forall k :: 0 <= k < r.value ==> s.users[k].email != email && s.users[k].username != username
    ensures r.None? <==> forall k :: 0 <= k < |s.users| ==> s.users[k].email != email && s.users[k].username != username
  {
    Seqs.FindFirst(s.users, (u: User) => u.email == email || u.username == username)
  }

  /** An existing user already holds the username or the email (the unique indexes). */
  predicate Collides(s: Store, u: User) {
    exists k :: 0 <= k < |s.users| && (s.users[k].username == u.username || s.users[k].email == u.email)
  }

  /** POST /api/users/register. The duplicate lookup casts the username
      through the schema's trim setter, as the stored username is; the email
      has no setter and is compared as sent. */
  function RegisterUser(s: Store, freshId: Id, name: string, username: string, email: string, password: string,
                        hash: Hasher, sign: Signer): (r: Result<Reply<Session>>)
    requires FreshUserId(s, freshId)
    ensures (name == "" || username == "" || email == "" || password == "") ==> r == Err(FieldsMissing)
    // the first user matching either field decides the message: its email, or else its username
    ensures name != "" && username != "" && email != "" && password != "" &&
            UserByEmailOrUsername(s, email, Trim(username)).Some? ==>
      var k := UserByEmailOrUsername(s, email, Trim(username)).value;
      r == if s.users[k].email == email then Err(EmailTaken) else Err(UsernameTaken)
    ensures r.Err? && r.error == EmailTaken ==> exists k :: 0 <= k < |s.users| && s.users[k].email == email
    ensures r.Err? && r.error == UsernameTaken ==> exists k :: 0 <= k < |s.users| && s.users[k].username == Trim(username)
    ensures r.Ok? <==>
      && name != "" && username != "" && email != "" && password != ""
      && UserByEmailOrUsername(s, email, Trim(username)).None?
      && Valid(NewUser(freshId, name, username, email, hash(password)))
    ensures r.Ok? ==>
      var u := NewUser(freshId, name, username, email, hash(password));
      && r.value.store == s.(users := s.users + [u])
      && r.value.body == Session(freshId, name, Trim(username), email, sign(freshId))
      // so the unique indexes on username and email never fire
      && !Collides(s, u)
  {
    if name == "" || username == "" || email == "" || password == "" then Err(FieldsMissing)
    else
      match UserByEmailOrUsername(s, email, Trim(username))
      case Some(k) => if s.users[k].email == email then Err(EmailTaken) else Err(UsernameTaken)
      case None =>
        var u := NewUser(freshId, name, username, email, hash(password));
        if !Valid(u) then Err(SchemaRejected)
        else Ok(Reply(s.(users := s.users + [u]), Session(u.id, u.name, u.username, u.email, sign(u.id))))
  }

  /** POST /api/users/login. An unknown email and a wrong password give the
      same error. */
  function LoginUser(s: Store, email: string, password: string, matches: Matcher, sign: Signer): (r: Result<Session>)
    ensures UserByEmail(s, email).None? ==> r == Err(InvalidCredentials)
    ensures UserByEmail(s, email).Some? ==>
      var u := s.users[UserByEmail(s, email).value];
      if matches(password, u.password) then r == Ok(Session(u.id, u.name, u.username, u.email, sign(u.id)))
      else r == Err(InvalidCredentials)
    ensures r.Err? ==> r.error == InvalidCredentials
  {
    match UserByEmail(s, email)
    case None => Err(InvalidCredentials)
    case Some(k) =>
      var u := s.users[k];
      if matches(password, u.password) then Ok(Session(u.id, u.name, u.username, u.email, sign(u.id)))
      else Err(InvalidCredentials)
  }

  function ProfileOf(u: User): (p: Profile)
    ensures p.id == u.id && p.name == u.name && p.username == u.username && p.email == u.email
    ensures p.role == u.role && p.bio == u.bio && p.avatar == u.avatar && p.socialLinks == u.socialLinks
    ensures p.skills == u.skills && p.resumeUrl == u.resumeUrl
  {
    Profile(u.id, u.name, u.username, u.email, u.role, u.bio, u.avatar, u.socialLinks, u.skills, u.resumeUrl)
  }

  /** GET /api/users/me: the requester's record without the credential, or
      null when the account no longer exists. */
  function GetMe(s: Store, requester: Id): (r: Option<Profile>)
    ensures r.None? <==> forall k :: 0 <= k < |s.users| ==> s.users[k].id != requester
    ensures r.Some? ==> exists k :: 0 <= k < |s.users| && s.users[k].id == requester && r.value == ProfileOf(s.users[k])
  {
    match UserById(s, requester)
    case None => None
    case Some(k) => Some(ProfileOf(s.users[k]))
  }

  /** `user.save()`: the schema's checks run over the whole record, then the
      stored copy at index `i` is replaced. */
  function SaveUser(s: Store, i: nat, u: User): (r: Result<Store>)
    requires i < |s.users|
    ensures r.Ok? <==> Valid(u)
    ensures r.Ok? ==> r.value == s.(users := s.users[i := u])
    ensures r.Err? ==> r.error == SchemaRejected
  {
    if Valid(u) then Ok(s.(users := s.users[i := u])) else Err(SchemaRejected)
  }

  /** The requester's record changed by `change` and saved; "User not found"
      when there is no such record. */
  function ChangeUser(s: Store, requester: Id, change: User -> User): (r: Result<Reply<User>>)
    ensures UserById(s, requester).None? ==> r == Err(UserNotFound)
    ensures UserById(s, requester).Some? ==>
      var i := UserById(s, requester).value;
      var u := change(s.users[i]);
      if Valid(u) then r == Ok(Reply(s.(users := s.users[i := u]), u)) else r == Err(SchemaRejected)
  {
    match UserById(s, requester)
    case None => Err(UserNotFound)
    case Some(i) =>
      var u := change(s.users[i]);
      var s' :- SaveUser(s, i, u);
      Ok(Reply(s', u))
  }

  /** PUT /api/users/profile: name, bio and role, each kept when sent empty. */
  function UpdateProfile(s: Store, requester: Id, name: string, bio: string, role: string): (r: Result<Reply<User>>)
    ensures UserById(s, requester).None? ==> r == Err(UserNotFound)
    ensures r.Ok? ==>
      var u := s.users[UserById(s, requester).value];
      && r.value.body == u.(name := Or(name, u.name), bio := Or(bio, u.bio), role := Or(role, u.role))
      && r.value.store == s.(users := s.users[UserById(s, requester).value := r.value.body])
    // the save runs the schema over the whole record: a bio over 500 characters is refused
    ensures UserById(s, requester).Some? ==>
      var u := s.users[UserById(s, requester).value];
      r.Ok? <==> Valid(u.(name := Or(name, u.name), bio := Or(bio, u.bio), role := Or(role, u.role)))
    ensures r.Err? ==> r.error in {UserNotFound, SchemaRejected}
  {
    ChangeUser(s, requester, (u: User) => u.(name := Or(name, u.name), bio := Or(bio, u.bio),
                                            role := Or(role, u.role)))
  }

  /** PUT /api/users/avatar: the avatar is replaced by whatever was sent. */
  function UpdateAvatar(s: Store, requester: Id, avatarUrl: string): (r: Result<Reply<User>>)
    ensures UserById(s, requester).None? ==> r == Err(UserNotFound)
    ensures r.Ok? ==>
      var i := UserById(s, requester).value;
      r.value.body == s.users[i].(avatar := avatarUrl) && r.value.store == s.(users := s.users[i := r.value.body])
    ensures UserById(s, requester).Some? && Valid(s.users[UserById(s, requester).value]) ==> r.Ok?
  {
    ChangeUser(s, requester, (u: User) => u.(avatar := avatarUrl))
  }

  /** `{ ...current, ...patch }` on the social links. */
  function MergeLinks(current: SocialLinks, patch: LinksPatch): (r: SocialLinks)
    ensures r.linkedin == patch.linkedin.GetOr(current.linkedin)
    ensures r.github == patch.github.GetOr(current.github)
    ensures r.twitter == patch.twitter.GetOr(current.twitter)
    ensures r.website == patch.website.GetOr(current.website)
  {
    SocialLinks(patch.linkedin.GetOr(current.linkedin), patch.github.GetOr(current.github),
                patch.twitter.GetOr(current.twitter), patch.website.GetOr(current.website))
  }

  /** PUT /api/users/social-links: a shallow merge over the current links. */
  function UpdateSocialLinks(s: Store, requester: Id, patch: LinksPatch): (r: Result<Reply<User>>)
    ensures UserById(s, requester).None? ==> r == Err(UserNotFound)
    ensures r.Ok? ==>
      var i := UserById(s, requester).value;
      && r.value.body == s.users[i].(socialLinks := MergeLinks(s.users[i].socialLinks, patch))
      && r.value.store == s.(users := s.users[i := r.value.body])
    ensures UserById(s, requester).Some? && Valid(s.users[UserById(s, requester).value]) ==> r.Ok?
  {
    ChangeUser(s, requester, (u: User) => u.(socialLinks := MergeLinks(u.socialLinks, patch)))
  }

  /** PUT /api/users/skills: the skill list is replaced; a proficiency outside
      1..5 makes the save fail. */
  function UpdateSkills(s: Store, requester: Id, skills: seq<Skill>): (r: Result<Reply<User>>)
    ensures UserById(s, requester).None? ==> r == Err(UserNotFound)
    ensures r.Ok? ==>
      var i := UserById(s, requester).value;
      && r.value.body == s.users[i].(skills := skills)
      && r.value.store == s.(users := s.users[i := r.value.body])
      && forall k :: 0 <= k < |skills| ==> ValidSkill(skills[k])
    ensures (exists k :: 0 <= k < |skills| && !ValidSkill(skills[k])) ==> r.Err?
    // the save runs the schema over the whole record, with the new list in place
    ensures UserById(s, requester).Some? ==>
      (r.Ok? <==> Valid(s.users[UserById(s, requester).value].(skills := skills)))
    ensures r.Err? ==> r.error in {UserNotFound, SchemaRejected}
  {
    ChangeUser(s, requester, (u: User) => u.(skills := skills))
  }

  /** POST /api/users/resume: the resume link is replaced. */
  function UploadResume(s: Store, requester: Id, resumeUrl: string): (r: Result<Reply<User>>)
    ensures UserById(s, requester).None? ==> r == Err(UserNotFound)
    ensures r.Ok? ==>
      var i := UserById(s, requester).value;
      r.value.body == s.users[i].(resumeUrl := resumeUrl) && r.value.store == s.(users := s.users[i := r.value.body])
    ensures UserById(s, requester).Some? && Valid(s.users[UserById(s, requester).value]) ==> r.Ok?
  {
    ChangeUser(s, requester, (u: User) => u.(resumeUrl := resumeUrl))
  }

  /** POST /api/users/reset-password. The checks run in order: both fields,
      the address suffix, the password length, the account; a failed save is
      reported as an internal failure. No proof of identity is asked for. */
  function ResetPassword(s: Store, email: string, newPassword: string, hash: Hasher): (r: Result<Reply<ResetReply>>)
    ensures (email == "" || newPassword == "") ==> r == Err(ResetFieldsMissing)
    ensures email != "" && newPassword != "" && !IsGmail(email) ==> r == Err(ResetNotGmail)
    ensures email != "" && IsGmail(email) && 0 < |newPassword| < MinPasswordLength ==> r == Err(ResetTooShort)
    ensures IsGmail(email) && |newPassword| >= MinPasswordLength && UserByEmail(s, email).None? ==>
      r == Err(ResetNoUser)
    ensures r.Ok? <==>
      && IsGmail(email) && |newPassword| >= MinPasswordLength
      && UserByEmail(s, email).Some?
      && Valid(s.users[UserByEmail(s, email).value].(password := hash(newPassword)))
    ensures r.Ok? ==>
      var i := UserByEmail(s, email).value;
      && r.value.store == s.(users := s.users[i := s.users[i].(password := hash(newPassword))])
      && r.value.body == ResetReply("Password reset successful", s.users[i].id)
    ensures r.Err? ==> r.error in {ResetFieldsMissing, ResetNotGmail, ResetTooShort, ResetNoUser, ResetFailed}
  {
    if email == "" || newPassword == "" then Err(ResetFieldsMissing)
    else if !IsGmail(email) then Err(ResetNotGmail)
    else if |newPassword| < MinPasswordLength then Err(ResetTooShort)
    else
      match UserByEmail(s, email)
      case None => Err(ResetNoUser)
      case Some(i) =>
        var u := s.users[i].(password := hash(newPassword));
        match SaveUser(s, i, u)
        case Err(_) => Err(ResetFailed)
        case Ok(s') => Ok(Reply(s', ResetReply("Password reset successful", u.id)))
  }

  // ---- properties across handlers ----

  /** Replacing a record by one with the same id moves no id lookup. */
  lemma {:induction false} SameIdKeepsUserById(s: Store, i: nat, u: User, id: Id)
    requires i < |s.users| && u.id == s.users[i].id
    ensures UserById(s.(users := s.users[i := u]), id) == UserById(s, id)
  {
    var s' := s.(users := s.users[i := u]);
    assert forall k :: 0 <= k < |s.users| ==> s'.users[k].id == s.users[k].id;
    var a, b := UserById(s', id), UserById(s, id);
    if a.Some? && b.Some? {
      assert !(a.value < b.value) && !(b.value < a.value);
    }
  }

  /** A profile update with every field empty keeps a valid record as it is. */
  lemma EmptyProfileUpdate(s: Store, requester: Id)
    requires UserById(s, requester).Some?
    requires Valid(s.users[UserById(s, requester).value])
    ensures UpdateProfile(s, requester, "", "", "") == Ok(Reply(s, s.users[UserById(s, requester).value]))
  {
    var i := UserById(s, requester).value;
    assert s.users[i := s.users[i]] == s.users;
  }

  /** Sending the same profile update twice leaves what the first one stored. */
  lemma {:induction false} ProfileUpdateTwice(s: Store, requester: Id, name: string, bio: string, role: string)
    requires UpdateProfile(s, requester, name, bio, role).Ok?
    ensures var rep := UpdateProfile(s, requester, name, bio, role).value;
      UpdateProfile(rep.store, requester, name, bio, role) == Ok(rep)
  {
    var rep := UpdateProfile(s, requester, name, bio, role).value;
    var i := UserById(s, requester).value;
    SameIdKeepsUserById(s, i, rep.body, requester);
    assert rep.store.users[i := rep.body] == rep.store.users;
  }

  /** Sending a valid user's own skill list back changes nothing. */
  lemma SameSkillsUpdate(s: Store, requester: Id)
    requires UserById(s, requester).Some?
    requires Valid(s.users[UserById(s, requester).value])
    ensures var u := s.users[UserById(s, requester).value];
      UpdateSkills(s, requester, u.skills) == Ok(Reply(s, u))
  {
    var i := UserById(s, requester).value;
    assert s.users[i := s.users[i]] == s.users;
  }

  /** A second update with the same list leaves what the first one stored. */
  lemma {:induction false} SkillsUpdateTwice(s: Store, requester: Id, skills: seq<Skill>)
    requires UpdateSkills(s, requester, skills).Ok?
    ensures var rep := UpdateSkills(s, requester, skills).value;
      UpdateSkills(rep.store, requester, skills) == Ok(rep)
  {
    var rep := UpdateSkills(s, requester, skills).value;
    var i := UserById(s, requester).value;
    SameIdKeepsUserById(s, i, rep.body, requester);
    assert rep.store.users[i := rep.body] == rep.store.users;
  }

  /** Registration keeps ids, usernames and emails unique. */
  lemma RegisterKeepsUnique(s: Store, freshId: Id, name: string, username: string, email: string, password: string,
                            hash: Hasher, sign: Signer)
    requires FreshUserId(s, freshId)
    requires Unique(s.users)
    ensures var r := RegisterUser(s, freshId, name, username, email, password, hash, sign);
      r.Ok? ==> Unique(r.value.store.users)
  {
  }

  /** A taken username sent with a leading blank is trimmed before the
      duplicate lookup, so it is refused as taken. */
  lemma {:induction false} PaddedUsernameIsTaken(s: Store, freshId: Id, name: string, taken: string, email: string,
                                                 password: string, hash: Hasher, sign: Signer)
    requires FreshUserId(s, freshId)
    requires name != "" && email != "" && password != ""
    requires UsernameChars(taken)
    requires exists k :: 0 <= k < |s.users| && s.users[k].username == taken
    requires forall k :: 0 <= k < |s.users| ==> s.users[k].email != email
    ensures RegisterUser(s, freshId, name, " " + taken, email, password, hash, sign) == Err(UsernameTaken)
  {
    TrimKeepsValidUsername(taken);
    TrimDropsLeadingSpace(taken);
    assert Trim(" " + taken) == taken;
  }

  /** A freshly registered account can sign in with the password it was
      registered with, when the comparison accepts what the hash produced. */
  lemma {:induction false} RegisterThenLogin(s: Store, freshId: Id, name: string, username: string, email: string,
                                             password: string, hash: Hasher, matches: Matcher, sign: Signer)
    requires FreshUserId(s, freshId)
    requires matches(password, hash(password))
    requires RegisterUser(s, freshId, name, username, email, password, hash, sign).Ok?
    ensures var rep := RegisterUser(s, freshId, name, username, email, password, hash, sign).value;
      LoginUser(rep.store, email, password, matches, sign) == Ok(rep.body)
  {
    var rep := RegisterUser(s, freshId, name, username, email, password, hash, sign).value;
    var n := |s.users|;
    assert rep.store.users[n].email == email;
    assert UserByEmail(rep.store, email) == Some(n) by {
      var f := UserByEmail(rep.store, email);
      assert f.Some?;
      assert !(f.value < n);
    }
  }

  /** After a successful reset, signing in with the new password succeeds,
      whoever asked for the reset. */
  lemma {:induction false} ResetThenLogin(s: Store, email: string, newPassword: string, hash: Hasher,
                                          matches: Matcher, sign: Signer)
    requires matches(newPassword, hash(newPassword))
    requires ResetPassword(s, email, newPassword, hash).Ok?
    ensures var rep := ResetPassword(s, email, newPassword, hash).value;
      LoginUser(rep.store, email, newPassword, matches, sign).Ok?
      && LoginUser(rep.store, email, newPassword, matches, sign).value.id == rep.body.userId
  {
    var i := UserByEmail(s, email).value;
    var rep := ResetPassword(s, email, newPassword, hash).value;
    assert UserByEmail(rep.store, email) == Some(i) by {
      var f := UserByEmail(rep.store, email);
      assert rep.store.users[i].email == email;
      assert f.Some?;
      assert !(f.value < i);
      assert !(i < f.value);
    }
  }
}
