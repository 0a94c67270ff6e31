/** The User document: identity, credential, profile metadata and the schema's
    constraints, setters and defaults. */
module UserModel {
  import opened Common
  import opened Text
  import opened Patterns

  datatype SocialLinks = SocialLinks(linkedin: string, github: string, twitter: string, website: string)

  const NoSocialLinks := SocialLinks("", "", "", "")

  /** A proficiency is a JavaScript number, modelled as a real: 2.5 is a
      proficiency like 2 is. */
  datatype Skill = Skill(name: string, proficiency: Option<real>)

  /** `password` holds the stored credential (a hash, never the plain text). */
  datatype User = User(
    id: Id,
    name: string,
    username: string,
    email: string,
    password: string,
    role: string,
    bio: string,
    avatar: string,
    socialLinks: SocialLinks,
    skills: seq<Skill>,
    resumeUrl: string)

  const DefaultRole := "Freelancer"
  const DefaultAvatar := "https://www.gravatar.com/avatar/?d=mp"

  /** A stored username: at least three characters from `[A-Za-z0-9_-]`. */
  predicate ValidUsername(u: string) {
    |u| >= 3 && UsernameChars(u)
  }

  predicate ValidSkill(s: Skill) {
    s.proficiency.None? || 1.0 <= s.proficiency.value <= 5.0
  }

  /** Every per-record constraint the User schema declares. */
  predicate Valid(u: User) {
    && u.name != ""
    && ValidUsername(u.username)
    && u.email != ""
    && AccountEmail(u.email)
    && u.password != ""
    && |u.bio| <= 500
    && forall k :: 0 <= k < |u.skills| ==> ValidSkill(u.skills[k])
  }

  /** The unique indexes: no two users share an id, a username or an email. */
  predicate Unique(users: seq<User>) {
    forall i, j :: 0 <= i < j < |users| ==>
      && users[i].id != users[j].id
      && users[i].username != users[j].username
      && users[i].email != users[j].email
  }

  /** A user as `User.create` builds it: the username setter trims, and role
      and avatar take their defaults. */
  function NewUser(id: Id, name: string, username: string, email: string, passwordHash: string): (u: User)
    ensures u.id == id && u.name == name && u.email == email && u.password == passwordHash
    ensures u.username == Trim(username)
    ensures u.role == "Freelancer" && u.avatar == "https://www.gravatar.com/avatar/?d=mp"
    ensures u.bio == "" && u.skills == []
  {
    User(id, name, Trim(username), email, passwordHash, DefaultRole, "", DefaultAvatar, NoSocialLinks, [], "")
  }

  /** A valid stored username is its own trim, so a lookup that trims the
      username it is given finds the record under its stored form. */
  lemma ValidUsernameIsTrimmed(u: User)
    requires Valid(u)
    ensures Trim(u.username) == u.username
  {
    TrimKeepsValidUsername(u.username);
  }

  /** A username that passes the character check is already trimmed, so the
      setter leaves it alone. */
  lemma TrimKeepsValidUsername(u: string)
    requires UsernameChars(u)
    ensures Trim(u) == u
  {
    assert NoSpace(u) by {
      forall k | 0 <= k < |u| ensures !IsSpace(u[k]) {
        assert IsUsernameChar(u[k]);
      }
    }
  }
}
