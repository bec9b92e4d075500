/**
 * The auth store: the current identity, the name shown for it, and the
 * sign-in, sign-out and identity-refresh operations.
 */
module Auth {
  import opened Wrappers
  import opened Gateway

  /** The names a user may have given in their profile. */
  datatype Metadata = Metadata(displayName: Option<string>, fullName: Option<string>)

  /** An identity as the gateway reports it. */
  datatype User = User(id: string, email: Option<string>, metadata: Option<Metadata>)

  /** What a successful sign-in resolves to: the identity and its session token. */
  datatype SignInData = SignInData(user: Option<User>, session: Option<string>)

  /** How the gateway's "who is signed in" call ended: the user it reports (maybe none), or an exception. */
  datatype UserLookup = Reported(user: Option<User>) | Threw(message: string)

  /** The part of an email address before its first `@` (the whole text when there is none). */
  function LocalPart(email: string): (local: string)
    ensures local <= email && '@' !in local
    ensures |local| < |email| ==> email[|local|] == '@'
  {
    if email == [] || email[0] == '@' then [] else [email[0]] + LocalPart(email[1..])
  }

  /** The local part of `local@domain` is `local`. */
  lemma {:induction false} LocalPartOfAddress(local: string, domain: string)
    requires '@' !in local
    ensures LocalPart(local + "@" + domain) == local
  {
    if local != [] {
      assert (local + "@" + domain)[1..] == local[1..] + "@" + domain;
      LocalPartOfAddress(local[1..], domain);
    }
  }

  /** An optional text that JavaScript treats as true: present and not empty. */
  function NonEmpty(text: Option<string>): Option<string> {
    if text.Some? && text.value != "" then text else None
  }

  /** The three candidates for the shown name, in the order they are tried; "" where absent. */
  function Candidates(u: User): seq<string> {
    var meta := u.metadata.GetOr(Metadata(None, None));
    [meta.displayName.GetOr(""), meta.fullName.GetOr(""), LocalPart(u.email.GetOr(""))]
  }

  /** The first non-empty candidate, or `fallback`. */
  function FirstNonEmpty(candidates: seq<string>, fallback: string): (r: string)
    ensures r == fallback || r in candidates
    ensures r != fallback ==> r != ""
  {
    if candidates == [] then fallback
    else if candidates[0] != "" then candidates[0]
    else FirstNonEmpty(candidates[1..], fallback)
  }

  /** The `displayName` shown for `user`. */
  function DisplayName(user: Option<User>): (name: string)
    ensures name != ""
    ensures user.None? ==> name == "User"
  {
    match user
    case None => "User"
    case Some(u) =>
      var meta := if u.metadata.Some? then u.metadata.value else Metadata(None, None);
      if NonEmpty(meta.displayName).Some? then meta.displayName.value
      else if NonEmpty(meta.fullName).Some? then meta.fullName.value
      else if u.email.Some? && LocalPart(u.email.value) != "" then LocalPart(u.email.value)
      else "User"
  }

  /** The shown name is the first non-empty candidate, tried in order, or "User" when all are empty. */
  lemma DisplayNameIsFirstNonEmpty(u: User)
    ensures DisplayName(Some(u)) == FirstNonEmpty(Candidates(u), "User")
  {
    var c := Candidates(u);
    assert u.email.None? ==> c[2] == "";
    assert FirstNonEmpty(c[2..], "User") == if c[2] != "" then c[2] else "User" by {
      assert c[2..][1..] == [];
    }
    assert FirstNonEmpty(c[1..], "User") == if c[1] != "" then c[1] else FirstNonEmpty(c[2..], "User") by {
      assert c[1..][1..] == c[2..];
    }
  }

  /** With no usable name or email the shown name is "User". */
  lemma DisplayNameFallback(u: User)
    requires u.metadata.None? || (NonEmpty(u.metadata.value.displayName).None? && NonEmpty(u.metadata.value.fullName).None?)
    requires u.email.None? || LocalPart(u.email.value) == ""
    ensures DisplayName(Some(u)) == "User"
  {
  }

  /** A user known only by an address `local@domain` is shown as `local`. */
  lemma DisplayNameFromEmail(u: User, local: string, domain: string)
    requires u.metadata.None? || (NonEmpty(u.metadata.value.displayName).None? && NonEmpty(u.metadata.value.fullName).None?)
    requires u.email == Some(local + "@" + domain) && local != "" && '@' !in local
    ensures DisplayName(Some(u)) == local
  {
    LocalPartOfAddress(local, domain);
  }

  class AuthStore {
    var user: Option<User>
    var loading: bool

    constructor ()
      ensures user == None && !loading
    {
      user := None;
      loading := false;
    }

    /** The `displayName` of the current identity. */
    function Name(): (name: string)
      reads this
      ensures name != ""
      ensures user.None? ==> name == "User"
      ensures user.Some? ==> name == FirstNonEmpty(Candidates(user.value), "User")
    {
      if user.Some? then DisplayNameIsFirstNonEmpty(user.value); DisplayName(user) else DisplayName(user)
    }

    /** Someone is signed in; when no one is, the shown name is the fallback. */
    predicate IsAuthenticated()
      reads this
      ensures IsAuthenticated() <==> user.Some?
      ensures !IsAuthenticated() ==> Name() == "User"
    {
      user.Some?
    }

    /** Stores the identity the gateway signed in and returns its answer; on an error keeps the identity and rethrows. */
    method SignIn(response: Response<SignInData>) returns (r: Result<SignInData>)
      modifies this
      ensures !loading
      ensures response.Ok? ==> user == response.data.user && r == Success(response.data)
      ensures response.Ok? ==> (IsAuthenticated() <==> response.data.user.Some?)
      ensures response.Failed? ==> user == old(user) && r == Failure(Remote(response.error))
    {
      loading := true;
      match response {
        case Ok(data) =>
          user := data.user;
          r := Success(data);
        case Failed(e) =>
          r := Failure(Remote(e));
      }
      loading := false;
    }

    /** Clears the identity once the gateway signs out; on an error keeps it and rethrows. */
    method SignOut(response: Response<()>) returns (r: Result<()>)
      modifies this
      ensures loading == old(loading)
      ensures response.Ok? ==> user == None && r == Success(())
      ensures response.Ok? ==> !IsAuthenticated() && Name() == "User"
      ensures response.Failed? ==> user == old(user) && r == Failure(Remote(response.error))
    {
      match response {
        case Ok(_) =>
          user := None;
          r := Success(());
        case Failed(e) =>
          r := Failure(Remote(e));
      }
    }

    /** Stores and returns the identity the gateway reports; when the call throws, clears it. Never throws. */
    method GetCurrentUser(lookup: UserLookup) returns (current: Option<User>)
      modifies this
      ensures user == current && loading == old(loading)
      ensures IsAuthenticated() <==> current.Some?
      ensures lookup.Reported? ==> current == lookup.user
      ensures lookup.Threw? ==> current == None
    {
      match lookup {
        case Reported(u) =>
          user := u;
        case Threw(_) =>
          user := None;
      }
      current := user;
    }
  }
}
