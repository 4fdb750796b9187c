/** The authentication store (`AuthProvider`): the HTTP Basic credential,
    the identity the server confirmed for it, and the browser's storage
    slot under the key "basic". Each reply of the `/auth/me` endpoint is an
    input; each asynchronous step is taken as one atomic transition. */
module AuthContext {
  import opened JsValues
  import Base64

  /** Who the server says the user is: `{email, roles}`. */
  datatype Identity = Identity(email: Option<string>, roles: seq<string>)

  /** The body of a successful `/auth/me` reply: its `username` and the
      `authority` field of each entry of `authorities` (`None` for an entry
      that is null or has no such field). */
  datatype MeData = MeData(username: Option<string>, authorities: Option<seq<Option<string>>>)

  /** A reply of `/auth/me`: success with a body (possibly null), or any failure. */
  datatype MeReply = MeOk(data: Option<MeData>) | MeFailed

  /** The error `login` throws when the server rejects the credential. */
  const InvalidCredentials: JsError := PlainError("Credenciales inválidas")

  /** The error `btoa` throws on a character outside Latin-1 (the wording is
      the browser's; this is Chromium's). */
  const InvalidCharacter: JsError :=
    PlainError("Failed to execute 'btoa' on 'Window': The string to be encoded contains characters outside of the Latin1 range.")

  /** `authorities.map(a => a?.authority).filter(Boolean)`. */
  function RolesOf(authorities: seq<Option<string>>): (roles: seq<string>)
    ensures |roles| <= |authorities|
    ensures forall i :: 0 <= i < |roles| ==> roles[i] != ""
    decreases |authorities|
  {
    if authorities == [] then []
    else (if Truthy(authorities[0]) then [authorities[0].value] else []) + RolesOf(authorities[1..])
  }

  /** A role is kept exactly when it is the non-empty authority of some entry. */
  lemma {:induction false} RolesOfMembership(authorities: seq<Option<string>>, role: string)
    ensures role in RolesOf(authorities) <==> role != "" && Some(role) in authorities
    decreases |authorities|
  {
    if authorities != [] {
      RolesOfMembership(authorities[1..], role);
      assert authorities == [authorities[0]] + authorities[1..];
    }
  }

  /** The roles keep the order of the authorities: extraction commutes with
      concatenation. */
  lemma {:induction false} RolesOfAppend(a: seq<Option<string>>, b: seq<Option<string>>)
    ensures RolesOf(a + b) == RolesOf(a) + RolesOf(b)
    decreases |a|
  {
    if a == [] {
      assert a + b == b;
    } else {
      assert (a + b)[1..] == a[1..] + b;
      RolesOfAppend(a[1..], b);
    }
  }

  /** When every entry carries a non-empty authority, nothing is dropped. */
  lemma {:induction false} RolesOfAllTruthy(authorities: seq<Option<string>>)
    requires forall i :: 0 <= i < |authorities| ==> Truthy(authorities[i])
    ensures |RolesOf(authorities)| == |authorities|
    ensures forall i :: 0 <= i < |authorities| ==> Some(RolesOf(authorities)[i]) == authorities[i]
    decreases |authorities|
  {
    if authorities != [] {
      RolesOfAllTruthy(authorities[1..]);
    }
  }

  /** `data?.authorities || []`. */
  function AuthoritiesOf(data: Option<MeData>): seq<Option<string>> {
    if data.Some? && data.value.authorities.Some? then data.value.authorities.value else []
  }

  /** `{ email: data?.username, roles }` built from a successful reply. */
  function IdentityOf(data: Option<MeData>): (id: Identity)
    ensures data.None? ==> id == Identity(None, [])
    ensures data.Some? ==> id.email == data.value.username
    ensures forall r :: r in id.roles <==> r != "" && Some(r) in AuthoritiesOf(data)
  {
    forall r ensures r in RolesOf(AuthoritiesOf(data)) <==> r != "" && Some(r) in AuthoritiesOf(data) {
      RolesOfMembership(AuthoritiesOf(data), r);
    }
    Identity(if data.Some? then data.value.username else None, RolesOf(AuthoritiesOf(data)))
  }

  /** `btoa(email + ":" + password)`: the HTTP Basic credential of section 2
      of RFC 7617, base 64 encoded; `None` when `btoa` throws. */
  function Credential(email: string, password: string): (token: Option<string>)
    ensures token.Some? <==> Base64.IsLatin1(email + ":" + password)
    ensures token.Some? ==> token.value != ""
    ensures token.Some? ==> Base64.Decode(token.value) == Some(Base64.Latin1Bytes(email + ":" + password))
  {
    Base64.Btoa(email + ":" + password)
  }

  class AuthProvider {
    /** The credential (`basic` state); `None` is null. */
    var basic: Option<string>
    /** The confirmed identity (`user` state); `None` is null. */
    var user: Option<Identity>
    /** The storage slot under the key "basic"; `None` when the key is absent. */
    var stored: Option<string>

    /** `isAuthenticated`: the credential is a non-empty string, so a
        null credential and an empty one both mean signed out. */
    predicate IsAuthenticated()
      reads this
      ensures IsAuthenticated() <==> basic != None && basic != Some("")
    {
      Truthy(basic)
    }

    /** No identity without a credential. */
    ghost predicate Valid()
      reads this
    {
      user.Some? ==> IsAuthenticated()
    }

    /** Mounting the provider: the credential is read from storage, the
        identity starts as null. */
    constructor (saved: Option<string>)
      ensures Valid()
      ensures basic == saved && user == None && stored == saved
    {
      basic := saved;
      user := None;
      stored := saved;
    }

    /** The synchronous part of the effect that runs whenever `basic`
        changes: without a credential, storage and identity are cleared;
        with one, it is written to storage and the query is started. */
    method BeginBootstrap() returns (querying: bool)
      requires Valid()
      modifies this
      ensures Valid()
      ensures basic == old(basic) && querying == IsAuthenticated()
      ensures !querying ==> stored == None && user == None
      ensures querying ==> stored == basic && user == old(user)
    {
      if !Truthy(basic) {
        stored := None;
        user := None;
        return false;
      }
      stored := basic;
      querying := true;
    }

    /** The reply to the bootstrap query started with the credential
        `startedWith`: success sets the identity, failure clears storage,
        identity and credential together. The reply is claimed only while
        that same credential is still held; a reply arriving after the
        credential changed is not modelled. */
    method CompleteBootstrap(startedWith: string, reply: MeReply)
      requires Valid() && startedWith != "" && basic == Some(startedWith)
      modifies this
      ensures Valid()
      ensures reply.MeOk? ==> basic == old(basic) && stored == old(stored) && user == Some(IdentityOf(reply.data))
      ensures reply.MeFailed? ==> basic == None && user == None && stored == None
    {
      match reply
      case MeOk(data) =>
        user := Some(IdentityOf(data));
      case MeFailed =>
        stored := None;
        user := None;
        basic := None;
    }

    /** The whole effect, its query answered by `reply`, when nothing
        interleaves. The re-run that follows a failure (the credential
        changed to null) clears what is already clear, so it changes nothing. */
    method Bootstrap(reply: MeReply)
      requires Valid()
      modifies this
      ensures Valid()
      ensures !old(IsAuthenticated()) ==> basic == old(basic) && stored == None && user == None
      ensures old(IsAuthenticated()) && reply.MeOk? ==>
        basic == old(basic) && stored == old(basic) && user == Some(IdentityOf(reply.data))
      ensures old(IsAuthenticated()) && reply.MeFailed? ==> basic == None && stored == None && user == None
    {
      var querying := BeginBootstrap();
      if querying {
        CompleteBootstrap(basic.value, reply);
      }
    }

    /** `login(email, password)`: the credential is built first (so a
        non-Latin-1 character fails before any query), then checked by
        `/auth/me`. On success credential and identity are set; storage is
        written only by the bootstrap that the new credential triggers. On
        failure nothing changes and "Credenciales inválidas" is thrown. */
    method Login(email: string, password: string, reply: MeReply) returns (err: Option<JsError>)
      requires Valid()
      modifies this
      ensures Valid()
      ensures stored == old(stored)
      ensures Credential(email, password).None? ==>
        err == Some(InvalidCharacter) && basic == old(basic) && user == old(user)
      ensures Credential(email, password).Some? && reply.MeOk? ==>
        err == None && basic == Credential(email, password) && user == Some(IdentityOf(reply.data))
      ensures Credential(email, password).Some? && reply.MeFailed? ==>
        err == Some(InvalidCredentials) && basic == old(basic) && user == old(user)
    {
      var token := Credential(email, password);
      if token.None? {
        return Some(InvalidCharacter);
      }
      match reply
      case MeOk(data) =>
        basic := token;
        user := Some(IdentityOf(data));
        err := None;
      case MeFailed =>
        err := Some(InvalidCredentials);
    }

    /** `logout()`: storage, credential and identity are cleared at once,
        with no query. */
    method Logout()
      modifies this
      ensures Valid()
      ensures basic == None && user == None && stored == None
    {
      stored := None;
      basic := None;
      user := None;
    }
  }

  /** A visit to the login page while signed out, then a logout. The
      provider mounts with nothing usable saved, so its first bootstrap
      clears storage. `login` is answered by `reply`; the bootstrap its new
      credential triggers is answered by `bootReply`. Before the logout the
      storage holds the new credential only when both replies succeed, and
      nothing otherwise; after it the storage is empty and there is no
      identity, whatever happened before. */
  method LoginThenLogout(saved: Option<string>, email: string, password: string, reply: MeReply, bootReply: MeReply)
    returns (store: AuthProvider, storedBeforeLogout: Option<string>)
    requires !Truthy(saved)
    ensures Credential(email, password).Some? && reply.MeOk? && bootReply.MeOk? ==>
      storedBeforeLogout == Credential(email, password)
    ensures Credential(email, password).Some? && reply.MeOk? && bootReply.MeFailed? ==> storedBeforeLogout == None
    ensures !(Credential(email, password).Some? && reply.MeOk?) ==> storedBeforeLogout == None
    ensures !store.IsAuthenticated() && store.user == None && store.stored == None
  {
    store := new AuthProvider(saved);
    var querying := store.BeginBootstrap();
    var err := store.Login(email, password, reply);
    if err.None? {
      store.Bootstrap(bootReply);
    }
    storedBeforeLogout := store.stored;
    store.Logout();
  }
}
