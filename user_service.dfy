/**
 * The session service of the client: the role and membership rules over the
 * fixed role list, and the session state (refresh token, current user id,
 * change observers, the persisted refresh token) that login, account
 * creation, observer registration and logout update.
 */
module Users {
  import opened Wrappers
  import opened Data

  /** The fixed role order. `Admin` comes after `Member`, as the service has it. */
  const MemberRoles: seq<MemberRole> := [Owner, Member, Admin]

  // ---------------------------------------------------------------------------
  // Role and membership rules
  // ---------------------------------------------------------------------------

  /** The position of the first `x` in `s`, or -1 when `s` holds no `x`. */
  function IndexOf<T(==)>(s: seq<T>, x: T): (r: int)
    ensures -1 <= r < |s|
    ensures r == -1 <==> x !in s
    ensures 0 <= r ==> s[r] == x && x !in s[..r]
  {
    if s == [] then -1
    else if s[0] == x then 0
    else
      var k := IndexOf(s[1..], x);
      if k == -1 then -1
      else
        assert s[..k + 1] == [s[0]] + s[1..][..k];
        k + 1
  }

  /**
   * The roles listed after `role`. The result is a copy: the role list
   * itself is a constant and cannot change.
   */
  function RolesBelow(role: MemberRole): (below: seq<MemberRole>)
    ensures role !in below
    ensures |below| < |MemberRoles|
    ensures below == MemberRoles[|MemberRoles| - |below|..]
    ensures MemberRoles[|MemberRoles| - |below| - 1] == role
  {
    assert role == MemberRoles[if role == Owner then 0 else if role == Member then 1 else 2];
    MemberRoles[IndexOf(MemberRoles, role) + 1..]
  }

  /** The role list as written gives these three answers. */
  lemma RolesBelowCases()
    ensures RolesBelow(Owner) == [Member, Admin]
    ensures RolesBelow(Member) == [Admin]
    ensures RolesBelow(Admin) == []
  {
  }

  /** The German display label of a role. */
  function MemberRoleLabel(role: MemberRole): (text: string)
    ensures text != ""
  {
    match role
    case Admin => "Administrator"
    case Member => "Mitglied"
    case Owner => "Eigentümer"
  }

  /** The three roles have three different labels. */
  lemma MemberRoleLabelInjective(a: MemberRole, b: MemberRole)
    ensures MemberRoleLabel(a) == MemberRoleLabel(b) ==> a == b
  {
  }

  /** The members whose user id is `id`, in list order (a `filter`). */
  function WithUser(members: seq<ClassMember>, id: string): (matching: seq<ClassMember>)
    ensures forall k :: 0 <= k < |matching| ==> matching[k].user == id && matching[k] in members
    ensures matching == [] <==> forall k :: 0 <= k < |members| ==> members[k].user != id
  {
    if members == [] then []
    else if members[0].user == id then [members[0]] + WithUser(members[1..], id)
    else WithUser(members[1..], id)
  }

  /** The head of the filtered list is the first member with that id. */
  lemma {:induction false} WithUserHeadIsFirst(members: seq<ClassMember>, id: string)
    requires WithUser(members, id) != []
    ensures exists i :: 0 <= i < |members| && members[i] == WithUser(members, id)[0]
                        && members[i].user == id
                        && forall j :: 0 <= j < i ==> members[j].user != id
  {
    if members[0].user != id {
      WithUserHeadIsFirst(members[1..], id);
      var i :| 0 <= i < |members[1..]| && members[1..][i] == WithUser(members[1..], id)[0]
               && members[1..][i].user == id
               && forall j :: 0 <= j < i ==> members[1..][j].user != id;
      assert members[i + 1] == WithUser(members, id)[0];
      assert forall j :: 0 <= j < i + 1 ==> members[j].user != id by {
        forall j | 0 <= j < i + 1 ensures members[j].user != id {
          if j > 0 { assert members[j] == members[1..][j - 1]; }
        }
      }
    }
  }

  /** The first member of `memberList` whose user id is `userID`, if any. */
  function GetMember(memberList: seq<ClassMember>, userID: string): (found: Option<ClassMember>)
    ensures found == None <==> forall k :: 0 <= k < |memberList| ==> memberList[k].user != userID
    ensures found.Some? ==>
      exists i :: 0 <= i < |memberList| && memberList[i] == found.value && found.value.user == userID
                  && forall j :: 0 <= j < i ==> memberList[j].user != userID
  {
    var matching := WithUser(memberList, userID);
    if matching == [] then None
    else
      WithUserHeadIsFirst(memberList, userID);
      Some(matching[0])
  }

  // ---------------------------------------------------------------------------
  // Session state
  // ---------------------------------------------------------------------------

  /** The local-storage key under which the refresh token persists. */
  const RefreshTokenKey: string := "refresh-token"

  /** The token headers of a backend response; either may be absent. */
  datatype Headers = Headers(token: Option<string>, refreshToken: Option<string>)

  /** What the login call returns: the user id, the token expiry and the headers. */
  datatype LoginResponse = LoginResponse(userid: string, expires: int, headers: Headers)

  /** What the account-creation call returns: the new user, the token expiry and the headers. */
  datatype AccountResponse = AccountResponse(user: User, expires: int, headers: Headers)

  /** Identifies one registered change handler. */
  type Handler = nat

  /** One invocation of a change handler, with the user it was given. */
  datatype HandlerCall = HandlerCall(handler: Handler, user: Option<User>)

  /** JavaScript truthiness of an optional string: present and not empty. */
  predicate Truthy(s: Option<string>) {
    s.Some? && s.value != ""
  }

  /** The string `localStorage.setItem` stores for a value that may be `undefined`. */
  function StoredString(value: Option<string>): string
  {
    match value
    case Some(s) => s
    case None => "undefined"
  }

  /** The refresh token a new service picks up from local storage. */
  function StoredRefreshToken(storage: map<string, string>): Option<string>
  {
    var stored := if RefreshTokenKey in storage then Some(storage[RefreshTokenKey]) else None;
    if Truthy(stored) then stored else None
  }

  /** The calls made when every handler in `handlers` is given `user`, in order. */
  function Notify(handlers: seq<Handler>, user: Option<User>): (calls: seq<HandlerCall>)
    ensures |calls| == |handlers|
  {
    if handlers == [] then [] else [HandlerCall(handlers[0], user)] + Notify(handlers[1..], user)
  }

  /** Notifying calls each registered handler exactly once, in registration order. */
  lemma {:induction false} NotifyEachOnceInOrder(handlers: seq<Handler>, user: Option<User>)
    ensures forall i :: 0 <= i < |handlers| ==> Notify(handlers, user)[i] == HandlerCall(handlers[i], user)
  {
    if handlers != [] {
      NotifyEachOnceInOrder(handlers[1..], user);
      forall i | 0 <= i < |handlers|
        ensures Notify(handlers, user)[i] == HandlerCall(handlers[i], user)
      {
        if i > 0 { assert handlers[i] == handlers[1..][i - 1]; }
      }
    }
  }

  /** Notifying one more handler appends its one call. */
  lemma {:induction false} NotifySnoc(handlers: seq<Handler>, h: Handler, user: Option<User>)
    ensures Notify(handlers + [h], user) == Notify(handlers, user) + [HandlerCall(h, user)]
  {
    if handlers != [] {
      assert (handlers + [h])[1..] == handlers[1..] + [h];
      NotifySnoc(handlers[1..], h, user);
    }
  }

  /** After logout, a freshly started service finds no refresh token. */
  lemma LogoutForgetsRefreshToken(storage: map<string, string>)
    ensures StoredRefreshToken(storage - {RefreshTokenKey}) == None
  {
  }

  /**
   * After login, a freshly started service finds the refresh token the login
   * response carried, when that token is not empty.
   */
  lemma LoginPersistsRefreshToken(storage: map<string, string>, headers: Headers)
    requires Truthy(headers.refreshToken)
    ensures StoredRefreshToken(storage[RefreshTokenKey := StoredString(headers.refreshToken)])
            == headers.refreshToken
  {
  }

  /**
   * A login response without a refresh-token header leaves the string
   * `"undefined"` in storage, which a freshly started service takes as its
   * refresh token.
   */
  lemma LoginWithoutRefreshHeaderStoresUndefined(storage: map<string, string>, headers: Headers)
    requires headers.refreshToken.None?
    ensures StoredRefreshToken(storage[RefreshTokenKey := StoredString(headers.refreshToken)])
            == Some("undefined")
  {
  }

  /** The session service: its state and the operations that update it. */
  class UserService {
    /** The long-lived token used to renew the access token. */
    var refreshToken: Option<string>
    /** The id of the logged-in user. */
    var currentUserID: Option<string>
    /** The registered change handlers, in registration order. */
    var handlers: seq<Handler>
    /** The browser's local storage. */
    var storage: map<string, string>
    /** The short-lived token the shared HTTP client attaches to requests. */
    var accessToken: Option<string>
    /** The expiry time of every token renewal scheduled so far. */
    ghost var renewals: seq<int>
    /** Every handler call made so far. */
    ghost var calls: seq<HandlerCall>

    /** Starts a service over the given local storage, picking up a stored refresh token. */
    constructor (localStorage: map<string, string>)
      ensures storage == localStorage
      ensures refreshToken == StoredRefreshToken(localStorage)
      ensures currentUserID == None && accessToken == None
      ensures handlers == [] && renewals == [] && calls == []
    {
      storage := localStorage;
      refreshToken := StoredRefreshToken(localStorage);
      currentUserID := None;
      accessToken := None;
      handlers := [];
      renewals := [];
      calls := [];
    }

    /** Takes the tokens of a response: the access token always, the refresh token only when one came. */
    method SetToken(header: Headers)
      modifies this`refreshToken, this`accessToken
      ensures accessToken == header.token
      ensures refreshToken == if Truthy(header.refreshToken) then header.refreshToken else old(refreshToken)
    {
      if Truthy(header.refreshToken) {
        refreshToken := header.refreshToken;
      }
      accessToken := header.token;
    }

    /** Schedules a renewal at `expireDate`, but only while a refresh token is held. */
    method UpdateToken(expireDate: int)
      modifies this`renewals
      ensures renewals == if Truthy(refreshToken) then old(renewals) + [expireDate] else old(renewals)
    {
      if Truthy(refreshToken) {
        renewals := renewals + [expireDate];
      }
    }

    /** Calls every registered handler with `user`, in registration order. */
    method TriggerOnAuthStateChange(user: Option<User>)
      modifies this`calls
      ensures calls == old(calls) + Notify(handlers, user)
    {
      var i := 0;
      while i < |handlers|
        invariant 0 <= i <= |handlers|
        invariant calls == old(calls) + Notify(handlers[..i], user)
      {
        NotifySnoc(handlers[..i], handlers[i], user);
        assert handlers[..i + 1] == handlers[..i] + [handlers[i]];
        calls := calls + [HandlerCall(handlers[i], user)];
        i := i + 1;
      }
      assert handlers[..i] == handlers;
    }

    /** Registers a change handler after those already registered. */
    method OnUserChange(handler: Handler)
      modifies this`handlers
      ensures handlers == old(handlers) + [handler]
    {
      handlers := handlers + [handler];
    }

    /**
     * Completes a login from the login response and the result of the
     * current-user fetch that follows it (`None` when that fetch fails). The
     * user id, tokens, renewal and stored key change either way; the handlers
     * are called, and the login succeeds, only when the fetch succeeds.
     */
    method Login(response: LoginResponse, fetchedUser: Option<User>) returns (succeeded: bool)
      modifies this
      ensures succeeded <==> fetchedUser.Some?
      ensures currentUserID == Some(response.userid)
      ensures accessToken == response.headers.token
      ensures refreshToken == if Truthy(response.headers.refreshToken) then response.headers.refreshToken
                              else old(refreshToken)
      ensures renewals == if Truthy(refreshToken) then old(renewals) + [response.expires] else old(renewals)
      ensures storage == old(storage)[RefreshTokenKey := StoredString(response.headers.refreshToken)]
      ensures handlers == old(handlers)
      ensures calls == if fetchedUser.Some? then old(calls) + Notify(handlers, fetchedUser) else old(calls)
    {
      currentUserID := Some(response.userid);
      SetToken(response.headers);
      UpdateToken(response.expires);
      storage := storage[RefreshTokenKey := StoredString(response.headers.refreshToken)];
      succeeded := fetchedUser.Some?;
      if succeeded {
        TriggerOnAuthStateChange(fetchedUser);
      }
    }

    /** Completes an account creation from its response; local storage is not written. */
    method CreateAccount(response: AccountResponse)
      modifies this
      ensures currentUserID == Some(response.user.id)
      ensures accessToken == response.headers.token
      ensures refreshToken == if Truthy(response.headers.refreshToken) then response.headers.refreshToken
                              else old(refreshToken)
      ensures renewals == if Truthy(refreshToken) then old(renewals) + [response.expires] else old(renewals)
      ensures storage == old(storage)
      ensures handlers == old(handlers)
      ensures calls == old(calls) + Notify(handlers, Some(response.user))
    {
      SetToken(response.headers);
      UpdateToken(response.expires);
      currentUserID := Some(response.user.id);
      TriggerOnAuthStateChange(Some(response.user));
    }

    /** Forgets the persisted refresh token; nothing else changes. */
    method Logout()
      modifies this`storage
      ensures storage == old(storage) - {RefreshTokenKey}
    {
      storage := storage - {RefreshTokenKey};
    }

    /**
     * Whether the logged-in user administers `currentClass`: the first member
     * entry with the user's id has role owner or admin.
     */
    function IsAdmin(currentClass: Class): (admin: bool)
      reads this
      ensures admin <==>
        currentUserID.Some? &&
        exists i :: 0 <= i < |currentClass.members|
                    && currentClass.members[i].user == currentUserID.value
                    && currentClass.members[i].role != Member
                    && forall j :: 0 <= j < i ==> currentClass.members[j].user != currentUserID.value
    {
      match currentUserID
      case None => false
      case Some(id) =>
        match GetMember(currentClass.members, id)
        case None => false
        case Some(m) => m.role == Owner || m.role == Admin
    }
  }
}
