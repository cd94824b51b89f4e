/** The session and reward store of src/utils/auth.ts. The session lives in the browser store
    under two keys, `sb-auth-token` and `sb-user`. Every call to the remote profile service is one
    abstract step whose outcome is a parameter: the reply of `signInWithPassword`/`signUp`, the
    profile row that `select` returned, or whether an `insert`/`update` succeeded. A thrown
    `Error` is a `Failure` carrying its message. */
module Auth {
  import opened Records
  import Browser

  type Store = Browser.Store

  const AuthTokenKey: string := "sb-auth-token"
  const UserKey: string := "sb-user"

  /** What `supabase.auth.signInWithPassword` / `signUp` gave back: an error, a reply without a
      user, or a user with its e-mail and, when a session was opened, its access token. */
  datatype AuthReply =
    | AuthError(message: string)
    | NoUser
    | Authenticated(userId: string, email: Option<string>, accessToken: Option<string>)

  /** A row of the `profiles` table as `select('*')` returns it; absent columns are `None`. */
  datatype ProfileRow = ProfileRow(
    name: string,
    pincode: Option<string>,
    address: Option<string>,
    rewardPoints: Option<int>,
    createdAt: Option<string>)

  /** What `register` receives from the form. */
  datatype RegisterData = RegisterData(
    name: string, email: string, password: string, pincode: string, address: string)

  /** The column values `updateUser` sends to `profiles.update(...).eq('id', id)`. */
  datatype ProfileWrite = ProfileWrite(
    id: string, name: string, pincode: string, address: string, rewardPoints: int)

  /** `x || fallback` on an optional string: an absent value and `''` both take the fallback. */
  function OrElse(x: Option<string>, fallback: string): (r: string)
    ensures x.Some? && x.value != "" ==> r == x.value
    ensures (x.None? || x.value == "") ==> r == fallback
  {
    if x.Some? && x.value != "" then x.value else fallback
  }

  // ---------------------------------------------------------------- pure reads of the store

  /** `isAuthenticated()`: the token key is present, whatever it holds (the empty token too). */
  predicate IsAuthenticated(items: Store)
  {
    AuthTokenKey in items
  }

  /** Being signed in depends on the token key alone: any value stored there counts, removing it
      signs out, and the user record plays no part (a store with a token and no user record is
      authenticated). */
  lemma AuthenticatedByTokenAlone(items: Store, token: Browser.StoredValue, record: Browser.StoredValue)
    ensures IsAuthenticated(items[AuthTokenKey := token])
    ensures !IsAuthenticated(items - {AuthTokenKey})
    ensures IsAuthenticated(items[UserKey := record]) == IsAuthenticated(items)
    ensures IsAuthenticated(items - {UserKey}) == IsAuthenticated(items)
  {
  }

  /** `getCurrentUser()`: the record stored under `sb-user`, or null. */
  function CurrentUser(items: Store): (r: Option<User>)
    ensures r.Some? <==> UserKey in items && items[UserKey].UserJson?
    ensures r.Some? ==> items[UserKey] == Browser.UserJson(r.value)
  {
    if UserKey in items && items[UserKey].UserJson? then Some(items[UserKey].user) else None
  }

  // ---------------------------------------------------------------- session writes

  /** The two `setItem` calls that end `login` and `register`. */
  function SignedIn(items: Store, token: string, u: User): (r: Store)
    ensures IsAuthenticated(r) && CurrentUser(r) == Some(u)
    ensures r[AuthTokenKey] == Browser.Raw(token)
    ensures forall k :: k != AuthTokenKey && k != UserKey ==> (k in r <==> k in items)
    ensures forall k :: k in items && k != AuthTokenKey && k != UserKey ==> r[k] == items[k]
  {
    items[AuthTokenKey := Browser.Raw(token)][UserKey := Browser.UserJson(u)]
  }

  /** The two `removeItem` calls of `logout`. */
  function SignedOut(items: Store): (r: Store)
    ensures !IsAuthenticated(r) && CurrentUser(r) == None
    ensures forall k :: k != AuthTokenKey && k != UserKey ==> (k in r <==> k in items)
    ensures forall k :: k in r ==> k in items && r[k] == items[k]
  {
    items - {AuthTokenKey} - {UserKey}
  }

  /** Logging out twice is the same as logging out once. */
  lemma SignedOutIdempotent(items: Store)
    ensures SignedOut(SignedOut(items)) == SignedOut(items)
  {
    assert SignedOut(SignedOut(items)).Keys == SignedOut(items).Keys;
  }

  /** `data.session?.access_token || ''`: a missing session stores the empty token. */
  function SessionToken(reply: AuthReply): (t: string)
    requires reply.Authenticated?
    ensures reply.accessToken.None? ==> t == ""
    ensures reply.accessToken.Some? ==> t == reply.accessToken.value
  {
    OrElse(reply.accessToken, "")
  }

  /** The user `login` builds from the auth reply and the profile row, with its defaults. */
  function ProfileUser(reply: AuthReply, row: ProfileRow, now: string): (u: User)
    requires reply.Authenticated?
    ensures u.id == reply.userId && u.name == row.name
    ensures u.email == OrElse(reply.email, "")
    ensures u.pincode == OrElse(row.pincode, "") && u.address == OrElse(row.address, "")
    ensures u.rewardPoints == (if row.rewardPoints.Some? then row.rewardPoints.value else 0)
    ensures u.createdAt == OrElse(row.createdAt, now)
  {
    User(reply.userId, row.name, OrElse(reply.email, ""), OrElse(row.pincode, ""),
         OrElse(row.address, ""),
         if row.rewardPoints.Some? then row.rewardPoints.value else 0,
         OrElse(row.createdAt, now))
  }

  /** The user `register` builds: the form's fields and a zero balance. */
  function NewUser(id: string, data: RegisterData, now: string): (u: User)
    ensures u.rewardPoints == 0
    ensures u.id == id && u.name == data.name && u.email == data.email
    ensures u.pincode == data.pincode && u.address == data.address && u.createdAt == now
  {
    User(id, data.name, data.email, data.pincode, data.address, 0, now)
  }

  // ---------------------------------------------------------------- profile merges

  /** `{ ...currentUser, ...updatedUser }`: every supplied field wins, the empty string included. */
  function MergeUser(u: User, p: UserPatch): (r: User)
    ensures p.id.Some? ==> r.id == p.id.value
    ensures p.id.None? ==> r.id == u.id
    ensures p.name.Some? ==> r.name == p.name.value
    ensures p.name.None? ==> r.name == u.name
    ensures p.email.Some? ==> r.email == p.email.value
    ensures p.email.None? ==> r.email == u.email
    ensures p.pincode.Some? ==> r.pincode == p.pincode.value
    ensures p.pincode.None? ==> r.pincode == u.pincode
    ensures p.address.Some? ==> r.address == p.address.value
    ensures p.address.None? ==> r.address == u.address
    ensures p.rewardPoints.Some? ==> r.rewardPoints == p.rewardPoints.value
    ensures p.rewardPoints.None? ==> r.rewardPoints == u.rewardPoints
    ensures p.createdAt.Some? ==> r.createdAt == p.createdAt.value
    ensures p.createdAt.None? ==> r.createdAt == u.createdAt
  {
    User(
      if p.id.Some? then p.id.value else u.id,
      if p.name.Some? then p.name.value else u.name,
      if p.email.Some? then p.email.value else u.email,
      if p.pincode.Some? then p.pincode.value else u.pincode,
      if p.address.Some? then p.address.value else u.address,
      if p.rewardPoints.Some? then p.rewardPoints.value else u.rewardPoints,
      if p.createdAt.Some? then p.createdAt.value else u.createdAt)
  }

  /** The columns `updateUser` sends: name, pincode and address fall back to the current value
      when the patch leaves them out or supplies `''`; reward points fall back only when absent. */
  function RemoteWrite(u: User, p: UserPatch): (w: ProfileWrite)
    ensures w.id == u.id
    ensures w.name == OrElse(p.name, u.name)
    ensures w.pincode == OrElse(p.pincode, u.pincode)
    ensures w.address == OrElse(p.address, u.address)
    ensures w.rewardPoints == (if p.rewardPoints.Some? then p.rewardPoints.value else u.rewardPoints)
  {
    ProfileWrite(u.id, OrElse(p.name, u.name), OrElse(p.pincode, u.pincode),
                 OrElse(p.address, u.address),
                 if p.rewardPoints.Some? then p.rewardPoints.value else u.rewardPoints)
  }

  /** The two merge rules of `updateUser` part ways exactly on a supplied empty string: the local
      copy takes the empty value while the remote row keeps the old one. */
  lemma MergeRulesDisagreeOnEmpty(u: User, p: UserPatch)
    ensures MergeUser(u, p).name != RemoteWrite(u, p).name
        <==> p.name == Some("") && u.name != ""
    ensures MergeUser(u, p).pincode != RemoteWrite(u, p).pincode
        <==> p.pincode == Some("") && u.pincode != ""
    ensures MergeUser(u, p).address != RemoteWrite(u, p).address
        <==> p.address == Some("") && u.address != ""
  {
  }

  /** The user after `addRewardPoints(points)`: the balance grows by `points`, nothing else moves. */
  function Credited(u: User, points: int): (v: User)
    ensures v.rewardPoints == u.rewardPoints + points
    ensures v.id == u.id && v.name == u.name && v.email == u.email
    ensures v.pincode == u.pincode && v.address == u.address && v.createdAt == u.createdAt
  {
    u.(rewardPoints := u.rewardPoints + points)
  }

  /** Crediting is a patch that supplies only `rewardPoints`. */
  lemma CreditedIsMerge(u: User, points: int)
    ensures Credited(u, points)
         == MergeUser(u, UserPatch(None, None, None, None, None, Some(u.rewardPoints + points), None))
  {
  }

  /** Two credits add up. */
  lemma CreditsAdd(u: User, a: int, b: int)
    ensures Credited(Credited(u, a), b) == Credited(u, a + b)
  {
  }

  // ---------------------------------------------------------------- operations

  /** `login(credentials)`. */
  method Login(st: Browser.LocalStorage, signIn: AuthReply, profile: Option<ProfileRow>, now: string)
    returns (r: Result<User>)
    modifies st
    ensures signIn.AuthError? ==> r == Failure(signIn.message)
    ensures signIn.NoUser? ==> r == Failure("User not found")
    ensures signIn.Authenticated? && profile.None? ==> r == Failure("User profile not found")
    ensures signIn.Authenticated? && profile.Some? ==> r == Success(ProfileUser(signIn, profile.value, now))
    ensures r.Success? ==> st.items == SignedIn(old(st.items), SessionToken(signIn), r.value)
    ensures r.Failure? ==> st.items == old(st.items)
  {
    if signIn.AuthError? {
      return Failure(signIn.message);
    }
    if signIn.NoUser? {
      return Failure("User not found");
    }
    if profile.None? {
      return Failure("User profile not found");
    }
    var user := ProfileUser(signIn, profile.value, now);
    st.SetItem(AuthTokenKey, Browser.Raw(OrElse(signIn.accessToken, "")));
    st.SetItem(UserKey, Browser.UserJson(user));
    r := Success(user);
  }

  /** `register(data)`: `insertOk` is whether the `profiles.insert` call succeeded. */
  method Register(st: Browser.LocalStorage, data: RegisterData, signUp: AuthReply, insertOk: bool, now: string)
    returns (r: Result<User>)
    modifies st
    ensures signUp.AuthError? ==> r == Failure(signUp.message)
    ensures signUp.NoUser? ==> r == Failure("Registration failed")
    ensures signUp.Authenticated? && !insertOk ==> r == Failure("Error creating user profile")
    ensures signUp.Authenticated? && insertOk ==> r == Success(NewUser(signUp.userId, data, now))
    ensures r.Success? ==> r.value.rewardPoints == 0
    ensures r.Success? ==> st.items == SignedIn(old(st.items), SessionToken(signUp), r.value)
    ensures r.Failure? ==> st.items == old(st.items)
  {
    if signUp.AuthError? {
      return Failure(signUp.message);
    }
    if signUp.NoUser? {
      return Failure("Registration failed");
    }
    if !insertOk {
      return Failure("Error creating user profile");
    }
    var user := NewUser(signUp.userId, data, now);
    st.SetItem(AuthTokenKey, Browser.Raw(OrElse(signUp.accessToken, "")));
    st.SetItem(UserKey, Browser.UserJson(user));
    r := Success(user);
  }

  /** `logout()`: the remote sign-out is awaited but its reply is not inspected. */
  method Logout(st: Browser.LocalStorage)
    modifies st
    ensures st.items == SignedOut(old(st.items))
  {
    st.RemoveItem(AuthTokenKey);
    st.RemoveItem(UserKey);
  }

  /** `updateUser(patch)`. `write` is the row sent to the remote service (none when nobody is
      signed in); `remoteOk` is whether that update succeeded. */
  method UpdateUser(st: Browser.LocalStorage, patch: UserPatch, remoteOk: bool)
    returns (r: Result<User>, write: Option<ProfileWrite>)
    modifies st
    ensures CurrentUser(old(st.items)).None? ==>
      r == Failure("No user is logged in") && write == None && st.items == old(st.items)
    ensures CurrentUser(old(st.items)).Some? ==>
      write == Some(RemoteWrite(CurrentUser(old(st.items)).value, patch))
    ensures CurrentUser(old(st.items)).Some? && !remoteOk ==>
      r == Failure("Failed to update user profile") && st.items == old(st.items)
    ensures CurrentUser(old(st.items)).Some? && remoteOk ==>
      var merged := MergeUser(CurrentUser(old(st.items)).value, patch);
      r == Success(merged) && st.items == old(st.items)[UserKey := Browser.UserJson(merged)]
  {
    var current := CurrentUser(st.items);
    if current.None? {
      return Failure("No user is logged in"), None;
    }
    write := Some(RemoteWrite(current.value, patch));
    if !remoteOk {
      return Failure("Failed to update user profile"), write;
    }
    var merged := MergeUser(current.value, patch);
    st.SetItem(UserKey, Browser.UserJson(merged));
    r := Success(merged);
  }

  /** `addRewardPoints(points)`; `remoteOk` is whether the remote balance update succeeded. */
  method AddRewardPoints(st: Browser.LocalStorage, points: int, remoteOk: bool) returns (r: Result<User>)
    modifies st
    ensures CurrentUser(old(st.items)).None? ==>
      r == Failure("No user is logged in") && st.items == old(st.items)
    ensures CurrentUser(old(st.items)).Some? && !remoteOk ==>
      r == Failure("Failed to update reward points") && st.items == old(st.items)
    ensures CurrentUser(old(st.items)).Some? && remoteOk ==>
      r == Success(Credited(CurrentUser(old(st.items)).value, points))
      && st.items == old(st.items)[UserKey := Browser.UserJson(r.value)]
  {
    var current := CurrentUser(st.items);
    if current.None? {
      return Failure("No user is logged in");
    }
    if !remoteOk {
      return Failure("Failed to update reward points");
    }
    var updated := Credited(current.value, points);
    st.SetItem(UserKey, Browser.UserJson(updated));
    r := Success(updated);
  }

  /** What a successful credit leaves behind: the same session, the new balance, and every other
      key untouched. */
  lemma CreditKeepsSession(items: Store, u: User, points: int)
    requires CurrentUser(items) == Some(u)
    ensures var after := items[UserKey := Browser.UserJson(Credited(u, points))];
      && IsAuthenticated(after) == IsAuthenticated(items)
      && CurrentUser(after) == Some(Credited(u, points))
      && CurrentUser(after).value.rewardPoints == u.rewardPoints + points
      && (forall k :: k in items && k != UserKey ==> k in after && after[k] == items[k])
  {
  }
}
