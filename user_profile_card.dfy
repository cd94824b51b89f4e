/** The profile card, src/components/profile/UserProfileCard.tsx: its edit form, the input
    handler, the edit toggle and `handleSaveProfile`. Its `getInitials` is `Navbar.Initials`. */
module UserProfileCard {
  import opened Records
  import Browser
  import Auth
  import Navbar
  import Text

  /** The inputs that carry an `onChange` handler; the email input is disabled. */
  datatype EditableField = NameInput | PincodeInput | AddressInput

  datatype ProfileForm = ProfileForm(name: string, email: string, pincode: string, address: string)

  /** `{ name: user?.name || '', ... }`: the user's fields, or '' when there is no user. */
  function InitialForm(user: Option<User>): (f: ProfileForm)
    ensures user.None? ==> f == ProfileForm("", "", "", "")
    ensures user.Some? ==> f.name == user.value.name && f.email == user.value.email
                           && f.pincode == user.value.pincode && f.address == user.value.address
  {
    if user.None? then ProfileForm("", "", "", "")
    else ProfileForm(user.value.name, user.value.email, user.value.pincode, user.value.address)
  }

  /** The object handed to `updateUser`: name, pincode and address, and nothing else. */
  function SavePatch(f: ProfileForm): (p: UserPatch)
    ensures p.name == Some(f.name) && p.pincode == Some(f.pincode) && p.address == Some(f.address)
    ensures p.id.None? && p.email.None? && p.rewardPoints.None? && p.createdAt.None?
  {
    UserPatch(None, Some(f.name), None, Some(f.pincode), Some(f.address), None, None)
  }

  /** Saving the card never changes the stored email, id, balance or creation time, whatever
      the form holds; the three edited fields are taken from the form as typed. */
  lemma SaveKeepsAccountFields(u: User, f: ProfileForm)
    ensures var v := Auth.MergeUser(u, SavePatch(f));
            v.id == u.id && v.email == u.email && v.rewardPoints == u.rewardPoints
            && v.createdAt == u.createdAt
            && v.name == f.name && v.pincode == f.pincode && v.address == f.address
  {
  }

  /** The initials the avatar shows: `getInitials(user?.name || '')`. */
  function AvatarInitials(user: Option<User>): (r: string)
    ensures |r| <= 2
    ensures forall i :: 0 <= i < |r| ==> !Text.IsLower(r[i])
    ensures user.None? ==> r == ""
    ensures user.Some? ==> r == Navbar.Initials(user.value.name)
    ensures user.Some? ==> r == Text.Prefix(Text.Upper(Navbar.Starts(user.value.name, true)), 2)
  {
    Navbar.EmptyNameNoInitials();
    Navbar.Initials(if user.Some? then user.value.name else "")
  }

  class ProfileCard {
    /** The parent page's `user` state, which the card replaces through `setUser`. */
    var user: Option<User>
    var isEditing: bool
    var formData: ProfileForm

    constructor (user: Option<User>)
      ensures this.user == user && !isEditing && formData == InitialForm(user)
    {
      this.user := user;
      isEditing := false;
      formData := InitialForm(user);
    }

    /** `handleInputChange` for one of the enabled inputs: that field changes, the others and the
        email keep their values. */
    method HandleInputChange(field: EditableField, value: string)
      modifies this`formData
      ensures formData.email == old(formData).email
      ensures formData.name == (if field == NameInput then value else old(formData).name)
      ensures formData.pincode == (if field == PincodeInput then value else old(formData).pincode)
      ensures formData.address == (if field == AddressInput then value else old(formData).address)
    {
      match field
      case NameInput => formData := formData.(name := value);
      case PincodeInput => formData := formData.(pincode := value);
      case AddressInput => formData := formData.(address := value);
    }

    /** The Edit and the discard buttons; discarding leaves the typed values in the form. */
    method SetEditing(on: bool)
      modifies this`isEditing
      ensures isEditing == on
    {
      isEditing := on;
    }

    /** `handleSaveProfile` as written. `updateUser` is not awaited, so its Promise is truthy and
        the success branch runs at once: the card re-reads the stored user before the update has
        reached the store, and leaves edit mode even when the update later fails. The imported
        `toast` is the facade object, not a function, so `toast({...})` then throws, and throws
        again in the `catch`; both throws come after the two state updates and change nothing
        modelled here. The update itself completes with `remoteOk`. */
    method HandleSaveProfileAsWritten(st: Browser.LocalStorage, remoteOk: bool)
      returns (r: Result<User>)
      modifies this`user, this`isEditing, st
      ensures user == Auth.CurrentUser(old(st.items))
      ensures !isEditing
      ensures Auth.CurrentUser(old(st.items)).None? ==>
        r == Failure("No user is logged in") && st.items == old(st.items)
      ensures Auth.CurrentUser(old(st.items)).Some? && !remoteOk ==>
        r == Failure("Failed to update user profile") && st.items == old(st.items)
      ensures Auth.CurrentUser(old(st.items)).Some? && remoteOk ==>
        r == Success(Auth.MergeUser(Auth.CurrentUser(old(st.items)).value, SavePatch(formData)))
        && st.items == old(st.items)[Auth.UserKey := Browser.UserJson(r.value)]
    {
      user := Auth.CurrentUser(st.items);
      isEditing := false;
      var write;
      r, write := Auth.UpdateUser(st, SavePatch(formData), remoteOk);
    }

    /** `handleSaveProfile` as intended: the update is awaited; on success the card shows the
        updated user and leaves edit mode, on failure it stays in edit mode and keeps the user.
        The success or error notice goes through the toast facade and is not modelled. */
    method HandleSaveProfile(st: Browser.LocalStorage, remoteOk: bool)
      returns (r: Result<User>)
      modifies this`user, this`isEditing, st
      ensures Auth.CurrentUser(old(st.items)).None? ==>
        r == Failure("No user is logged in") && st.items == old(st.items)
        && user == old(user) && isEditing == old(isEditing)
      ensures Auth.CurrentUser(old(st.items)).Some? && !remoteOk ==>
        r == Failure("Failed to update user profile") && st.items == old(st.items)
        && user == old(user) && isEditing == old(isEditing)
      ensures Auth.CurrentUser(old(st.items)).Some? && remoteOk ==>
        r == Success(Auth.MergeUser(Auth.CurrentUser(old(st.items)).value, SavePatch(formData)))
        && st.items == old(st.items)[Auth.UserKey := Browser.UserJson(r.value)]
        && user == Auth.CurrentUser(st.items) && !isEditing
    {
      var write;
      r, write := Auth.UpdateUser(st, SavePatch(formData), remoteOk);
      if r.Success? {
        user := Auth.CurrentUser(st.items);
        isEditing := false;
      }
    }
  }

  /** A signed-in user renames themself through the card as written: the store holds the new
      name, while the card keeps showing the old one. */
  method StaleNameAsWritten() returns (card: ProfileCard, st: Browser.LocalStorage)
    ensures Auth.CurrentUser(st.items).Some? && Auth.CurrentUser(st.items).value.name == "Asha K"
    ensures card.user.Some? && card.user.value.name == "Asha"
  {
    var asha := User("u7", "Asha", "asha@example.com", "560001", "MG Road", 20, "2024-02-01");
    st := new Browser.LocalStorage(map[Auth.AuthTokenKey := Browser.Raw("t"),
                                       Auth.UserKey := Browser.UserJson(asha)]);
    card := new ProfileCard(Some(asha));
    card.SetEditing(true);
    card.HandleInputChange(NameInput, "Asha K");
    var r := card.HandleSaveProfileAsWritten(st, true);
  }

  /** The same edit with the awaited update: the card shows the new name. */
  method FreshNameAwaited() returns (card: ProfileCard, st: Browser.LocalStorage)
    ensures card.user.Some? && card.user.value.name == "Asha K"
    ensures Auth.CurrentUser(st.items) == card.user
  {
    var asha := User("u7", "Asha", "asha@example.com", "560001", "MG Road", 20, "2024-02-01");
    st := new Browser.LocalStorage(map[Auth.AuthTokenKey := Browser.Raw("t"),
                                       Auth.UserKey := Browser.UserJson(asha)]);
    card := new ProfileCard(Some(asha));
    card.SetEditing(true);
    card.HandleInputChange(NameInput, "Asha K");
    var r := card.HandleSaveProfile(st, true);
  }
}
