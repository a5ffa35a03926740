/** The admin's user screen: the user list merged from profiles and roles,
    the selection, the bulk removal and the add/edit dialog. The backend's
    answers are inputs; each operation returns the writes it makes, in
    order. The list is fetched again after a change; that fetch is a
    separate `FetchUsers` call. */
module UserManagement {
  import opened Text
  import opened Domain
  import opened OrderedSet

  datatype Profile = Profile(userId: string, fullName: string, vehicleNumber: Option<string>, phone: Option<string>)
  datatype RoleRow = RoleRow(userId: string, role: Role)
  datatype UserRow = UserRow(userId: string, fullName: string, vehicleNumber: Option<string>, phone: Option<string>,
                             role: Option<Role>)

  // ---------------------------------------------------------------------
  // Merge

  /** The position of the user's last role row, or -1 when there is none. */
  function LastRowOf(roles: seq<RoleRow>, id: string): (k: int)
    ensures -1 <= k < |roles|
    ensures k >= 0 ==> roles[k].userId == id
    ensures forall j :: k < j < |roles| ==> roles[j].userId != id
    decreases |roles|
  {
    if roles == [] then -1
    else if roles[|roles| - 1].userId == id then |roles| - 1
    else LastRowOf(roles[..|roles| - 1], id)
  }

  /** `new Map(roles.map(r => [r.user_id, r.role])).get(id) || null`: the
      last role row of the user, if any. */
  function RoleOf(roles: seq<RoleRow>, id: string): (r: Option<Role>)
    ensures r.None? <==> forall i :: 0 <= i < |roles| ==> roles[i].userId != id
    ensures r.Some? ==> exists i :: 0 <= i < |roles| && roles[i] == RoleRow(id, r.value)
                                    && forall j :: i < j < |roles| ==> roles[j].userId != id
  {
    var k := LastRowOf(roles, id);
    if k < 0 then None
    else
      assert roles[k] == RoleRow(id, roles[k].role);
      Some(roles[k].role)
  }

  function Merge(profiles: seq<Profile>, roles: seq<RoleRow>): (users: seq<UserRow>)
    ensures |users| == |profiles|
    ensures forall i :: 0 <= i < |profiles| ==>
              users[i] == UserRow(profiles[i].userId, profiles[i].fullName, profiles[i].vehicleNumber,
                                  profiles[i].phone, RoleOf(roles, profiles[i].userId))
  {
    seq(|profiles|, i requires 0 <= i < |profiles| =>
      UserRow(profiles[i].userId, profiles[i].fullName, profiles[i].vehicleNumber, profiles[i].phone,
              RoleOf(roles, profiles[i].userId)))
  }

  /** Extra role rows of other users do not change a user's merged role;
      a later row of the same user replaces the earlier one. */
  lemma RoleOfAppend(roles: seq<RoleRow>, row: RoleRow, id: string)
    ensures row.userId == id ==> RoleOf(roles + [row], id) == Some(row.role)
    ensures row.userId != id ==> RoleOf(roles + [row], id) == RoleOf(roles, id)
  {
    assert (roles + [row])[..|roles|] == roles;
  }

  // ---------------------------------------------------------------------
  // Phone

  /** `s.replace(/\D/g, "")` */
  function DigitsOnly(s: string): (r: string)
    ensures AllDigits(r) && |r| <= |s|
    ensures AllDigits(s) ==> r == s
    ensures |s| == 1 ==> r == (if '0' <= s[0] <= '9' then s else [])
    decreases |s|
  {
    if s == [] then []
    else
      var rest := DigitsOnly(s[..|s| - 1]);
      var c := s[|s| - 1];
      assert AllDigits(s) ==> AllDigits(s[..|s| - 1]);
      assert s == s[..|s| - 1] + [c];
      if '0' <= c <= '9' then rest + [c] else rest
  }

  /** Removing non-digits works character by character: the digits of two
      strings are the digits of each, in order. */
  lemma {:induction false} DigitsOnlyAppend(a: string, b: string)
    ensures DigitsOnly(a + b) == DigitsOnly(a) + DigitsOnly(b)
    decreases |b|
  {
    if b == [] {
      assert a + b == a;
    } else {
      var b' := b[..|b| - 1];
      assert (a + b)[..|a + b| - 1] == a + b';
      assert (a + b)[|a + b| - 1] == b[|b| - 1];
      DigitsOnlyAppend(a, b');
    }
  }

  /** The phone field keeps the first ten digits of the input, in order. */
  function SanitizePhone(input: string): (p: string)
    ensures AllDigits(p) && |p| <= 10
    ensures |p| == (if |DigitsOnly(input)| <= 10 then |DigitsOnly(input)| else 10)
    ensures p == DigitsOnly(input)[..|p|]
    ensures AllDigits(input) && |input| <= 10 ==> p == input
  {
    Truncate(DigitsOnly(input), 10)
  }

  /** Sanitizing twice changes nothing more. */
  lemma SanitizeIdempotent(input: string)
    ensures SanitizePhone(SanitizePhone(input)) == SanitizePhone(input)
  {
  }

  /** "Phone number must be exactly 10 digits": a non-empty phone of
      another length. */
  predicate PhoneRejected(phone: string) {
    phone != "" && |phone| != 10
  }

  // ---------------------------------------------------------------------
  // The screen

  datatype UserWrite =
    | DeleteRoles(ids: seq<string>)
    | DeleteProfiles(ids: seq<string>)
    | UpdateProfile(userId: string, fullName: string, vehicleNumber: Option<string>, phone: Option<string>)
    | UpdateRole(userId: string, role: Role)
    | SignUp(email: string, password: string, fullName: string, vehicleNumber: Option<string>, phone: Option<string>,
             role: Role)
    | InsertRole(userId: string, role: Role)

  datatype DeleteOutcome =
    | NothingSelected
    | OwnAccount          // "You cannot delete your own account."
    | Cancelled
    | RolesFailed(message: string)
    | ProfilesKept        // roles removed, profiles not
    | Removed(count: nat)

  /** The answer of the sign-up call. */
  datatype SignUpResult = SignUpFailed(message: string) | NoUserReturned | SignedUp(userId: string, hasSession: bool)

  datatype SaveOutcome =
    | Ignored             // no name: nothing happens
    | PhoneLength         // "Phone number must be exactly 10 digits"
    | CredentialsMissing  // "Email and password are required for new users"
    | Updated
    | Created(askToVerify: bool)
    | CreatedWithoutRole(enumMissing: bool, message: string)
    | SaveFailed(message: string)

  const EnumHint: string := "Database enum missing 'manager'. Run: ALTER TYPE app_role ADD VALUE 'manager';"

  /** A role error that names the enumeration is reported with the hint. */
  predicate MentionsEnum(message: string) {
    Contains(message, "manager") || Contains(message, "enum")
  }

  /** `err.message || "Failed to save user"` */
  function FailureText(message: string): (t: string)
    ensures t != ""
    ensures message != "" ==> t == message
  {
    if message == "" then "Failed to save user" else message
  }

  class UserAdmin {
    var users: seq<UserRow>
    var selected: seq<string>
    var showAdd: bool
    var editingUser: Option<UserRow>
    var newEmail: string
    var newName: string
    var newPassword: string
    var newVehicle: string
    var newPhone: string
    var newRole: Role

    predicate Valid()
      reads this
    {
      NoDup(selected)
    }

    constructor ()
      ensures Valid()
      ensures users == [] && selected == [] && !showAdd && editingUser == None
      ensures newEmail == "" && newName == "" && newPassword == "" && newVehicle == "" && newPhone == "" && newRole == Rep
    {
      users, selected, showAdd, editingUser := [], [], false, None;
      newEmail, newName, newPassword, newVehicle, newPhone := "", "", "", "", "";
      newRole := Rep;
    }

    method FetchUsers(profiles: seq<Profile>, roles: seq<RoleRow>)
      requires Valid()
      modifies this
      ensures Valid()
      ensures users == Merge(profiles, roles)
      ensures selected == old(selected) && showAdd == old(showAdd) && editingUser == old(editingUser)
    {
      users := Merge(profiles, roles);
    }

    function Ids(): (ids: seq<string>)
      reads this
      ensures |ids| == |users| && forall i :: 0 <= i < |users| ==> ids[i] == users[i].userId
    {
      var us := users;
      seq(|us|, i requires 0 <= i < |us| => us[i].userId)
    }

    predicate AllSelected()
      reads this
    {
      |users| > 0 && forall i :: 0 <= i < |users| ==> users[i].userId in selected
    }

    /** Clears the selection when every user is selected, otherwise
        selects every user. */
    method ToggleSelectAll()
      requires Valid()
      modifies this
      ensures Valid()
      ensures users == old(users) && showAdd == old(showAdd) && editingUser == old(editingUser)
      ensures old(AllSelected()) ==> selected == []
      ensures !old(AllSelected()) ==> Elems(selected) == Elems(Ids())
    {
      if AllSelected() {
        selected := [];
      } else {
        selected := FromSeq(Ids());
      }
    }

    method ToggleSelectUser(id: string)
      requires Valid()
      modifies this
      ensures Valid()
      ensures users == old(users) && showAdd == old(showAdd) && editingUser == old(editingUser)
      ensures id in old(selected) ==> Elems(selected) == Elems(old(selected)) - {id}
      ensures forall i :: 0 <= i < |old(selected)| && old(selected)[i] == id ==>
                selected == old(selected)[..i] + old(selected)[i + 1..]
      ensures id !in old(selected) ==> selected == old(selected) + [id]
    {
      if id in selected {
        var kept := Remove(selected, id);
        forall i | 0 <= i < |selected| && selected[i] == id
          ensures kept == selected[..i] + selected[i + 1..]
        {
          RemoveAt(selected, i);
        }
        selected := kept;
      } else {
        selected := Add(selected, id);
      }
    }

    /** Removes the selected users: refused on an empty selection and on
        one holding the signed-in user; the roles go first, and only when
        that succeeds are the profiles removed and the selection cleared. */
    method HandleBulkDelete(currentUser: Option<string>, confirmed: bool, roleDelete: BackendResult,
                            profileDelete: BackendResult)
        returns (o: DeleteOutcome, writes: seq<UserWrite>)
      requires Valid()
      modifies this
      ensures Valid()
      ensures users == old(users) && showAdd == old(showAdd) && editingUser == old(editingUser)
      ensures o == NothingSelected <==> old(selected) == []
      ensures o == OwnAccount <==> old(selected) != [] && currentUser.Some? && currentUser.value in old(selected)
      ensures o == Cancelled <==>
                old(selected) != [] && !(currentUser.Some? && currentUser.value in old(selected)) && !confirmed
      ensures o.RolesFailed? <==>
                old(selected) != [] && !(currentUser.Some? && currentUser.value in old(selected)) && confirmed
                && roleDelete.Failed?
      ensures o == ProfilesKept <==>
                old(selected) != [] && !(currentUser.Some? && currentUser.value in old(selected)) && confirmed
                && roleDelete.Ok? && profileDelete.Failed?
      ensures o == NothingSelected || o == OwnAccount || o == Cancelled ==> writes == [] && selected == old(selected)
      ensures o.RolesFailed? ==> writes == [DeleteRoles(old(selected))] && selected == old(selected)
                                 && roleDelete == Failed(o.message)
      ensures DeleteProfiles(old(selected)) in writes ==> roleDelete.Ok?
      ensures o == ProfilesKept || o.Removed? ==>
                writes == [DeleteRoles(old(selected)), DeleteProfiles(old(selected))] && roleDelete.Ok? && selected == []
      ensures o.Removed? ==> profileDelete.Ok? && o.count == |old(selected)|
    {
      if selected == [] {
        return NothingSelected, [];
      }
      if currentUser.Some? && currentUser.value in selected {
        return OwnAccount, [];
      }
      if !confirmed {
        return Cancelled, [];
      }
      var ids := selected;
      writes := [DeleteRoles(ids)];
      if roleDelete.Failed? {
        return RolesFailed(roleDelete.message), writes;
      }
      writes := writes + [DeleteProfiles(ids)];
      if profileDelete.Failed? {
        o := ProfilesKept;
      } else {
        o := Removed(|ids|);
      }
      selected := [];
    }

    method OpenAddDialog()
      requires Valid()
      modifies this
      ensures Valid()
      ensures showAdd && editingUser == None && newRole == Rep
      ensures newEmail == "" && newName == "" && newPassword == "" && newVehicle == "" && newPhone == ""
      ensures users == old(users) && selected == old(selected)
    {
      editingUser := None;
      newEmail, newName, newPassword, newVehicle, newPhone := "", "", "", "", "";
      newRole := Rep;
      showAdd := true;
    }

    /** The edit dialog starts from the user's stored values; no role reads
        as "rep". */
    method OpenEditDialog(u: UserRow)
      requires Valid()
      modifies this
      ensures Valid()
      ensures showAdd && editingUser == Some(u) && newEmail == "" && newPassword == "" && newName == u.fullName
      ensures newVehicle == (if u.vehicleNumber.Some? then u.vehicleNumber.value else "")
      ensures newPhone == (if u.phone.Some? then u.phone.value else "")
      ensures newRole == (if u.role.Some? then u.role.value else Rep)
      ensures users == old(users) && selected == old(selected)
    {
      editingUser := Some(u);
      newEmail := "";
      newName := u.fullName;
      newPassword := "";
      newVehicle := if u.vehicleNumber.Some? then u.vehicleNumber.value else "";
      newPhone := if u.phone.Some? then u.phone.value else "";
      newRole := if u.role.Some? then u.role.value else Rep;
      showAdd := true;
    }

    method HandlePhoneChange(input: string)
      requires Valid()
      modifies this
      ensures Valid()
      ensures newPhone == SanitizePhone(input)
      ensures users == old(users) && selected == old(selected) && showAdd == old(showAdd)
      ensures editingUser == old(editingUser) && newName == old(newName) && newRole == old(newRole)
    {
      newPhone := SanitizePhone(input);
    }

    /** Saves the dialog. Without a name nothing happens; a phone of the
        wrong length, and for a new user a missing email or password, is
        refused before any write. An edit updates the profile and, only
        when the role differs from the stored one, the role; a new user is
        signed up and then given the role. The dialog closes once the
        user is saved. */
    method HandleSaveUser(profileUpdate: BackendResult, roleUpdate: BackendResult, signUp: SignUpResult,
                          roleInsert: BackendResult)
        returns (o: SaveOutcome, writes: seq<UserWrite>)
      requires Valid()
      modifies this
      ensures Valid()
      ensures users == old(users) && selected == old(selected)
      ensures o == Ignored <==> old(newName) == ""
      ensures o == PhoneLength <==> old(newName) != "" && PhoneRejected(old(newPhone))
      ensures o == CredentialsMissing <==>
                old(newName) != "" && !PhoneRejected(old(newPhone)) && old(editingUser).None?
                && (old(newEmail) == "" || old(newPassword) == "")
      ensures o == Ignored || o == PhoneLength || o == CredentialsMissing ==> writes == []
      ensures old(editingUser).Some? && o != Ignored && o != PhoneLength ==>
                |writes| >= 1 && writes[0] == UpdateProfile(old(editingUser).value.userId, old(newName),
                                                            NonEmpty(old(newVehicle)), NonEmpty(old(newPhone)))
      ensures old(newName) != "" && !PhoneRejected(old(newPhone)) && old(editingUser).Some? ==>
                var u := old(editingUser).value;
                var profile := UpdateProfile(u.userId, old(newName), NonEmpty(old(newVehicle)), NonEmpty(old(newPhone)));
                (profileUpdate.Failed? ==> writes == [profile] && o == SaveFailed(FailureText(profileUpdate.message)))
                && (profileUpdate.Ok? && u.role == Some(old(newRole)) ==> writes == [profile])
                && (profileUpdate.Ok? && u.role != Some(old(newRole)) ==>
                      writes == [profile, UpdateRole(u.userId, old(newRole))])
                && (profileUpdate.Ok? && u.role != Some(old(newRole)) && roleUpdate.Failed? ==>
                      o == SaveFailed(FailureText(if MentionsEnum(roleUpdate.message) then EnumHint else roleUpdate.message)))
      ensures old(newName) != "" && !PhoneRejected(old(newPhone)) && old(editingUser).None?
              && old(newEmail) != "" && old(newPassword) != "" ==>
                var up := SignUp(old(newEmail), old(newPassword), old(newName),
                                 NonEmpty(old(newVehicle)), NonEmpty(old(newPhone)), old(newRole));
                (signUp.SignUpFailed? ==> writes == [up] && o == SaveFailed(FailureText(signUp.message)))
                && (signUp.NoUserReturned? ==> writes == [up] && o == SaveFailed("Failed to create user"))
                && (signUp.SignedUp? ==> writes == [up, InsertRole(signUp.userId, old(newRole))])
      ensures (exists i :: 0 <= i < |writes| && writes[i].UpdateRole?) ==>
                old(editingUser).Some? && old(editingUser).value.role != Some(old(newRole)) && profileUpdate.Ok?
      ensures o == Updated <==>
                old(newName) != "" && !PhoneRejected(old(newPhone)) && old(editingUser).Some? && profileUpdate.Ok?
                && (old(editingUser).value.role == Some(old(newRole)) || roleUpdate.Ok?)
      ensures (old(editingUser).Some? && roleUpdate.Failed? && MentionsEnum(roleUpdate.message)
               && exists i :: 0 <= i < |writes| && writes[i].UpdateRole?) ==> o == SaveFailed(EnumHint)
      ensures old(editingUser).None? && o != Ignored && o != PhoneLength && o != CredentialsMissing ==>
                |writes| >= 1 && writes[0] == SignUp(old(newEmail), old(newPassword), old(newName),
                                                     NonEmpty(old(newVehicle)), NonEmpty(old(newPhone)), old(newRole))
      ensures o.Created? || o.CreatedWithoutRole? <==>
                old(newName) != "" && !PhoneRejected(old(newPhone)) && old(editingUser).None?
                && old(newEmail) != "" && old(newPassword) != "" && signUp.SignedUp?
      ensures o.Created? || o.CreatedWithoutRole? ==> writes[|writes| - 1] == InsertRole(signUp.userId, old(newRole))
      ensures o.Created? ==> roleInsert.Ok? && (o.askToVerify <==> !signUp.hasSession)
      ensures o.CreatedWithoutRole? ==> roleInsert == Failed(o.message) && (o.enumMissing <==> MentionsEnum(o.message))
      ensures o.SaveFailed? ==> o.message != ""
      ensures newEmail == old(newEmail) && newName == old(newName) && newPassword == old(newPassword)
      ensures newVehicle == old(newVehicle) && newPhone == old(newPhone) && newRole == old(newRole)
      ensures o == Updated || o.Created? || o.CreatedWithoutRole? ==> !showAdd && editingUser == None
      ensures !(o == Updated || o.Created? || o.CreatedWithoutRole?) ==>
                showAdd == old(showAdd) && editingUser == old(editingUser)
    {
      writes := [];
      if newName == "" {
        return Ignored, writes;
      }
      if newPhone != "" && |newPhone| != 10 {
        return PhoneLength, writes;
      }
      if editingUser.Some? {
        var u := editingUser.value;
        writes := [UpdateProfile(u.userId, newName, NonEmpty(newVehicle), NonEmpty(newPhone))];
        if profileUpdate.Failed? {
          return SaveFailed(FailureText(profileUpdate.message)), writes;
        }
        if u.role != Some(newRole) {
          writes := writes + [UpdateRole(u.userId, newRole)];
          if roleUpdate.Failed? {
            var text := if MentionsEnum(roleUpdate.message) then EnumHint else roleUpdate.message;
            return SaveFailed(FailureText(text)), writes;
          }
        }
        o := Updated;
      } else {
        if newEmail == "" || newPassword == "" {
          return CredentialsMissing, writes;
        }
        writes := [SignUp(newEmail, newPassword, newName, NonEmpty(newVehicle), NonEmpty(newPhone), newRole)];
        match signUp
        case SignUpFailed(m) =>
          return SaveFailed(FailureText(m)), writes;
        case NoUserReturned =>
          return SaveFailed("Failed to create user"), writes;
        case SignedUp(id, hasSession) =>
          writes := writes + [InsertRole(id, newRole)];
          if roleInsert.Failed? {
            o := CreatedWithoutRole(MentionsEnum(roleInsert.message), roleInsert.message);
          } else {
            o := Created(!hasSession);
          }
      }
      showAdd := false;
      editingUser := None;
    }
  }
}
