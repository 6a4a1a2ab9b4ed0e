/** The profile page of src/pages/ProfilePage.jsx: the delivery-address and
    name/e-mail editors, their validation, and the submit and toggle
    handlers around the session provider's update calls. */
module Profile {

  import opened Wrappers
  import opened Text
  import opened Auth

  // ---------------------------------------------------------------------
  // The e-mail pattern `/\S+@\S+\.\S+/`
  // ---------------------------------------------------------------------

  /** An `@` at `p` with a non-whitespace character before it and only
      non-whitespace (at least one character) between it and `q`. */
  predicate AtOk(s: string, p: int, q: int)
  {
    1 <= p && p + 1 < q <= |s| && s[p] == '@' && !IsSpace(s[p - 1]) && NoSpace(s[p + 1..q])
  }

  /** The pattern matches with its `@` at `p` and its `.` at `q`. Any match
      of the three `\S+` runs contains one whose outer runs are a single
      character, so these two positions are all a match needs. */
  predicate EmailAt(s: string, p: int, q: int)
  {
    AtOk(s, p, q) && q + 1 < |s| && s[q] == '.' && !IsSpace(s[q + 1])
  }

  ghost predicate DotMatch(s: string, q: int)
  {
    exists p :: EmailAt(s, p, q)
  }

  /** `/\S+@\S+\.\S+/.test(s)`: the pattern is not anchored, so it may match
      anywhere in `s`. */
  ghost predicate EmailPattern(s: string)
  {
    exists q :: DotMatch(s, q)
  }

  /** Scanning left from `p` over non-whitespace for an `@` that closes a
      match ending at `q`. */
  function AtScan(s: string, p: nat, q: nat): bool
    requires p < q <= |s|
    decreases p
  {
    if s[p] == '@' && p >= 1 && !IsSpace(s[p - 1]) then true
    else if IsSpace(s[p]) || p == 0 then false
    else AtScan(s, p - 1, q)
  }

  /** The pattern with its `.` at `q`. */
  function DotOk(s: string, q: nat): bool
  {
    3 <= q && q + 1 < |s| && s[q] == '.' && !IsSpace(s[q + 1]) && !IsSpace(s[q - 1]) && AtScan(s, q - 2, q)
  }

  /** Some position from `q` on holds the pattern's `.`. */
  function DotFrom(s: string, q: nat): bool
    decreases |s| - q
  {
    if q + 1 >= |s| then false else DotOk(s, q) || DotFrom(s, q + 1)
  }

  /** The page's e-mail test. */
  function ValidEmail(s: string): bool
  {
    DotFrom(s, 0)
  }

  lemma {:induction false} AtScanCorrect(s: string, p: nat, q: nat)
    requires p + 1 < q <= |s| && NoSpace(s[p + 1..q])
    ensures AtScan(s, p, q) <==> exists a :: a <= p && AtOk(s, a, q)
    decreases p
  {
    if s[p] == '@' && p >= 1 && !IsSpace(s[p - 1]) {
      assert AtOk(s, p, q);
    } else if !IsSpace(s[p]) && p > 0 {
      assert NoSpace(s[p..q]) by {
        forall i | 0 <= i < q - p ensures !IsSpace(s[p..q][i]) {
          if i > 0 { assert s[p..q][i] == s[p + 1..q][i - 1]; }
        }
      }
      AtScanCorrect(s, p - 1, q);
      assert !AtOk(s, p, q);
      if exists a :: a <= p && AtOk(s, a, q) {
        var a :| a <= p && AtOk(s, a, q);
        assert a <= p - 1;
      }
    }
  }

  lemma DotOkCorrect(s: string, q: nat)
    ensures DotOk(s, q) <==> DotMatch(s, q)
  {
    if 3 <= q && q + 1 < |s| && s[q] == '.' && !IsSpace(s[q + 1]) && !IsSpace(s[q - 1]) {
      assert NoSpace(s[q - 1..q]);
      AtScanCorrect(s, q - 2, q);
      if DotOk(s, q) {
        var a :| a <= q - 2 && AtOk(s, a, q);
        assert EmailAt(s, a, q);
      }
      if DotMatch(s, q) {
        var a :| EmailAt(s, a, q);
        assert a <= q - 2 && AtOk(s, a, q);
      }
    }
  }

  lemma {:induction false} DotFromCorrect(s: string, q: nat)
    ensures DotFrom(s, q) <==> exists r :: q <= r && DotMatch(s, r)
    decreases |s| - q
  {
    if q + 1 < |s| {
      DotOkCorrect(s, q);
      DotFromCorrect(s, q + 1);
      if exists r :: q <= r && DotMatch(s, r) {
        var r :| q <= r && DotMatch(s, r);
        if r > q { assert q + 1 <= r; }
      }
    }
  }

  /** The scan accepts exactly the strings the pattern matches. */
  lemma ValidEmailCorrect(s: string)
    ensures ValidEmail(s) <==> EmailPattern(s)
  {
    DotFromCorrect(s, 0);
    if EmailPattern(s) {
      var q :| DotMatch(s, q);
      var a :| EmailAt(s, a, q);
      assert 0 <= q;
    }
  }

  /** The characters of a match are not whitespace, so a trim window
      contains the whole match. */
  lemma TrimKeepsMatch(s: string, t: string, i: int, j: int, p: int, q: int)
    requires TrimmedAt(s, t, i, j) && EmailAt(s, p, q)
    ensures EmailAt(t, p - i, q - i)
  {
    assert i <= p - 1 && q + 1 < j;
    var inner, original := t[p - i + 1..q - i], s[p + 1..q];
    forall k | 0 <= k < |inner| ensures inner[k] == original[k] {
      assert t[p - i + 1 + k] == s[p + 1 + k];
    }
    assert inner == original;
  }

  /** A matching e-mail still matches once trimmed: the match holds no
      whitespace, so trimming cannot cut into it. The page submits the
      trimmed e-mail after testing the untrimmed one. */
  lemma EmailPatternSurvivesTrim(s: string)
    requires EmailPattern(s)
    ensures EmailPattern(Trim(s))
  {
    var q :| DotMatch(s, q);
    var p :| EmailAt(s, p, q);
    var t := Trim(s);
    var i, j :| TrimmedAt(s, t, i, j);
    TrimKeepsMatch(s, t, i, j, p, q);
    assert DotMatch(t, q - i);
  }

  // ---------------------------------------------------------------------
  // Validation
  // ---------------------------------------------------------------------

  const NoUser: string := "Ошибка: пользователь не идентифицирован."
  const EmptyAddress: string := "Адрес доставки не может быть пустым."
  const AddressSaved: string := "Адрес доставки успешно обновлен!"
  const AddressFailed: string := "Не удалось обновить адрес."
  const EmptyName: string := "Имя не может быть пустым."
  const EmptyEmail: string := "Email не может быть пустым."
  const BadEmail: string := "Введите корректный email."
  const ProfileSaved: string := "Данные профиля успешно обновлены!"
  const ProfileFailed: string := "Не удалось обновить данные профиля."

  /** `user && user.id`. */
  predicate Identified(user: Option<User>)
  {
    user.Some? && user.value.id != ""
  }

  /** The checks of `handleAddressSubmit`: the address to submit, trimmed,
      or the message of the first check that fails. */
  function ValidateAddress(user: Option<User>, address: string): (r: Result<string>)
    ensures !Identified(user) ==> r == Err(NoUser)
    ensures Identified(user) && IsBlank(address) ==> r == Err(EmptyAddress)
    ensures r.Ok? <==> Identified(user) && !IsBlank(address)
    ensures r.Ok? ==> r.value == Trim(address) && r.value != ""
  {
    if !Identified(user) then Err(NoUser)
    else if IsBlank(address) then Err(EmptyAddress)
    else Ok(Trim(address))
  }

  /** The name and e-mail `updateUserProfile` is given. */
  datatype ProfileData = ProfileData(name: string, email: string)

  /** The checks of `handleProfileSubmit`, in the page's order: a user, a
      non-blank name, a non-blank e-mail, then the e-mail test on the
      untrimmed input. On success both values are trimmed. */
  function ValidateProfile(user: Option<User>, name: string, email: string): (r: Result<ProfileData>)
    ensures r.Ok? ==> Identified(user)
  {
    if !Identified(user) then Err(NoUser)
    else if IsBlank(name) then Err(EmptyName)
    else if IsBlank(email) then Err(EmptyEmail)
    else if !ValidEmail(email) then Err(BadEmail)
    else Ok(ProfileData(Trim(name), Trim(email)))
  }

  /** The first failing check decides the message; the profile is
      accepted exactly when every check passes, and what is sent is
      trimmed, with a non-empty name and an e-mail that still matches. */
  lemma ValidateProfileCorrect(user: Option<User>, name: string, email: string)
    ensures var r := ValidateProfile(user, name, email);
      && (!Identified(user) ==> r == Err(NoUser))
      && (Identified(user) && IsBlank(name) ==> r == Err(EmptyName))
      && (Identified(user) && !IsBlank(name) && IsBlank(email) ==> r == Err(EmptyEmail))
      && (Identified(user) && !IsBlank(name) && !IsBlank(email) && !EmailPattern(email) ==> r == Err(BadEmail))
      && (r.Ok? <==> Identified(user) && !IsBlank(name) && !IsBlank(email) && EmailPattern(email))
      && (r.Ok? ==>
            r.value == ProfileData(Trim(name), Trim(email)) &&
            r.value.name != "" && EmailPattern(r.value.email))
  {
    ValidEmailCorrect(email);
    if EmailPattern(email) {
      EmailPatternSurvivesTrim(email);
    }
  }

  // ---------------------------------------------------------------------
  // The page
  // ---------------------------------------------------------------------

  /** An update handed to the session provider. */
  datatype Request =
    | AddressUpdate(userId: string, address: string)
    | ProfileUpdate(userId: string, data: ProfileData)

  /** The page's editing state; `requests` lists every update it has
      handed to the session provider, in order. */
  class ProfilePage {
    var isEditingAddress: bool
    var deliveryAddress: string
    var addressEditError: Option<string>
    var addressEditSuccess: Option<string>
    var isSubmittingAddress: bool
    var isEditingProfile: bool
    var profileName: string
    var profileEmail: string
    var profileEditError: Option<string>
    var profileEditSuccess: Option<string>
    var isSubmittingProfile: bool
    var requests: seq<Request>

    constructor ()
      ensures !isEditingAddress && deliveryAddress == "" && addressEditError.None? && addressEditSuccess.None?
      ensures !isSubmittingAddress && !isEditingProfile && profileName == "" && profileEmail == ""
      ensures profileEditError.None? && profileEditSuccess.None? && !isSubmittingProfile && requests == []
    {
      isEditingAddress, deliveryAddress, addressEditError, addressEditSuccess := false, "", None, None;
      isSubmittingAddress, isEditingProfile, profileName, profileEmail := false, false, "", "";
      profileEditError, profileEditSuccess, isSubmittingProfile, requests := None, None, false, [];
    }

    /** `handleEditAddressToggle`: flips editing and clears both messages;
        leaving edit mode puts the user's stored address back. */
    method HandleEditAddressToggle(user: Option<User>)
      modifies this
      ensures isEditingAddress == !old(isEditingAddress)
      ensures addressEditError.None? && addressEditSuccess.None?
      ensures old(isEditingAddress) && user.Some? ==> deliveryAddress == TextOr(user.value.deliveryAddress)
      ensures !(old(isEditingAddress) && user.Some?) ==> deliveryAddress == old(deliveryAddress)
      ensures isSubmittingAddress == old(isSubmittingAddress) && requests == old(requests)
      ensures isEditingProfile == old(isEditingProfile) && profileName == old(profileName) && profileEmail == old(profileEmail)
      ensures profileEditError == old(profileEditError) && profileEditSuccess == old(profileEditSuccess)
    {
      var wasEditing := isEditingAddress;
      isEditingAddress := !isEditingAddress;
      addressEditError := None;
      addressEditSuccess := None;
      if wasEditing && user.Some? {
        deliveryAddress := TextOr(user.value.deliveryAddress);
      }
    }

    /** `handleEditProfileToggle`: the same for the name and e-mail. */
    method HandleEditProfileToggle(user: Option<User>)
      modifies this
      ensures isEditingProfile == !old(isEditingProfile)
      ensures profileEditError.None? && profileEditSuccess.None?
      ensures old(isEditingProfile) && user.Some? ==>
        profileName == user.value.name && profileEmail == user.value.email
      ensures !(old(isEditingProfile) && user.Some?) ==>
        profileName == old(profileName) && profileEmail == old(profileEmail)
      ensures isSubmittingProfile == old(isSubmittingProfile) && requests == old(requests)
      ensures isEditingAddress == old(isEditingAddress) && deliveryAddress == old(deliveryAddress)
      ensures addressEditError == old(addressEditError) && addressEditSuccess == old(addressEditSuccess)
    {
      var wasEditing := isEditingProfile;
      isEditingProfile := !isEditingProfile;
      profileEditError := None;
      profileEditSuccess := None;
      if wasEditing && user.Some? {
        profileName, profileEmail := user.value.name, user.value.email;
      }
    }

    /** `handleAddressSubmit`: on a failed check only the error is set and
        nothing is sent; otherwise the trimmed address goes to
        `updateUserDeliveryAddress` (whose answer is `outcome`), and the
        submitting flag is down again afterwards. */
    method HandleAddressSubmit(auth: AuthProvider, outcome: Result<Session>)
      modifies this, auth
      ensures var v := ValidateAddress(old(auth.state.user), old(deliveryAddress));
        && (v.Err? ==>
              addressEditError == Some(v.message) && requests == old(requests) &&
              auth.state == old(auth.state) && isSubmittingAddress == old(isSubmittingAddress) &&
              isEditingAddress == old(isEditingAddress) && addressEditSuccess == old(addressEditSuccess))
        && (v.Ok? ==>
              requests == old(requests) + [AddressUpdate(old(auth.state.user).value.id, v.value)] &&
              !isSubmittingAddress &&
              (outcome.Ok? ==>
                 addressEditError.None? && addressEditSuccess == Some(AddressSaved) && !isEditingAddress &&
                 auth.state.user == Some(outcome.value.user)) &&
              (outcome.Err? ==>
                 addressEditError == Some(MessageOr(outcome.message, AddressFailed)) &&
                 addressEditSuccess.None? && isEditingAddress == old(isEditingAddress) &&
                 auth.state.user == old(auth.state.user)))
      ensures deliveryAddress == old(deliveryAddress)
    {
      var user := auth.state.user;
      match ValidateAddress(user, deliveryAddress) {
        case Err(message) =>
          addressEditError := Some(message);
        case Ok(address) =>
          SendAddress(auth, user.value.id, address, outcome);
      }
    }

    /** The request half of `handleAddressSubmit`, once the address passed. */
    method SendAddress(auth: AuthProvider, userId: string, address: string, outcome: Result<Session>)
      modifies this, auth
      ensures requests == old(requests) + [AddressUpdate(userId, address)] && !isSubmittingAddress
      ensures outcome.Ok? ==>
        addressEditError.None? && addressEditSuccess == Some(AddressSaved) && !isEditingAddress &&
        auth.state.user == Some(outcome.value.user)
      ensures outcome.Err? ==>
        addressEditError == Some(MessageOr(outcome.message, AddressFailed)) &&
        addressEditSuccess.None? && isEditingAddress == old(isEditingAddress) &&
        auth.state.user == old(auth.state.user)
      ensures deliveryAddress == old(deliveryAddress)
    {
      isSubmittingAddress := true;
      addressEditError := None;
      addressEditSuccess := None;
      requests := requests + [AddressUpdate(userId, address)];
      var r := auth.UpdateUser(outcome);
      if r.Ok? {
        addressEditSuccess := Some(AddressSaved);
        isEditingAddress := false;
      } else {
        addressEditError := Some(MessageOr(r.message, AddressFailed));
      }
      isSubmittingAddress := false;
    }

    /** `handleProfileSubmit`: the same sequence for the name and e-mail,
        which are sent trimmed. */
    method HandleProfileSubmit(auth: AuthProvider, outcome: Result<Session>)
      modifies this, auth
      ensures var v := ValidateProfile(old(auth.state.user), old(profileName), old(profileEmail));
        && (v.Err? ==>
              profileEditError == Some(v.message) && requests == old(requests) &&
              auth.state == old(auth.state) && isSubmittingProfile == old(isSubmittingProfile) &&
              isEditingProfile == old(isEditingProfile) && profileEditSuccess == old(profileEditSuccess))
        && (v.Ok? ==>
              requests == old(requests) + [ProfileUpdate(old(auth.state.user).value.id, v.value)] &&
              !isSubmittingProfile &&
              (outcome.Ok? ==>
                 profileEditError.None? && profileEditSuccess == Some(ProfileSaved) && !isEditingProfile &&
                 auth.state.user == Some(outcome.value.user)) &&
              (outcome.Err? ==>
                 profileEditError == Some(MessageOr(outcome.message, ProfileFailed)) &&
                 profileEditSuccess.None? && isEditingProfile == old(isEditingProfile) &&
                 auth.state.user == old(auth.state.user)))
      ensures profileName == old(profileName) && profileEmail == old(profileEmail)
    {
      var user := auth.state.user;
      var v := ValidateProfile(user, profileName, profileEmail);
      if v.Err? {
        profileEditError := Some(v.message);
        return;
      }
      SendProfile(auth, user.value.id, v.value, outcome);
    }

    /** The part of `handleProfileSubmit` after the checks: the flags, the
        awaited `updateUserProfile`, and the message it leads to. */
    method SendProfile(auth: AuthProvider, userId: string, data: ProfileData, outcome: Result<Session>)
      modifies this, auth
      ensures requests == old(requests) + [ProfileUpdate(userId, data)] && !isSubmittingProfile
      ensures outcome.Ok? ==>
        profileEditError.None? && profileEditSuccess == Some(ProfileSaved) && !isEditingProfile &&
        auth.state.user == Some(outcome.value.user)
      ensures outcome.Err? ==>
        profileEditError == Some(MessageOr(outcome.message, ProfileFailed)) &&
        profileEditSuccess.None? && isEditingProfile == old(isEditingProfile) &&
        auth.state.user == old(auth.state.user)
      ensures profileName == old(profileName) && profileEmail == old(profileEmail)
    {
      isSubmittingProfile := true;
      profileEditError := None;
      profileEditSuccess := None;
      requests := requests + [ProfileUpdate(userId, data)];
      var r := auth.UpdateUser(outcome);
      if r.Ok? {
        profileEditSuccess := Some(ProfileSaved);
        isEditingProfile := false;
      } else {
        profileEditError := Some(MessageOr(r.message, ProfileFailed));
      }
      isSubmittingProfile := false;
    }
  }
}
