/** The onboarding wizard (components/auth/CompleteProfileForm.tsx): a username step
    guarded by a debounced availability check, a user-type step, and a profile-details
    step whose data is merged with the username and type into one `profiles` update. */
module CompleteProfileForm {
  import opened Wrappers
  import Profiles
  import Text

  /** The wizard's steps, in the order they are taken. */
  datatype Step = UsernameStep | UserTypeStep | ProfileDetailsStep

  function Rank(step: Step): nat
  {
    match step
    case UsernameStep => 0
    case UserTypeStep => 1
    case ProfileDetailsStep => 2
  }

  /** `b` is `a` or a later step. */
  predicate NotBefore(b: Step, a: Step)
  {
    Rank(a) <= Rank(b)
  }

  datatype FormError = UsernameTooShort | UsernameTaken | NoSession | SaveFailed

  /** The shortest username the wizard accepts. */
  const MinUsernameLength: nat := 3

  /** `checkUsernameAvailability` against the `username` column of `profiles`: too short
      a name is refused without a lookup; otherwise the name is free when no row holds it
      exactly, and a failed lookup (`fails`) counts as taken. */
  function Available(name: string, usernames: seq<string>, fails: bool): (r: bool)
    ensures r <==> Text.Utf16Length(name) >= MinUsernameLength && !fails && name !in usernames
  {
    if Text.Utf16Length(name) < MinUsernameLength then false
    else if fails then false
    else name !in usernames
  }

  /** The guards of `handleUsernameSubmit`, first failure reported: length, availability,
      session. */
  function UsernameGuard(username: string, available: bool, userId: Option<string>): (r: Option<FormError>)
    ensures r.None? <==> Text.Utf16Length(username) >= MinUsernameLength && available && userId.Some?
    ensures r == Some(UsernameTooShort) <==> Text.Utf16Length(username) < MinUsernameLength
    ensures r == Some(UsernameTaken) <==> Text.Utf16Length(username) >= MinUsernameLength && !available
    ensures r == Some(NoSession) <==> Text.Utf16Length(username) >= MinUsernameLength && available && userId.None?
  {
    if Text.Utf16Length(username) < MinUsernameLength then Some(UsernameTooShort)
    else if !available then Some(UsernameTaken)
    else if userId.None? then Some(NoSession)
    else None
  }

  /** Whether the Continue button is disabled. */
  predicate ContinueDisabled(username: string, available: bool, checking: bool)
  {
    !available || Text.Utf16Length(username) < MinUsernameLength || checking
  }

  /** An enabled Continue button passes the first two guards: only a missing session can
      still stop the step. */
  lemma EnabledContinueAdvances(username: string, available: bool, checking: bool, userId: Option<string>)
    requires !ContinueDisabled(username, available, checking)
    ensures UsernameGuard(username, available, userId).None? <==> userId.Some?
    ensures UsernameGuard(username, available, userId) != Some(UsernameTooShort)
    ensures UsernameGuard(username, available, userId) != Some(UsernameTaken)
  {
  }

  /** A name the store already holds never passes, whatever the lookup answers. */
  lemma TakenNameRefused(name: string, usernames: seq<string>, fails: bool, userId: Option<string>)
    requires name in usernames
    ensures UsernameGuard(name, Available(name, usernames, fails), userId) != None
  {
  }

  /** Length is counted in UTF-16 code units: two characters above U+FFFF already make a
      name of length 4, long enough for the length guard. */
  lemma AstralNameLongEnough()
    ensures UsernameGuard("\U{1F600}\U{1F600}", true, Some("u")).None?
    ensures UsernameGuard("a\U{1F600}", true, Some("u")).None?
    ensures UsernameGuard("ab", true, Some("u")) == Some(UsernameTooShort)
  {
  }

  /** A JSON value of the update payload; `Json` stands for any other value. */
  datatype Value = Str(s: string) | Flag(b: bool) | Null | Json(text: string)

  const UsernameKey := "username"
  const UserTypeKey := "user_type"
  const CompleteKey := "is_profile_complete"
  const UpdatedAtKey := "updated_at"

  function UserTypeValue(userType: Option<Profiles.UserType>): Value
  {
    match userType
    case None => Null
    case Some(Creator) => Str("creator")
    case Some(Business) => Str("business")
  }

  /** `{ ...profileData, username, user_type, is_profile_complete: true, updated_at }`:
      later keys override the spread ones. `now` is the clock's ISO time. */
  function CompletionPayload(profileData: map<string, Value>, username: string,
                             userType: Option<Profiles.UserType>, now: string): (r: map<string, Value>)
    ensures UsernameKey in r && r[UsernameKey] == Str(username)
    ensures UserTypeKey in r && r[UserTypeKey] == UserTypeValue(userType)
    ensures CompleteKey in r && r[CompleteKey] == Flag(true)
    ensures UpdatedAtKey in r && r[UpdatedAtKey] == Str(now)
    ensures forall k :: k in profileData ==> k in r
    ensures forall k :: k in r && k !in {UsernameKey, UserTypeKey, CompleteKey, UpdatedAtKey} ==>
                          k in profileData && r[k] == profileData[k]
  {
    profileData + map[UsernameKey := Str(username), UserTypeKey := UserTypeValue(userType),
                      CompleteKey := Flag(true), UpdatedAtKey := Str(now)]
  }

  /** An update sent to `profiles`: the row id and the columns. */
  datatype Update = Update(id: string, columns: map<string, Value>)

  /** The wizard's state, with the user type its parent keeps for it
      (app/auth/page.tsx) and the debounce timer reduced to the name it will check. */
  class WizardState {
    var username: string
    var isUsernameAvailable: bool
    var isCheckingUsername: bool
    var error: Option<FormError>
    var step: Step
    var userId: Option<string>
    var userType: Option<Profiles.UserType>
    var pendingCheck: Option<string>
    var updates: seq<Update>
    var redirected: bool

    constructor(session: Option<string>)
      ensures username == "" && isUsernameAvailable && !isCheckingUsername && error.None?
      ensures step == UsernameStep && userId == session && userType.None? && pendingCheck.None?
      ensures updates == [] && !redirected
    {
      username := "";
      isUsernameAvailable := true;
      isCheckingUsername := false;
      error := None;
      step := UsernameStep;
      userId := session;
      userType := None;
      pendingCheck := None;
      updates := [];
      redirected := false;
    }

    /** `checkUsernameAvailability(name)`; `usernames` is the `username` column and
        `fails` a store error. The flag is raised for the lookup and lowered after it. */
    method CheckUsernameAvailability(name: string, usernames: seq<string>, fails: bool) returns (available: bool)
      modifies this`isCheckingUsername
      ensures available == Available(name, usernames, fails)
      ensures Text.Utf16Length(name) < MinUsernameLength ==> isCheckingUsername == old(isCheckingUsername)
      ensures Text.Utf16Length(name) >= MinUsernameLength ==> !isCheckingUsername
    {
      if name == "" || Text.Utf16Length(name) < MinUsernameLength {
        return false;
      }
      isCheckingUsername := true;
      if fails {
        available := false;
      } else {
        available := name !in usernames;
      }
      isCheckingUsername := false;
    }

    /** `handleUsernameChange`: the pending check is cancelled; a name of three or more
        characters schedules a check of itself, a shorter one is shown as available. */
    method UsernameChange(value: string)
      modifies this`username, this`isCheckingUsername, this`isUsernameAvailable, this`pendingCheck
      ensures username == value
      ensures Text.Utf16Length(value) >= MinUsernameLength ==>
                isCheckingUsername && pendingCheck == Some(value) && isUsernameAvailable == old(isUsernameAvailable)
      ensures Text.Utf16Length(value) < MinUsernameLength ==>
                isUsernameAvailable && pendingCheck.None? && isCheckingUsername == old(isCheckingUsername)
    {
      username := value;
      pendingCheck := None;
      if Text.Utf16Length(value) >= MinUsernameLength {
        isCheckingUsername := true;
        pendingCheck := Some(value);
      } else {
        isUsernameAvailable := true;
      }
    }

    /** The debounce timer going off: the scheduled name is checked, the answer shown and
        the checking flag lowered once the lookup is done. */
    method TimerFires(usernames: seq<string>, fails: bool)
      modifies this`isUsernameAvailable, this`isCheckingUsername, this`pendingCheck
      ensures old(pendingCheck).Some? ==>
                isUsernameAvailable == Available(old(pendingCheck).value, usernames, fails)
                && pendingCheck.None?
      ensures old(pendingCheck).Some? && Text.Utf16Length(old(pendingCheck).value) >= MinUsernameLength ==> !isCheckingUsername
      ensures old(pendingCheck).Some? && Text.Utf16Length(old(pendingCheck).value) < MinUsernameLength ==>
                isCheckingUsername == old(isCheckingUsername)
      ensures old(pendingCheck).None? ==>
                isUsernameAvailable == old(isUsernameAvailable) && isCheckingUsername == old(isCheckingUsername)
                && pendingCheck.None?
    {
      if pendingCheck.Some? {
        var name := pendingCheck.value;
        pendingCheck := None;
        var available := CheckUsernameAvailability(name, usernames, fails);
        isUsernameAvailable := available;
      }
    }

    /** Whether the username form, and so its submit handler, is on screen. */
    predicate UsernameFormShown()
      reads this`step
    {
      step == UsernameStep
    }

    /** `handleUsernameSubmit`: the first failing guard sets its message and the wizard
        stays; otherwise it moves to the user-type step. */
    method UsernameSubmit()
      requires UsernameFormShown()
      modifies this`error, this`step
      ensures var guard := UsernameGuard(username, isUsernameAvailable, userId);
              if guard.Some? then error == guard && step == UsernameStep
              else error == old(error) && step == UserTypeStep
      ensures NotBefore(step, old(step))
    {
      var guard := UsernameGuard(username, isUsernameAvailable, userId);
      if guard.Some? {
        error := guard;
        return;
      }
      step := UserTypeStep;
    }

    /** `handleUserTypeSubmit`, with the parent storing the chosen type. */
    method UserTypeSubmit(chosen: Profiles.UserType)
      requires step == UserTypeStep
      modifies this`userType, this`step
      ensures userType == Some(chosen) && step == ProfileDetailsStep
      ensures NotBefore(step, old(step))
    {
      userType := Some(chosen);
      step := ProfileDetailsStep;
    }

    /** `handleProfileComplete` with the details form's data; `fails` stands for a store
        error and `now` for the clock. Success sends one update and leaves the page. */
    method ProfileComplete(profileData: map<string, Value>, fails: bool, now: string)
      requires step == ProfileDetailsStep
      modifies this`error, this`updates, this`redirected
      ensures userId.None? ==> error == Some(NoSession) && updates == old(updates) && redirected == old(redirected)
      ensures userId.Some? ==>
                updates == old(updates) + [Update(userId.value, CompletionPayload(profileData, username, userType, now))]
      ensures userId.Some? && fails ==> error == Some(SaveFailed) && redirected == old(redirected)
      ensures userId.Some? && !fails ==> error == old(error) && redirected
    {
      if userId.None? {
        error := Some(NoSession);
        return;
      }
      updates := updates + [Update(userId.value, CompletionPayload(profileData, username, userType, now))];
      if fails {
        error := Some(SaveFailed);
      } else {
        redirected := true;
      }
    }
  }
}
