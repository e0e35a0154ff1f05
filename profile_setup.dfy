/** The nickname form of src/app/profile/setup/page.tsx: load the current
    nickname (or a default), validate the edited one, save it, then go on to
    the page the visitor came from. */
module ProfileSetup {
  import opened Wrappers
  import opened Text

  /** `DISPLAY_NAME_MAX_LENGTH` */
  const DisplayNameMaxLength: nat := 30

  /** The three messages the form can show. */
  datatype FormError = EmptyName | TooLong | SaveFailed

  /** The text shown for each message. */
  function Message(e: FormError): string
  {
    match e
    case EmptyName => "ニックネームを入力してください"
    case TooLong => "30文字以内で入力してください"
    case SaveFailed => "保存に失敗しました。もう一度お試しください。"
  }

  /** The signed-in user: an id and the provider's `full_name`, if any. */
  datatype AuthUser = AuthUser(id: string, fullName: Option<string>)

  /** The row `handleSubmit` upserts into `profiles`. */
  datatype ProfileUpsert = ProfileUpsert(id: string, displayName: string)

  datatype Validation = Valid(name: string) | Invalid(reason: FormError)

  /** The checks of `handleSubmit`, in their order: empty after trimming, then
      too long. A valid name is the trimmed one. */
  function ValidateDisplayName(displayName: string): (r: Validation)
    ensures r.Valid? <==> 0 < |Trim(displayName)| <= DisplayNameMaxLength
    ensures r.Valid? ==> r.name == Trim(displayName)
    ensures r.Valid? ==> !IsWhitespace(r.name[0]) && !IsWhitespace(r.name[|r.name| - 1])
    ensures |Trim(displayName)| == 0 ==> r == Invalid(EmptyName)
    ensures |Trim(displayName)| > DisplayNameMaxLength ==> r == Invalid(TooLong)
  {
    var trimmed := Trim(displayName);
    if |trimmed| == 0 then Invalid(EmptyName)
    else if |trimmed| > DisplayNameMaxLength then Invalid(TooLong)
    else Valid(trimmed)
  }

  /** The length message renders the limit it checks. */
  lemma TooLongMessageNamesTheLimit()
    ensures Message(TooLong) == NatToString(DisplayNameMaxLength) + "文字以内で入力してください"
  {
    assert NatToString(30) == NatToString(3) + [DigitChar(0)];
  }

  /** A name of exactly the maximum length passes; one character more does not;
      whitespace around it does not count. */
  lemma LengthBoundary(core: string)
    requires |core| == DisplayNameMaxLength
    requires !IsWhitespace(core[0]) && !IsWhitespace(core[|core| - 1])
    ensures ValidateDisplayName(core) == Valid(core)
    ensures ValidateDisplayName(" " + core + " ") == Valid(core)
    ensures ValidateDisplayName(core + "x") == Invalid(TooLong)
  {
    assert TrimStart(core) == core;
    assert TrimEnd(core) == core;
    var padded := " " + core + " ";
    assert padded[1..] == core + " ";
    assert TrimStart(padded) == TrimStart(core + " ") == core + " ";
    assert (core + " ")[..|core|] == core;
    assert TrimEnd(core + " ") == TrimEnd(core);
    var longer := core + "x";
    assert TrimStart(longer) == longer;
    assert TrimEnd(longer) == longer;
  }

  /** `searchParams.get("redirectTo") ?? "/"` */
  function RedirectTarget(param: Option<string>): (r: string)
    ensures param.None? ==> r == "/"
    ensures param.Some? ==> r == param.value
  {
    match param
    case Some(target) => target
    case None => "/"
  }

  /** The name the form starts with: the stored nickname when a profile exists,
      otherwise the provider's full name, otherwise empty. */
  function LoadedName(user: AuthUser, profile: Option<string>): (r: string)
    ensures profile.Some? ==> r == profile.value
    ensures profile.None? && user.fullName.Some? ==> r == user.fullName.value
    ensures profile.None? && user.fullName.None? ==> r == ""
  {
    if profile.Some? then profile.value
    else if user.fullName.Some? then user.fullName.value
    else ""
  }

  /** The form's state. Each run of the load effect gets a number; `liveRun` is
      the run whose cleanup has not happened yet (its `ignore` is still false). */
  class ProfileSetupForm {
    var displayName: string
    var isLoading: bool
    var isSaving: bool
    var error: Option<FormError>
    var isEditing: bool
    const redirectTo: string
    var runs: nat
    var liveRun: Option<nat>
    var navigatedTo: Option<string>

    constructor (redirectParam: Option<string>)
      ensures redirectTo == RedirectTarget(redirectParam)
      ensures displayName == "" && isLoading && !isSaving && error == None && !isEditing
      ensures runs == 0 && liveRun == None && navigatedTo == None
    {
      redirectTo := RedirectTarget(redirectParam);
      displayName, isLoading, isSaving, error, isEditing := "", true, false, None, false;
      runs, liveRun, navigatedTo := 0, None, None;
    }

    /** The effect runs: a fresh `ignore = false` flag, numbered `run`. React
        runs an effect's cleanup before running the effect again, so no run is
        live at this point. */
    method StartLoad() returns (run: nat)
      requires liveRun == None
      modifies this`runs, this`liveRun
      ensures run == old(runs) && runs == old(runs) + 1 && liveRun == Some(run)
    {
      run := runs;
      runs := runs + 1;
      liveRun := Some(run);
    }

    /** The effect's cleanup: `ignore = true` for the live run. */
    method Teardown()
      modifies this`liveRun
      ensures liveRun == None
    {
      liveRun := None;
    }

    /** A run of `load` finishing with the user and the stored nickname the store
        returned. A run whose cleanup already happened, or a missing user,
        changes nothing. */
    method CompleteLoad(run: nat, user: Option<AuthUser>, profile: Option<string>)
      modifies this`displayName, this`isEditing, this`isLoading
      ensures liveRun != Some(run) || user.None? ==>
        displayName == old(displayName) && isEditing == old(isEditing) && isLoading == old(isLoading)
      ensures liveRun == Some(run) && user.Some? ==>
        && displayName == LoadedName(user.value, profile)
        && isEditing == (old(isEditing) || profile.Some?)
        && !isLoading
    {
      var ignore := liveRun != Some(run);
      if user.None? || ignore {
        return;
      }
      if profile.Some? {
        displayName := profile.value;
        isEditing := true;
      } else {
        displayName := LoadedName(user.value, None);
      }
      isLoading := false;
    }

    /** Typing into the nickname input. */
    method SetDisplayName(name: string)
      modifies this`displayName
      ensures displayName == name
    {
      displayName := name;
    }

    /** `handleSubmit`, given the signed-in user's id and whether the upsert
        succeeded; returns the row it upserts, if any. */
    method HandleSubmit(user: Option<string>, saveOk: bool) returns (upserted: Option<ProfileUpsert>)
      modifies this`error, this`isSaving, this`navigatedTo
      ensures match ValidateDisplayName(displayName)
        case Invalid(reason) =>
          && upserted == None && error == Some(reason)
          && isSaving == old(isSaving) && navigatedTo == old(navigatedTo)
        case Valid(name) =>
          && upserted == (if user.Some? then Some(ProfileUpsert(user.value, name)) else None)
          && (if user.Some? && !saveOk then error == Some(SaveFailed) && !isSaving else error == None && isSaving)
          && navigatedTo == (if user.Some? && saveOk then Some(redirectTo) else old(navigatedTo))
    {
      // the two guards of the handler, in their order, are ValidateDisplayName
      var checked := ValidateDisplayName(displayName);
      if checked.Invalid? {
        error := Some(checked.reason);
        return None;
      }
      isSaving := true;
      error := None;
      if user.None? {
        return None;
      }
      upserted := Some(ProfileUpsert(user.value, checked.name));
      if !saveOk {
        error := Some(SaveFailed);
        isSaving := false;
        return;
      }
      navigatedTo := Some(redirectTo);
    }
  }

  /** React's development remount: the first run is cleaned up and a second
      run starts before the first run's answers arrive; the first run's late
      answer is discarded and only the second one lands. */
  method StaleLoadIsDiscarded(user: AuthUser, stale: Option<string>, current: Option<string>)
    returns (form: ProfileSetupForm)
    ensures form.displayName == LoadedName(user, current) && !form.isLoading
    ensures form.isEditing <==> current.Some?
  {
    form := new ProfileSetupForm(None);
    var first := form.StartLoad();
    form.Teardown();
    var second := form.StartLoad();
    form.CompleteLoad(first, Some(user), stale);
    assert form.displayName == "" && form.isLoading;
    form.CompleteLoad(second, Some(user), current);
  }
}
