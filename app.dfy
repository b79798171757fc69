/**
 * The top-level app: the profile repair and log rollover at load time, the
 * screen-status machine around an analysis, adding and deleting meals, and
 * the progress figures the home card shows. Storage, the clock and the
 * analysis service are injected: the caller supplies what was parsed from
 * storage, the calendar fields of today, and how the analysis ended.
 */
module App {
  import opened JsValues
  import opened Types
  import opened ProfileSetup
  import opened LocalDate
  import opened Ledger
  import UserHub
  import ResultDisplay

  /**
   * The load-time repair of a stored profile whose target is missing (0) or
   * below 1000: the bmr is raised to at least 1200 and the target becomes
   * the sedentary estimate, the nearest integer to 1.2 times that bmr. The
   * inputs are kept. A plausible target is left alone.
   */
  function RepairProfile(p: UserProfile): (r: UserProfile)
    ensures r.tdee >= 1000
    ensures p.tdee >= 1000 ==> r == p
    ensures p.tdee < 1000 ==>
      FormOf(r) == FormOf(p)
      && r.bmr >= 1200 && r.bmr >= p.bmr && (r.bmr == 1200 || r.bmr == p.bmr)
      && r.tdee as real - 0.5 <= 1.2 * (r.bmr as real) < r.tdee as real + 0.5
      && r.tdee >= 1440
  {
    if p.tdee == 0 || p.tdee < 1000 then
      var safeBmr := MaxInt(1200, if p.bmr == 0 then 1200 else p.bmr);
      RoundMonotone(1440.0, (safeBmr as real) * 1.2);
      p.(tdee := Round((safeBmr as real) * 1.2), bmr := safeBmr)
    else p
  }

  /** Repairing twice is the same as repairing once. */
  lemma RepairIdempotent(p: UserProfile)
    ensures RepairProfile(RepairProfile(p)) == RepairProfile(p)
  {
  }

  /** A profile the setup form produced never needs repair. */
  lemma SubmittedNeedsNoRepair(form: ProfileForm)
    requires Submit(form).Some?
    ensures RepairProfile(Submit(form).value) == Submit(form).value
  {
  }

  /**
   * The two floors differ: the smallest acceptable form yields a target of
   * 1000, which the load-time repair keeps, while a repaired target is never
   * below 1440.
   */
  lemma SubmitFloorIsBelowRepairFloor()
    ensures var p := Submit(ProfileForm(50, 20, 100, Female, Sedentary, Lose));
      p.Some? && p.value.tdee == 1000 && RepairProfile(p.value) == p.value
  {
    FloorsBind();
  }

  /** `(consumed / tdee) * 100` when there is a profile, else 0. */
  function ProgressPercent(consumed: real, profile: Option<UserProfile>): (pct: real)
    requires profile.Some? ==> profile.value.tdee != 0
    ensures profile.None? ==> pct == 0.0
    ensures profile.Some? && profile.value.tdee > 0 ==>
      (pct > 100.0 <==> consumed > profile.value.tdee as real)
      && (pct == 100.0 <==> consumed == profile.value.tdee as real)
      && (consumed >= 0.0 ==> pct >= 0.0)
  {
    if profile.Some? then
      Percent(consumed, profile.value.tdee as real)
    else 0.0
  }

  /** `isOverLimit`: the day's calories exceed the target. */
  function IsOverLimit(consumed: real, profile: Option<UserProfile>): (over: bool)
    requires profile.Some? ==> profile.value.tdee != 0
    ensures profile.None? ==> !over
    ensures profile.Some? && profile.value.tdee > 0 ==> (over <==> consumed > profile.value.tdee as real)
  {
    ProgressPercent(consumed, profile) > 100.0
  }

  /** The home card's bar: the progress capped at 100 percent. */
  function BarWidth(consumed: real, profile: Option<UserProfile>): (w: real)
    requires profile.Some? ==> profile.value.tdee != 0
    ensures w <= 100.0 && w <= ProgressPercent(consumed, profile)
    ensures w == 100.0 || w == ProgressPercent(consumed, profile)
    ensures IsOverLimit(consumed, profile) ==> w == 100.0
  {
    MinReal(ProgressPercent(consumed, profile), 100.0)
  }

  /** The hub panel flags the day as over the limit exactly when the home card does. */
  lemma HubAgreesWithHomeCard(profile: UserProfile, log: DailyLog)
    requires profile.tdee >= 1000
    ensures UserHub.Hub(true, profile, log).value.isOver == IsOverLimit(TotalCalories(log.entries), Some(profile))
  {
  }

  /**
   * With a profile, the report's budget card turns red exactly when the home
   * card shows the day as over the limit (with the red style as intended).
   */
  lemma ReportAgreesWithHomeCard(profile: UserProfile, log: DailyLog)
    requires profile.tdee >= 1000
    ensures var consumed := TotalCalories(log.entries);
      ResultDisplay.Budget(consumed, Some(profile)).value.red == IsOverLimit(consumed, Some(profile))
  {
  }

  /** What the profile effect leaves in storage: the current profile, if there is one. */
  function StoredProfile(profile: Option<UserProfile>, stored: Option<UserProfile>): (s: Option<UserProfile>)
    ensures profile.Some? ==> s == profile
    ensures profile.None? ==> s == stored
  {
    if profile.Some? then profile else stored
  }

  /** What the log effect leaves in storage: the current log, once it has a date. */
  function StoredLog(log: DailyLog, stored: Option<DailyLog>): (s: Option<DailyLog>)
    ensures log.date != "" ==> s == Some(log)
    ensures log.date == "" ==> s == stored
  {
    if log.date != "" then Some(log) else stored
  }

  /**
   * Reloading on the same day restores what was on screen: a plausible
   * profile comes back unrepaired and today's log comes back whole.
   */
  lemma ReloadSameDay(p: UserProfile, log: DailyLog, sp: Option<UserProfile>, sl: Option<DailyLog>,
                      year: int, monthIndex: nat, day: nat)
    requires p.tdee >= 1000 && log.date == LocalToday(year, monthIndex, day)
    ensures var saved := StoredProfile(Some(p), sp);
      saved.Some? && RepairProfile(saved.value) == p
    ensures Rollover(StoredLog(log, sl), LocalToday(year, monthIndex, day)) == log
  {
  }

  /** Reloading on a later day keeps the profile but starts the day with no meals. */
  lemma ReloadNextDay(log: DailyLog, sl: Option<DailyLog>, year: int, monthIndex: nat, day: nat)
    requires log.date != "" && log.date != LocalToday(year, monthIndex, day)
    ensures Rollover(StoredLog(log, sl), LocalToday(year, monthIndex, day)) == DailyLog(LocalToday(year, monthIndex, day), [])
  {
  }

  /** What an `await`ed analysis call can throw. */
  datatype Thrown = ErrorObject(message: string) | OtherValue

  /** How the analysis call ended. */
  datatype AnalysisOutcome = Analyzed(data: AnalysisResult) | Threw(thrown: Thrown)

  /** The text shown on the error screen: an `Error`'s message, or a generic one. */
  function ErrorMessage(t: Thrown): (m: string)
    ensures t.ErrorObject? ==> m == t.message
    ensures t.OtherValue? ==> m == "An unexpected error occurred"
  {
    match t
    case ErrorObject(msg) => msg
    case OtherValue => "An unexpected error occurred"
  }

  /** The app's state. */
  class AppState {
    var status: AppStatus
    var result: Option<AnalysisResult>
    var error: Option<string>
    var lang: Language
    var editingProfile: bool
    var profile: Option<UserProfile>
    var log: DailyLog

    /**
     * What holds between events: a profile's target is at least 1000 (so
     * every division by it is safe), and the result and the error match the
     * status: only a success has a result, only an error has a message.
     */
    ghost predicate Valid()
      reads this
    {
      (profile.Some? ==> profile.value.tdee >= 1000)
      && (status == Success <==> result.Some?)
      && (status == Error <==> error.Some?)
    }

    /** The state before the load effect runs. */
    constructor ()
      ensures Valid()
      ensures status == Idle && result == None && error == None
      ensures lang == Zh && !editingProfile
      ensures profile == None && log == DailyLog("", [])
    {
      status := Idle;
      result := None;
      error := None;
      lang := Zh;
      editingProfile := false;
      profile := None;
      log := DailyLog("", []);
    }

    /**
     * The load effect: a stored profile is repaired if needed and adopted,
     * and the stored log is kept only if it is dated today.
     */
    method Load(savedProfile: Option<UserProfile>, savedLog: Option<DailyLog>,
                year: int, monthIndex: nat, day: nat)
      requires Valid()
      modifies this
      ensures Valid()
      ensures savedProfile.Some? ==> profile == Some(RepairProfile(savedProfile.value))
      ensures savedProfile.None? ==> profile == old(profile)
      ensures log == Rollover(savedLog, LocalToday(year, monthIndex, day))
      ensures StoredLog(log, savedLog) == Some(log)
      ensures status == old(status) && result == old(result) && error == old(error)
      ensures lang == old(lang) && editingProfile == old(editingProfile)
    {
      if savedProfile.Some? {
        var parsed := savedProfile.value;
        if parsed.tdee == 0 || parsed.tdee < 1000 {
          var safeBmr := MaxInt(1200, if parsed.bmr == 0 then 1200 else parsed.bmr);
          parsed := parsed.(tdee := Round((safeBmr as real) * 1.2));
          parsed := parsed.(bmr := safeBmr);
        }
        profile := Some(parsed);
      }
      var today := LocalToday(year, monthIndex, day);
      if savedLog.Some? {
        log := if savedLog.value.date == today then savedLog.value else DailyLog(today, []);
      } else {
        log := DailyLog(today, []);
      }
    }

    /** The setup screen shows when there is no profile yet or the user chose to edit it. */
    predicate ShowsProfileSetup(): (shown: bool)
      reads this
      ensures profile.None? ==> shown
      ensures !shown ==> profile.Some? && !editingProfile
      ensures Valid() && !shown ==> profile.value.tdee >= 1000
    {
      profile.None? || editingProfile
    }

    /** The form the setup screen starts from: the current profile, or the defaults. */
    function SetupForm(): (form: ProfileForm)
      reads this
      ensures profile.Some? ==> form == FormOf(profile.value)
      ensures profile.None? ==> form == DefaultForm()
    {
      if profile.Some? then FormOf(profile.value) else DefaultForm()
    }

    /** "Edit Profile" in the hub. */
    method EditProfile()
      requires Valid()
      modifies this
      ensures Valid()
      ensures editingProfile && ShowsProfileSetup()
      ensures status == old(status) && result == old(result) && error == old(error)
      ensures lang == old(lang) && profile == old(profile) && log == old(log)
    {
      editingProfile := true;
    }

    /**
     * Submitting the setup form: rejected input changes nothing (the user is
     * alerted), accepted input becomes the profile and closes the editor.
     */
    method SubmitProfile(form: ProfileForm) returns (accepted: bool)
      requires Valid()
      modifies this
      ensures Valid()
      ensures accepted <==> !Rejected(form)
      ensures accepted ==> profile == Submit(form) && !editingProfile && !ShowsProfileSetup()
      ensures !accepted ==> profile == old(profile) && editingProfile == old(editingProfile)
      ensures status == old(status) && result == old(result) && error == old(error)
      ensures lang == old(lang) && log == old(log)
    {
      var r := Submit(form);
      if r.None? {
        return false;
      }
      profile := r;
      editingProfile := false;
      return true;
    }

    /** Switching between Chinese and English. */
    method ToggleLanguage()
      requires Valid()
      modifies this
      ensures Valid()
      ensures lang == (if old(lang) == Zh then En else Zh)
      ensures status == old(status) && result == old(result) && error == old(error)
      ensures editingProfile == old(editingProfile) && profile == old(profile) && log == old(log)
    {
      lang := if lang == Zh then En else Zh;
    }

    /** `onAddToLog`: the meal goes at the end of today's log. */
    method AddToLog(entry: MealEntry)
      requires Valid()
      modifies this
      ensures Valid()
      ensures log == Append(old(log), entry)
      ensures TotalCalories(log.entries) == TotalCalories(old(log).entries) + entry.calories
      ensures status == old(status) && result == old(result) && error == old(error)
      ensures lang == old(lang) && editingProfile == old(editingProfile) && profile == old(profile)
    {
      TotalAfterAppend(log, entry);
      log := Append(log, entry);
    }

    /** `onDelete`: every entry with that id leaves today's log. */
    method DeleteEntry(id: string)
      requires Valid()
      modifies this
      ensures Valid()
      ensures log == Delete(old(log), id)
      ensures status == old(status) && result == old(result) && error == old(error)
      ensures lang == old(lang) && editingProfile == old(editingProfile) && profile == old(profile)
    {
      log := Delete(log, id);
    }

    /** The synchronous start of `handleImageSelect`: the loading screen, with any old error cleared. */
    method BeginAnalysis()
      requires Valid() && status == Idle
      modifies this
      ensures Valid()
      ensures status == Analyzing && error == None && result == None
      ensures lang == old(lang) && editingProfile == old(editingProfile)
      ensures profile == old(profile) && log == old(log)
    {
      status := Analyzing;
      error := None;
    }

    /** The end of `handleImageSelect`: the result on success, the error text on a throw. */
    method FinishAnalysis(outcome: AnalysisOutcome)
      requires Valid() && status == Analyzing
      modifies this
      ensures Valid()
      ensures outcome.Analyzed? ==> status == Success && result == Some(outcome.data) && error == None
      ensures outcome.Threw? ==> status == Error && result == None && error == Some(ErrorMessage(outcome.thrown))
      ensures lang == old(lang) && editingProfile == old(editingProfile)
      ensures profile == old(profile) && log == old(log)
    {
      match outcome
      case Analyzed(data) =>
        result := Some(data);
        status := Success;
      case Threw(thrown) =>
        status := Error;
        error := Some(ErrorMessage(thrown));
    }

    /**
     * `handleImageSelect`, reachable only from the idle screen: it always
     * leaves the loading state, for success or for error.
     */
    method HandleImageSelect(outcome: AnalysisOutcome)
      requires Valid() && status == Idle
      modifies this
      ensures Valid()
      ensures status == Success || status == Error
      ensures outcome.Analyzed? ==> status == Success && result == Some(outcome.data) && error == None
      ensures outcome.Threw? ==> status == Error && result == None && error == Some(ErrorMessage(outcome.thrown))
      ensures lang == old(lang) && editingProfile == old(editingProfile)
      ensures profile == old(profile) && log == old(log)
    {
      BeginAnalysis();
      FinishAnalysis(outcome);
    }

    /** `handleReset`: back to the idle screen with no result and no error; the profile and the log stay. */
    method Reset()
      requires Valid()
      modifies this
      ensures Valid()
      ensures status == Idle && result == None && error == None
      ensures lang == old(lang) && editingProfile == old(editingProfile)
      ensures profile == old(profile) && log == old(log)
    {
      status := Idle;
      result := None;
      error := None;
    }
  }
}
