/**
 * The onboarding calculator: the Mifflin-St Jeor basal metabolic rate,
 * the daily energy target derived from it, and the submit gate that turns
 * the form into a profile.
 */
module ProfileSetup {
  import opened JsValues
  import opened Types

  /**
   * The form's partial profile. Every number comes from `parseInt`, so it is
   * an integer; a box left empty or holding text that `parseInt` cannot read
   * holds 0 here, because the code treats undefined, NaN and 0 alike
   * (`data.weightKg || 0`, `!formData.age`).
   */
  datatype ProfileForm = ProfileForm(
    heightCm: int,
    weightKg: int,
    age: int,
    gender: Gender,
    activity: ActivityLevel,
    goal: Goal)

  /** The values the form starts with. */
  function DefaultForm(): ProfileForm
  {
    ProfileForm(170, 70, 30, Male, Moderate, Maintain)
  }

  /** The form filled in from an existing profile (the edit flow). */
  function FormOf(p: UserProfile): ProfileForm
  {
    ProfileForm(p.heightCm, p.weightKg, p.age, p.gender, p.activity, p.goal)
  }

  /** The Mifflin-St Jeor equation, exactly: 10 w + 6.25 h - 5 a + (5 | -161). */
  function MifflinStJeor(weightKg: int, heightCm: int, age: int, gender: Gender): real
  {
    10.0 * (weightKg as real) + 25.0 / 4.0 * (heightCm as real) - 5.0 * (age as real)
    + (if gender == Male then 5.0 else -161.0)
  }

  /**
   * How the equation moves with its inputs: each kilogram adds 10 kcal, each
   * centimetre 6.25, each year takes 5 away, and a man's value is 166 kcal
   * above a woman's of the same build and age.
   */
  lemma MifflinStJeorTerms(weightKg: int, heightCm: int, age: int)
    ensures MifflinStJeor(weightKg + 1, heightCm, age, Male) == MifflinStJeor(weightKg, heightCm, age, Male) + 10.0
    ensures MifflinStJeor(weightKg, heightCm + 1, age, Male) == MifflinStJeor(weightKg, heightCm, age, Male) + 6.25
    ensures MifflinStJeor(weightKg, heightCm, age + 1, Male) == MifflinStJeor(weightKg, heightCm, age, Male) - 5.0
    ensures MifflinStJeor(weightKg, heightCm, age, Male) == MifflinStJeor(weightKg, heightCm, age, Female) + 166.0
  {
  }

  /** Weight below 20 kg or height below 50 cm is not physical: the calculator falls back. */
  predicate OutOfRange(form: ProfileForm)
  {
    form.weightKg < 20 || form.heightCm < 50
  }

  /**
   * The basal metabolic rate: exactly 1200 for out-of-range inputs, else the
   * rounded equation, but never below 1000.
   */
  function Bmr(form: ProfileForm): (bmr: int)
    ensures bmr >= 1000
    ensures OutOfRange(form) ==> bmr == 1200
    ensures !OutOfRange(form) ==>
      var eq := Round(MifflinStJeor(form.weightKg, form.heightCm, form.age, form.gender));
      bmr >= eq && (bmr == eq || bmr == 1000)
  {
    if OutOfRange(form) then 1200
    else MaxInt(1000, Round(MifflinStJeor(form.weightKg, form.heightCm, form.age, form.gender)))
  }

  /** `calculateBMR` step by step: a local accumulated, then rounded and floored. */
  method CalculateBmr(form: ProfileForm) returns (bmr: int)
    ensures bmr == Bmr(form)
  {
    var w, h, a := form.weightKg, form.heightCm, form.age;
    if w < 20 || h < 50 {
      return 1200;
    }
    var raw: real := 10.0 * (w as real) + 6.25 * (h as real) - 5.0 * (a as real);
    raw := raw + if form.gender == Male then 5.0 else -161.0;
    bmr := MaxInt(1000, Round(raw));
  }

  /**
   * The bmr scaled by the activity multiplier: 1.2 (sedentary), 1.375
   * (light), 1.55 (moderate), 1.725 (active). Each case is written out so
   * that the product stays linear for the verifier.
   */
  function ActivityEnergy(bmr: int, activity: ActivityLevel): real
  {
    match activity
    case Sedentary => (bmr as real) * 1.2
    case Light => (bmr as real) * 1.375
    case Moderate => (bmr as real) * 1.55
    case Active => (bmr as real) * 1.725
  }

  /** The goal adjustment in kcal, applied before rounding. */
  function GoalOffset(goal: Goal): real
  {
    match goal
    case Lose => -500.0
    case Maintain => 0.0
    case Gain => 300.0
  }

  /**
   * The daily target: bmr times the multiplier plus the goal offset, rounded,
   * but never below the bmr itself nor below 1000.
   */
  function Tdee(bmr: int, activity: ActivityLevel, goal: Goal): (tdee: int)
    ensures tdee >= 1000 && tdee >= bmr
    ensures var raw := Round(ActivityEnergy(bmr, activity) + GoalOffset(goal));
      tdee >= raw && (tdee == raw || tdee == MaxInt(1000, bmr))
  {
    MaxInt(MaxInt(1000, bmr), Round(ActivityEnergy(bmr, activity) + GoalOffset(goal)))
  }

  /** `calculateTDEE` step by step: the multiplier overwritten by successive tests. */
  method CalculateTdee(bmr: int, activity: ActivityLevel, goal: Goal) returns (tdee: int)
    ensures tdee == Tdee(bmr, activity, goal)
  {
    var multiplier := 1.2;
    if activity == Light { multiplier := 1.375; }
    if activity == Moderate { multiplier := 1.55; }
    if activity == Active { multiplier := 1.725; }
    var raw := (bmr as real) * multiplier;
    if goal == Lose { raw := raw - 500.0; }
    if goal == Gain { raw := raw + 300.0; }
    var floor := MaxInt(1000, bmr);
    tdee := MaxInt(floor, Round(raw));
  }

  /** The submit gate: a missing or zero height, weight or age, or a height or weight below the minimum. */
  predicate Rejected(form: ProfileForm)
  {
    form.heightCm == 0 || form.weightKg == 0 || form.age == 0
    || form.heightCm < 50 || form.weightKg < 20
  }

  /** A profile whose `bmr` and `tdee` are exactly what the calculator derives from its inputs. */
  predicate Derived(p: UserProfile)
  {
    p.bmr == Bmr(FormOf(p)) && p.tdee == Tdee(p.bmr, p.activity, p.goal)
  }

  /**
   * Submitting the form: no profile for rejected input (the user is alerted
   * instead), else the form's inputs with `bmr` and `tdee` filled in.
   */
  function Submit(form: ProfileForm): (r: Option<UserProfile>)
    ensures r.None? <==> Rejected(form)
    ensures r.Some? ==> FormOf(r.value) == form && Derived(r.value)
    ensures r.Some? ==> 1000 <= r.value.bmr <= r.value.tdee
  {
    if Rejected(form) then None
    else
      var bmr := Bmr(form);
      var tdee := Tdee(bmr, form.activity, form.goal);
      Some(UserProfile(form.heightCm, form.weightKg, form.age, form.gender,
                       form.activity, form.goal, bmr, tdee))
  }

  /** Activity levels from least to most active. */
  function ActivityRank(a: ActivityLevel): nat
  {
    match a
    case Sedentary => 0
    case Light => 1
    case Moderate => 2
    case Active => 3
  }

  /** Goals from largest deficit to largest surplus. */
  function GoalRank(g: Goal): nat
  {
    match g
    case Lose => 0
    case Maintain => 1
    case Gain => 2
  }

  /** For a fixed bmr and goal, a more active level never gives a lower target. */
  lemma TdeeMonotoneInActivity(bmr: int, a1: ActivityLevel, a2: ActivityLevel, goal: Goal)
    requires bmr >= 0
    requires ActivityRank(a1) <= ActivityRank(a2)
    ensures Tdee(bmr, a1, goal) <= Tdee(bmr, a2, goal)
  {
    var r1 := ActivityEnergy(bmr, a1) + GoalOffset(goal);
    var r2 := ActivityEnergy(bmr, a2) + GoalOffset(goal);
    assert r1 <= r2;
    RoundMonotone(r1, r2);
  }

  /** For a fixed bmr and activity, lose <= maintain <= gain. */
  lemma TdeeMonotoneInGoal(bmr: int, activity: ActivityLevel, g1: Goal, g2: Goal)
    requires GoalRank(g1) <= GoalRank(g2)
    ensures Tdee(bmr, activity, g1) <= Tdee(bmr, activity, g2)
  {
    var x := ActivityEnergy(bmr, activity);
    RoundMonotone(x + GoalOffset(g1), x + GoalOffset(g2));
  }

  /** The default form: a 70 kg, 170 cm, 30-year-old male gets 1618 and 2508; as a female, bmr 1452. */
  lemma DefaultFormValues()
    ensures Bmr(DefaultForm()) == 1618
    ensures Bmr(DefaultForm().(gender := Female)) == 1452
    ensures Tdee(1618, Moderate, Maintain) == 2508
    ensures Submit(DefaultForm()) == Some(UserProfile(170, 70, 30, Male, Moderate, Maintain, 1618, 2508))
  {
    assert MifflinStJeor(70, 170, 30, Male) == 1617.5;
    assert MifflinStJeor(70, 170, 30, Female) == 1451.5;
  }

  /** The smallest acceptable inputs hit both floors: the equation is negative and the deficit is clamped. */
  lemma FloorsBind()
    ensures Bmr(ProfileForm(50, 20, 100, Female, Sedentary, Lose)) == 1000
    ensures Tdee(1000, Sedentary, Lose) == 1000
    ensures Submit(ProfileForm(50, 20, 100, Female, Sedentary, Lose)).Some?
  {
    assert MifflinStJeor(20, 50, 100, Female) == -148.5;
  }

  /** Opening a derived profile in the edit form and submitting it unchanged gives back the same profile. */
  lemma ResubmitUnchanged(p: UserProfile)
    requires Derived(p) && !Rejected(FormOf(p))
    ensures Submit(FormOf(p)) == Some(p)
  {
  }
}
