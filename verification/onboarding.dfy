/**
 * Onboarding: a three-step form (basics, then goals or expertise, then a
 * bio) whose last Continue creates the profile, and for a trainer also
 * marks the profile as a trainer's with an hourly rate.
 */
module Onboarding {
  import opened Common
  import opened Json
  import opened JsNumbers

  const FirstStep := 1
  const LastStep := 3

  /** What the Continue button does on a step: move on, or submit on the last one. */
  datatype Continuation = MoveTo(step: int) | Submit

  function Continue(step: int): (c: Continuation)
    ensures ValidStep(step) && c.MoveTo? ==> ValidStep(c.step) && c.step > step
    ensures c.Submit? <==> step >= LastStep
  {
    if step < LastStep then MoveTo(step + 1) else Submit
  }

  /** Back is shown only after the first step; pressing it goes one step back. */
  function Back(step: int): (b: Option<int>)
    ensures ValidStep(step) && b.Some? ==> ValidStep(b.value) && b.value < step
    ensures b.None? <==> step <= FirstStep
  {
    if step > FirstStep then Some(step - 1) else None
  }

  predicate ValidStep(step: int) {
    FirstStep <= step <= LastStep
  }

  /** The buttons keep the step in range; Continue submits exactly on the last step. */
  lemma StepsStayInRange(step: int)
    requires ValidStep(step)
    ensures Continue(step).MoveTo? ==> ValidStep(Continue(step).step)
    ensures Back(step).Some? ==> ValidStep(Back(step).value)
    ensures Continue(step) == Submit <==> step == 3
    ensures Back(step).None? <==> step == 1
  {
  }

  /** Back undoes Continue, and Continue undoes Back. */
  lemma BackUndoesContinue(step: int)
    requires ValidStep(step)
    ensures step < 3 ==> Back(Continue(step).step) == Some(step)
    ensures step > 1 ==> Continue(Back(step).value) == MoveTo(step)
  {
  }

  /** A button press: Continue, or Back (only offered when shown). */
  datatype Press = Next | Previous

  /** The step after a run of presses that does not submit; `None` once Continue submitted. */
  function Walk(step: int, presses: seq<Press>): Option<int>
    decreases |presses|
  {
    if |presses| == 0 then Some(step)
    else
      match presses[0]
      case Next => (match Continue(step) case Submit => None case MoveTo(s) => Walk(s, presses[1..]))
      case Previous => Walk(if Back(step).Some? then Back(step).value else step, presses[1..])
  }

  /** However the buttons are pressed, the form is always on one of its three steps. */
  lemma {:induction false} WalkStaysInRange(step: int, presses: seq<Press>)
    requires ValidStep(step)
    ensures Walk(step, presses).Some? ==> ValidStep(Walk(step, presses).value)
    decreases |presses|
  {
    if |presses| > 0 {
      StepsStayInRange(step);
      var next := if presses[0] == Next then (if step < 3 then step + 1 else step)
        else (if step > 1 then step - 1 else step);
      if !(presses[0] == Next && step == 3) {
        WalkStaysInRange(next, presses[1..]);
      }
    }
  }

  /** Submitting takes at least three presses of Continue from the start. */
  lemma {:induction false} SubmitNeedsThreeNexts(step: int, presses: seq<Press>)
    requires ValidStep(step)
    requires Walk(step, presses).None?
    ensures multiset(presses)[Next] >= 4 - step
    decreases |presses|
  {
    assert presses == [presses[0]] + presses[1..];
    if presses[0] == Next {
      if step < 3 {
        SubmitNeedsThreeNexts(step + 1, presses[1..]);
      }
    } else {
      SubmitNeedsThreeNexts(if step > 1 then step - 1 else step, presses[1..]);
    }
  }

  /** The progress bar, in percent: `(step / 3) * 100`. */
  function Progress(step: int): real {
    step as real / 3.0 * 100.0
  }

  lemma ProgressBar(step: int)
    requires ValidStep(step)
    ensures 0.0 < Progress(step) <= 100.0
    ensures Progress(step) == 100.0 <==> step == 3
    ensures step < 3 ==> Progress(step) < Progress(step + 1)
  {
  }

  /** The form's fields, all strings as the inputs hold them. */
  datatype Form = Form(
    fullName: string,
    age: string,
    gender: string,
    location: string,
    gymName: string,
    bio: string,
    fitnessGoal: string,
    experienceLevel: string,
    workoutFrequency: string,
    specialties: seq<string>,
    pricePerHour: string,
    certificationUrl: string)

  const InitialForm := Form("", "", "prefer_not_to_say", "", "", "", "strength", "intermediate", "3-4", [], "", "")

  /** One change the user makes to the form. */
  datatype Edit =
    | FullName(text: string)
    | Age(text: string)
    | Gender(text: string)
    | Location(text: string)
    | Goal(text: string)
    | Experience(text: string)
    | Specialties(text: string)
    | Rate(text: string)
    | Bio(text: string)

  /**
   * The field each input writes. The Specialties box writes `gym_name`;
   * no input writes `specialties`, `workout_frequency` or `certification_url`.
   */
  function Apply(form: Form, edit: Edit): (after: Form)
    ensures after.specialties == form.specialties
    ensures after.workoutFrequency == form.workoutFrequency && after.certificationUrl == form.certificationUrl
    ensures edit.Specialties? ==> after.gymName == edit.text
    ensures after.gymName != form.gymName ==> edit.Specialties?
  {
    match edit
    case FullName(t) => form.(fullName := t)
    case Age(t) => form.(age := t)
    case Gender(t) => form.(gender := t)
    case Location(t) => form.(location := t)
    case Goal(t) => form.(fitnessGoal := t)
    case Experience(t) => form.(experienceLevel := t)
    case Specialties(t) => form.(gymName := t)
    case Rate(t) => form.(pricePerHour := t)
    case Bio(t) => form.(bio := t)
  }

  const Goals := ["weight_loss", "muscle_gain", "strength", "cardio"]
  const Levels := ["beginner", "intermediate", "advanced"]

  /** The inputs each step shows: the second step shows goal and level buttons to members, the rate and specialties to everyone else. */
  predicate Offered(role: string, step: int, edit: Edit) {
    match edit
    case FullName(_) => step == 1
    case Age(_) => step == 1
    case Gender(t) => step == 1 && t in ["male", "female", "other", "prefer_not_to_say"]
    case Location(_) => step == 1
    case Goal(t) => step == 2 && role == "user" && t in Goals
    case Experience(t) => step == 2 && role == "user" && t in Levels
    case Specialties(_) => step == 2 && role != "user"
    case Rate(_) => step == 2 && role != "user"
    case Bio(_) => step == 3
  }

  function ApplyAll(form: Form, edits: seq<Edit>): Form
    decreases |edits|
  {
    if |edits| == 0 then form else ApplyAll(Apply(form, edits[0]), edits[1..])
  }

  /**
   * A member is never shown an input for `gym_name` (the only one is the
   * trainer's Specialties box), so a member's gym stays empty, and
   * the goal and level are always one of the offered choices.
   */
  lemma {:induction false} MemberFormInvariant(form: Form, edits: seq<(int, Edit)>)
    requires form.gymName == "" && form.fitnessGoal in Goals && form.experienceLevel in Levels
    requires forall k :: 0 <= k < |edits| ==> Offered("user", edits[k].0, edits[k].1)
    ensures var after := ApplyAll(form, EditsOf(edits));
      after.gymName == "" && after.fitnessGoal in Goals && after.experienceLevel in Levels
    decreases |edits|
  {
    if |edits| > 0 {
      assert Offered("user", edits[0].0, edits[0].1);
      assert EditsOf(edits)[0] == edits[0].1 && EditsOf(edits)[1..] == EditsOf(edits[1..]);
      MemberFormInvariant(Apply(form, edits[0].1), edits[1..]);
    }
  }

  /** No input writes `specialties` (it stays `[]`), nor `workout_frequency` or `certification_url`. */
  lemma {:induction false} UnwrittenFields(form: Form, edits: seq<Edit>)
    ensures ApplyAll(form, edits).specialties == form.specialties
    ensures ApplyAll(form, edits).workoutFrequency == form.workoutFrequency
    ensures ApplyAll(form, edits).certificationUrl == form.certificationUrl
    decreases |edits|
  {
    if |edits| > 0 {
      UnwrittenFields(Apply(form, edits[0]), edits[1..]);
    }
  }

  function EditsOf(edits: seq<(int, Edit)>): seq<Edit> {
    seq(|edits|, k requires 0 <= k < |edits| => edits[k].1)
  }

  lemma InitialFormChoices()
    ensures InitialForm.fitnessGoal in Goals && InitialForm.experienceLevel in Levels && InitialForm.gymName == ""
  {
  }

  /** A value in the stored profile row. */
  datatype Value = Text(text: string) | Whole(number: int) | NotANumber | Flag(flag: bool) | Amount(amount: real)

  /** `parseInt(formData.age)`. */
  function AgeValue(age: string): Value {
    match ParseInt(age)
    case Some(n) => Whole(n)
    case None => NotANumber
  }

  /** The eight fields every row has. */
  function BaseRow(userId: string, role: string, form: Form): map<string, Value> {
    map[
      "id" := Text(userId),
      "role" := Text(role),
      "full_name" := Text(form.fullName),
      "age" := AgeValue(form.age),
      "gender" := Text(form.gender),
      "location" := Text(form.location),
      "gym_name" := Text(form.gymName),
      "bio" := Text(form.bio)]
  }

  /** The three training fields a member's row adds. */
  function TrainingRow(form: Form): map<string, Value> {
    map[
      "fitness_goal" := Text(form.fitnessGoal),
      "experience_level" := Text(form.experienceLevel),
      "workout_frequency" := Text(form.workoutFrequency)]
  }

  /** The row `createProfile` inserts: eight fields for everyone, three more for members. */
  function ProfileData(userId: string, role: string, form: Form): (row: map<string, Value>)
    ensures row.Keys == if role == "user" then BaseKeys + MemberKeys else BaseKeys
    ensures forall key :: key in BaseKeys ==> row[key] == BaseRow(userId, role, form)[key]
    ensures role == "user" ==> forall key :: key in MemberKeys ==> row[key] == TrainingRow(form)[key]
  {
    var base := BaseRow(userId, role, form);
    assert base.Keys == BaseKeys;
    if role == "user" then
      var training := TrainingRow(form);
      assert training.Keys == MemberKeys;
      assert BaseKeys !! MemberKeys;
      base + training
    else base
  }

  /** `parseFloat(text) || 0`, with `parseFloat` given (`None` is `NaN`). */
  function HourlyRate(text: string, parseFloat: string -> Option<real>): (rate: real)
    ensures parseFloat(text).Some? && parseFloat(text).value != 0.0 ==> rate == parseFloat(text).value
    ensures parseFloat(text).None? ==> rate == 0.0
  {
    match parseFloat(text)
    case Some(x) => if x != 0.0 then x else 0.0
    case None => 0.0
  }

  /** The trainer update: the trainer flag and the rate. */
  function TrainerUpdate(form: Form, parseFloat: string -> Option<real>): map<string, Value> {
    map["is_trainer" := Flag(true), "price_per_hour" := Amount(HourlyRate(form.pricePerHour, parseFloat))]
  }

  /**
   * What `handleSubmit` does: the inserted row, the update for a trainer,
   * and whether it went on to the dashboard. The store's own errors are
   * returned rather than thrown, so they do not stop it.
   */
  datatype Submission = Submission(inserted: Option<map<string, Value>>, updated: Option<map<string, Value>>, navigated: bool)

  /** `userId` is `None` when there is no signed-in user: reading its `id` throws and nothing is written. */
  function HandleSubmit(userId: Option<string>, role: string, form: Form, parseFloat: string -> Option<real>): (s: Submission)
    ensures s.navigated <==> userId.Some?
    ensures s.inserted.Some? <==> userId.Some?
    ensures s.updated.Some? <==> userId.Some? && role == "trainer"
    ensures s.inserted.Some? ==> s.inserted.value == ProfileData(userId.value, role, form)
  {
    match userId
    case None => Submission(None, None, false)
    case Some(id) =>
      Submission(Some(ProfileData(id, role, form)),
        if role == "trainer" then Some(TrainerUpdate(form, parseFloat)) else None,
        true)
  }

  const BaseKeys := {"id", "role", "full_name", "age", "gender", "location", "gym_name", "bio"}
  const MemberKeys := {"fitness_goal", "experience_level", "workout_frequency"}

  /**
   * The row's shape by role: members get the eight shared fields and their
   * three training fields; trainers and any other role only the eight; a
   * trainer is then updated with the flag and the rate; without a user
   * nothing is written and the page stays.
   */
  lemma SubmissionShape(userId: Option<string>, role: string, form: Form, parseFloat: string -> Option<real>)
    ensures var s := HandleSubmit(userId, role, form, parseFloat);
      && (userId.None? <==> !s.navigated)
      && (userId.None? ==> s.inserted.None? && s.updated.None?)
      && (userId.Some? ==> s.inserted.Some? && s.inserted.value["id"] == Text(userId.value))
      && (userId.Some? && role == "user" ==> s.inserted.value.Keys == BaseKeys + MemberKeys)
      && (userId.Some? && role != "user" ==> s.inserted.value.Keys == BaseKeys)
      && (s.updated.Some? <==> userId.Some? && role == "trainer")
      && (s.updated.Some? ==> s.updated.value["is_trainer"] == Flag(true))
  {
  }

  /** The row carries exactly what the form held. */
  lemma RowCarriesForm(userId: string, role: string, form: Form)
    ensures var row := ProfileData(userId, role, form);
      && row["role"] == Text(role)
      && row["full_name"] == Text(form.fullName)
      && row["gym_name"] == Text(form.gymName)
      && row["bio"] == Text(form.bio)
      && (role == "user" ==>
        (row["fitness_goal"] == Text(form.fitnessGoal)
        && row["experience_level"] == Text(form.experienceLevel)
        && row["workout_frequency"] == Text(form.workoutFrequency)))
  {
    assert "role" in BaseKeys && "full_name" in BaseKeys && "gym_name" in BaseKeys && "bio" in BaseKeys;
    assert "fitness_goal" in MemberKeys && "experience_level" in MemberKeys && "workout_frequency" in MemberKeys;
  }

  /** An age typed as a number is stored as that number; an age left empty is stored as `NaN`. */
  lemma AgeStored(userId: string, role: string, form: Form, age: nat)
    ensures ProfileData(userId, role, form.(age := IntToString(age)))["age"] == Whole(age)
    ensures ProfileData(userId, role, form.(age := ""))["age"] == NotANumber
  {
    assert AgeValue(IntToString(age)) == Whole(age) by {
      assert IntToString(age) + "" == IntToString(age);
      ParseNumeral(age, "");
    }
    assert AgeValue("") == NotANumber by {
      EmptyIsNaN();
    }
    StoredAge(userId, role, form.(age := IntToString(age)));
    StoredAge(userId, role, form.(age := ""));
  }

  /**
   * A trainer's rate is stored as the number typed, and as 0 when the box
   * is left blank or does not read as a number (`parseFloat` gives `NaN`),
   * so the stored rate is never `NaN`.
   */
  lemma RateStored(userId: string, form: Form, parseFloat: string -> Option<real>)
    ensures var update := HandleSubmit(Some(userId), "trainer", form, parseFloat).updated;
      && update.Some?
      && update.value["is_trainer"] == Flag(true)
      && update.value["price_per_hour"] == Amount(
        if parseFloat(form.pricePerHour).Some? then parseFloat(form.pricePerHour).value else 0.0)
  {
  }

  lemma StoredAge(userId: string, role: string, form: Form)
    ensures ProfileData(userId, role, form)["age"] == AgeValue(form.age)
  {
  }

  /** What a trainer types as Specialties is stored as their gym. */
  lemma SpecialtiesStoredAsGym(userId: string, form: Form, text: string)
    ensures ProfileData(userId, "trainer", Apply(form, Specialties(text)))["gym_name"] == Text(text)
  {
  }
}
