/**
 * The calorie page: a person's age, sex, height in feet and inches, weight
 * in pounds and activity factor; the resting energy of the Mifflin-St Jeor
 * equation, the day's energy need at that activity, the targets for three
 * rates of weight loss and the macronutrient split of the maintenance figure.
 */
module Calorie {
  import opened Numerics

  datatype Gender = Male | Female

  datatype Inputs = Inputs(age: real, gender: Gender, heightFeet: real, heightInches: real, weight: real, activityLevel: real)

  /** Every figure the page shows, each rounded to a whole number. */
  datatype CalorieResults = CalorieResults(
    bmr: int, maintain: int, mildLoss: int, weightLoss: int, extremeLoss: int,
    protein: int, carbs: int, fats: int)

  datatype ActivityLevel = ActivityLevel(value: real, caption: string)

  /** The activity factors offered, from sedentary to extra active. */
  const ActivityLevels: seq<ActivityLevel> := [
    ActivityLevel(1.2, "Sedentary: little or no exercise"),
    ActivityLevel(1.375, "Lightly Active: light exercise 1-3 days/week"),
    ActivityLevel(1.55, "Moderately Active: moderate exercise 3-5 days/week"),
    ActivityLevel(1.725, "Very Active: hard exercise 6-7 days/week"),
    ActivityLevel(1.9, "Extra Active: very hard exercise & physical job")]

  /** Five factors, each more active than the one before, all between 1.2 and 1.9. */
  lemma ActivityLevelsOrdered()
    ensures |ActivityLevels| == 5
    ensures forall i, j :: 0 <= i < j < 5 ==> ActivityLevels[i].value < ActivityLevels[j].value
    ensures forall i :: 0 <= i < 5 ==> 1.2 <= ActivityLevels[i].value <= 1.9
  {
  }

  // ------------------------------------------------------------------
  // Validation

  datatype Message = AgeOutOfRange | HeightUnrealistic | InchesOutOfRange | WeightOutOfRange

  predicate Valid(inp: Inputs)
  {
    && 0.0 < inp.age <= 150.0
    && 0.0 < inp.heightFeet <= 10.0
    && 0.0 <= inp.heightInches < 12.0
    && 0.0 < inp.weight <= 1000.0
  }

  /** validateInputs: one message per measurement out of range, under that measurement's name. */
  function ValidateInputs(inp: Inputs): (errors: map<string, Message>)
    ensures errors.Keys <= {"age", "heightFeet", "heightInches", "weight"}
    ensures "age" in errors <==> inp.age <= 0.0 || inp.age > 150.0
    ensures "heightFeet" in errors <==> inp.heightFeet <= 0.0 || inp.heightFeet > 10.0
    ensures "heightInches" in errors <==> inp.heightInches < 0.0 || inp.heightInches >= 12.0
    ensures "weight" in errors <==> inp.weight <= 0.0 || inp.weight > 1000.0
    ensures errors == map[] <==> Valid(inp)
  {
    var e0: map<string, Message> := map[];
    var e1 := if inp.age <= 0.0 || inp.age > 150.0 then e0["age" := AgeOutOfRange] else e0;
    var e2 := if inp.heightFeet <= 0.0 || inp.heightFeet > 10.0 then e1["heightFeet" := HeightUnrealistic] else e1;
    var e3 := if inp.heightInches < 0.0 || inp.heightInches >= 12.0 then e2["heightInches" := InchesOutOfRange] else e2;
    var e4 := if inp.weight <= 0.0 || inp.weight > 1000.0 then e3["weight" := WeightOutOfRange] else e3;
    assert e4 == map[] ==> ("age" !in e4 && "heightFeet" !in e4 && "heightInches" !in e4 && "weight" !in e4);
    e4
  }

  // ------------------------------------------------------------------
  // The equation

  /** Pounds to kilograms. */
  function WeightKg(inp: Inputs): real
  {
    inp.weight / 2.205
  }

  /** Feet and inches to centimetres. */
  function HeightCm(inp: Inputs): real
  {
    (inp.heightFeet * 12.0 + inp.heightInches) * 2.54
  }

  /** The Mifflin-St Jeor resting energy in kcal per day. */
  function Bmr(inp: Inputs): real
  {
    match inp.gender
    case Male => 10.0 * WeightKg(inp) + 6.25 * HeightCm(inp) - 5.0 * inp.age + 5.0
    case Female => 10.0 * WeightKg(inp) + 6.25 * HeightCm(inp) - 5.0 * inp.age - 161.0
  }

  /** The day's energy need: resting energy times the activity factor. */
  function Tdee(inp: Inputs): real
  {
    Bmr(inp) * inp.activityLevel
  }

  /** The figures calculateCalories sets for valid inputs. */
  function Figures(inp: Inputs): CalorieResults
  {
    var maintain := Tdee(inp);
    CalorieResults(
      Round(Bmr(inp)), Round(maintain), Round(maintain - 250.0), Round(maintain - 500.0), Round(maintain - 1000.0),
      Round(maintain * 0.30 / 4.0), Round(maintain * 0.40 / 4.0), Round(maintain * 0.30 / 9.0))
  }

  datatype Page = Page(errors: map<string, Message>, results: CalorieResults)

  /** calculateCalories: the errors are always shown; the figures change only when the inputs are valid. */
  function CalculateCalories(inp: Inputs, current: CalorieResults): (p: Page)
    ensures p.errors == ValidateInputs(inp)
    ensures !Valid(inp) ==> p.results == current
    ensures Valid(inp) ==> p.results == Figures(inp)
  {
    var errors := ValidateInputs(inp);
    if |errors.Keys| != 0 then Page(errors, current) else Page(errors, Figures(inp))
  }

  // ------------------------------------------------------------------
  // Properties

  /** For the same measurements a man's resting energy is 166 kcal above a woman's. */
  lemma MaleExceedsFemaleBy166(inp: Inputs)
    ensures Bmr(inp.(gender := Male)) - Bmr(inp.(gender := Female)) == 166.0
  {
  }

  /**
   * Each pound adds 10/2.205 kcal, each inch of height 6.25 * 2.54 kcal, and
   * each year takes 5 kcal away, whatever the sex.
   */
  lemma BmrSensitivity(inp: Inputs, dWeight: real, dInches: real, dAge: real)
    ensures var moved := inp.(weight := inp.weight + dWeight, heightInches := inp.heightInches + dInches, age := inp.age + dAge);
      Bmr(moved) - Bmr(inp) == 10.0 * dWeight / 2.205 + 6.25 * 2.54 * dInches - 5.0 * dAge
  {
  }

  /** A more active factor needs more energy, as long as the resting energy is positive. */
  lemma MoreActiveNeedsMore(inp: Inputs, higher: real)
    requires Bmr(inp) > 0.0 && higher > inp.activityLevel
    ensures Tdee(inp.(activityLevel := higher)) > Tdee(inp)
  {
    assert Tdee(inp.(activityLevel := higher)) - Tdee(inp) == Bmr(inp) * (higher - inp.activityLevel);
  }

  /**
   * Rounding commutes with taking off a whole number of calories, so the
   * three loss targets sit exactly 250, 500 and 1000 below the rounded
   * maintenance figure, in strictly decreasing order.
   */
  lemma TargetsStepDown(inp: Inputs)
    ensures var r := Figures(inp);
      && r.mildLoss == r.maintain - 250
      && r.weightLoss == r.maintain - 500
      && r.extremeLoss == r.maintain - 1000
      && r.maintain > r.mildLoss > r.weightLoss > r.extremeLoss
  {
    var t := Tdee(inp);
    RoundShift(t, 250);
    RoundShift(t, 500);
    RoundShift(t, 1000);
  }

  /** The warning about extreme weight loss. */
  predicate ShowsWarning(r: CalorieResults)
  {
    r.extremeLoss < 1200
  }

  /** The warning shows exactly when the rounded maintenance figure is below 2200. */
  lemma WarningBelow2200(inp: Inputs)
    ensures ShowsWarning(Figures(inp)) <==> Figures(inp).maintain < 2200
  {
    TargetsStepDown(inp);
  }

  /**
   * Before rounding, the three macronutrients give back the whole
   * maintenance energy: 4 kcal per gram of protein and of carbohydrate,
   * 9 per gram of fat, split 30/40/30. The grams shown, rounded, give it
   * back to within 8.5 kcal (half a gram of each).
   */
  lemma MacrosAddUpToMaintenance(inp: Inputs)
    ensures var m := Tdee(inp);
      4.0 * (m * 0.30 / 4.0) + 4.0 * (m * 0.40 / 4.0) + 9.0 * (m * 0.30 / 9.0) == m
    ensures var r := Figures(inp);
      Abs(4.0 * r.protein as real + 4.0 * r.carbs as real + 9.0 * r.fats as real - Tdee(inp)) <= 8.5
  {
    MacrosNearShares(inp);
  }

  /** Each rounded macronutrient is within half a gram of its share of the maintenance energy. */
  lemma MacrosNearShares(inp: Inputs)
    ensures var r := Figures(inp);
      var m := Tdee(inp);
      && Abs(r.protein as real - m * 0.30 / 4.0) <= 0.5
      && Abs(r.carbs as real - m * 0.40 / 4.0) <= 0.5
      && Abs(r.fats as real - m * 0.30 / 9.0) <= 0.5
  {
  }
}
