/**
 * The body-analysis record of app/core/models.py: the measurements a user enters,
 * the four result fields that `calculate_stats` derives from them (BMI, BMI band,
 * waist-to-hip ratio, body shape), and the two read-only helpers that map a body
 * shape to an image folder and to a workout schedule.
 *
 * Measurements are exact reals. BMI and WHR are stored after Python's `round(x, 2)`,
 * as integer hundredths, and are compared against the source's thresholds in the
 * same unit (18.5 is 1850, 0.85 is 85). The bust/hip ratio is never rounded and
 * stays a real.
 */
module CoreModels {
  import opened Wrappers
  import opened Rounding
  import opened Text

  datatype Gender = Male | Female

  datatype ActivityLevel = Sedentary | LightlyActive | ModeratelyActive | VeryActive | ExtraActive

  /** The five BMI bands, in increasing order of weight. */
  datatype BmiStatus = Underweight | Normal | Overweight | Obese1 | Obese2

  /** The Thai text stored in the `bmi_status` column for each band. */
  function StatusLabel(status: BmiStatus): (text: string)
    ensures Severity(status) >= 3 <==> |text| > |ObeseLabelPrefix| && text[..|ObeseLabelPrefix|] == ObeseLabelPrefix
    ensures Severity(status) >= 3 ==> text == ObeseLabelPrefix + [('0' as int + Severity(status) - 2) as char]
  {
    match status
    case Underweight =>
      assert "น้ำหนักต่ำกว่าเกณฑ์"[0] != ObeseLabelPrefix[0];
      "น้ำหนักต่ำกว่าเกณฑ์"
    case Normal => "สมส่วน"
    case Overweight => "น้ำหนักเกิน"
    case Obese1 => "อ้วนระดับ 1"
    case Obese2 => "อ้วนระดับ 2"
  }

  /** The words ("obese level ") that both obese labels start with, before the level digit. */
  const ObeseLabelPrefix: string := "อ้วนระดับ "

  /** Position of a band on the scale from underweight (0) to obese level 2 (4). */
  function Severity(status: BmiStatus): nat
  {
    match status
    case Underweight => 0
    case Normal => 1
    case Overweight => 2
    case Obese1 => 3
    case Obese2 => 4
  }

  /**
   * Body shapes. `Unspecified` is the value the classification starts from;
   * LowerTriangle is the hip-dominant ("pear") silhouette, UpperTriangle the
   * bust-dominant one.
   */
  datatype Shape = Unspecified | Hourglass | LowerTriangle | Rectangle | UpperTriangle | Apple

  /** The word ("figure") that every named shape label starts with. */
  const ShapePrefix: string := "หุ่น"

  /** The name of a shape's image folder, written out independently of the labels. */
  function ShapeStem(shape: Shape): string
  {
    match shape
    case Unspecified => "ไม่ระบุ"
    case Hourglass => "นาฬิกาทราย"
    case LowerTriangle => "สามเหลี่ยมล่าง"
    case Rectangle => "ทรงกระบอก"
    case UpperTriangle => "สามเหลี่ยมบน"
    case Apple => "แอปเปิ้ล"
  }

  /**
   * The Thai text stored in the `body_shape` column for each shape: the prefix
   * followed by the folder name for a named shape, the folder name alone otherwise.
   */
  function ShapeLabel(shape: Shape): (text: string)
    ensures shape != Unspecified ==> text == ShapePrefix + ShapeStem(shape)
    ensures shape == Unspecified ==> text == ShapeStem(shape)
  {
    match shape
    case Unspecified => "ไม่ระบุ"
    case Hourglass => "หุ่นนาฬิกาทราย"
    case LowerTriangle => "หุ่นสามเหลี่ยมล่าง"
    case Rectangle => "หุ่นทรงกระบอก"
    case UpperTriangle => "หุ่นสามเหลี่ยมบน"
    case Apple => "หุ่นแอปเปิ้ล"
  }

  /** One row of a workout schedule. */
  datatype Exercise = Exercise(name: string, sets: string, reps: string, image: string)

  /** The error `calculate_stats` raises. */
  datatype Error = ZeroDivisionError

  /** `(height / 100) ** 2`: the square of the height in metres, zero only for a zero height. */
  function HeightSquared(height: real): (sq: real)
    ensures sq == 0.0 <==> height == 0.0
  {
    var heightM := height / 100.0;
    assert heightM != 0.0 ==> heightM * heightM / heightM == heightM;
    heightM * heightM
  }

  /** BMI before rounding: weight in kg over the square of height in metres. */
  function Bmi(weight: real, height: real): (b: real)
    requires height != 0.0
    ensures b * (height / 100.0) * (height / 100.0) == weight
  {
    weight / HeightSquared(height)
  }

  /** The waist-to-hip ratio in hundredths; 0 when the hip measurement is not positive. */
  function Whr(waist: real, hip: real): (w: int)
    ensures hip <= 0.0 ==> w == 0
    ensures hip > 0.0 ==> -0.005 <= waist / hip - w as real / 100.0 <= 0.005
    ensures hip > 0.0 && (waist / hip * 100.0 - w as real == 0.5 || w as real - waist / hip * 100.0 == 0.5) ==> w % 2 == 0
  {
    if hip > 0.0 then RoundHundredths(waist / hip) else 0
  }

  /** The bust-to-hip ratio, unrounded; 1.0 when the hip measurement is not positive. */
  function BustHipRatio(bust: real, hip: real): (r: real)
    ensures hip > 0.0 ==> r * hip == bust
    ensures hip <= 0.0 ==> r == 1.0
  {
    if hip > 0.0 then bust / hip else 1.0
  }

  /**
   * The band for a BMI of `bmi` hundredths, chosen by the first test that matches.
   * The bands are written with one decimal (22.9, then 23.0), so a two-decimal BMI
   * strictly between two bands falls through every test and is labelled obese level 2.
   */
  function StatusFor(bmi: int): (status: BmiStatus)
    ensures status == Underweight <==> bmi < 1850
    ensures status == Normal <==> 1850 <= bmi <= 2290
    ensures status == Overweight <==> 2300 <= bmi <= 2490
    ensures status == Obese1 <==> 2500 <= bmi <= 2990
    ensures status == Obese2 <==> 2990 < bmi || 2290 < bmi < 2300 || 2490 < bmi < 2500
  {
    if bmi < 1850 then Underweight
    else if 1850 <= bmi <= 2290 then Normal
    else if 2300 <= bmi <= 2490 then Overweight
    else if 2500 <= bmi <= 2990 then Obese1
    else Obese2
  }

  /**
   * The body shape for a WHR of `whr` hundredths and bust/hip ratio `bhr`, by the
   * ordered decision tree of `calculate_stats`. The bust/hip ratio breaks the tie
   * inside the two overlapping WHR bands [0.78, 0.85) and [0.68, 0.78).
   */
  function ShapeFor(whr: int, bhr: real): (shape: Shape)
    ensures shape != Unspecified
    ensures shape == Apple <==> whr >= 85
    ensures shape == UpperTriangle <==> 78 <= whr < 85 && (bhr > 1.05 || whr > 82)
    ensures shape == Rectangle <==> 78 <= whr <= 82 && bhr <= 1.05
    ensures shape == LowerTriangle <==> 68 <= whr < 78 && (bhr < 0.95 || whr > 75)
    ensures shape == Hourglass <==> whr < 68 || (68 <= whr <= 75 && bhr >= 0.95)
  {
    if whr >= 85 then Apple
    else if 78 <= whr < 85 then
      if bhr > 1.05 then UpperTriangle
      else if whr <= 82 then Rectangle
      else UpperTriangle
    else if 68 <= whr < 78 then
      if bhr < 0.95 then LowerTriangle
      else if whr <= 75 then Hourglass
      else LowerTriangle
    else if whr < 68 then Hourglass
    else Rectangle
  }

  /**
   * The folder holding a shape's exercise images: nothing for a missing or empty
   * shape, otherwise the stored label with every occurrence of the prefix removed.
   */
  function ImageFolder(bodyShape: Option<string>): (folder: string)
    ensures bodyShape == None || bodyShape == Some("") ==> folder == ""
    ensures bodyShape.Some? ==> |folder| <= |bodyShape.value|
    ensures bodyShape.Some? && bodyShape.value != "" ==>
      (folder == bodyShape.value <==> forall i :: !OccursAt(bodyShape.value, ShapePrefix, i))
  {
    match bodyShape
    case None => ""
    case Some(s) =>
      if s == "" then ""
      else
        RemoveAllUnchanged(s, ShapePrefix);
        RemoveAll(s, ShapePrefix)
  }

  /** The fixed table of five exercises per named shape. */
  const Workouts: map<string, seq<Exercise>> := map[
    "หุ่นนาฬิกาทราย" := [
      Exercise("Squat", "3", "10-12", "Squat.gif"),
      Exercise("Hip Thrust", "3", "10-12", "Hip Thrust.gif"),
      Exercise("Push-up", "3", "8-12", "Push-up.gif"),
      Exercise("Plank", "3", "30-45 วินาที", "Plank.gif"),
      Exercise("เดินเร็ว", "-", "15-20 นาที", "Walk.gif")
    ],
    "หุ่นสามเหลี่ยมล่าง" := [
      Exercise("Shoulder Press", "4", "10-12", "Shoulder Press.gif"),
      Exercise("Lateral Raise", "3", "12-15", "Lateral Raise.gif"),
      Exercise("Glute Bridge", "3", "12-15", "Glute Bridge.gif"),
      Exercise("Step-up", "3", "10/ข้าง", "Step-up.gif"),
      Exercise("เดินชัน", "-", "20 นาที", "เดินชัน.gif")
    ],
    "หุ่นทรงกระบอก" := [
      Exercise("Hip Thrust", "4", "8-12", "Hip Thrust.gif"),
      Exercise("Romanian Deadlift", "3", "8-12", "Romanian Dead.gif"),
      Exercise("Lateral Raise", "3", "12-15", "Lateral Raise.gif"),
      Exercise("Russian Twist", "3", "12-16", "Russian Twist.gif"),
      Exercise("Walk", "-", "15-20 นาที", "Walk.gif")
    ],
    "หุ่นสามเหลี่ยมบน" := [
      Exercise("Squat", "4", "8-12", "squat.gif"),
      Exercise("Hip Thrust", "4", "10-12", "Hip Thrust.gif"),
      Exercise("Bulgarian Split Squat", "3", "8/ข้าง", "Bulgarian Split Squat.gif"),
      Exercise("Side Plank", "3", "25-40 วินาที", "Side Plank.gif"),
      Exercise("เดินชันเบา", "-", "15 นาที", "เดินชัน.gif")
    ],
    "หุ่นแอปเปิ้ล" := [
      Exercise("Walk", "-", "20-30 นาที", "Walk.gif"),
      Exercise("Lat Pulldown", "3", "12-15", "Lat Pulldown.gif"),
      Exercise("Dead Bug", "3", "10-12", "Dead Bug.gif"),
      Exercise("Plank (เข่า)", "3", "20-30 วินาที", "Knee Plank .JPG"),
      Exercise("Glute Bridge", "3", "12-15", "Glute Bridge.gif")
    ]
  ]

  /** The workout schedule for a stored shape: its table entry, or nothing. */
  function WorkoutSchedule(bodyShape: Option<string>): (plan: seq<Exercise>)
    ensures plan == [] || |plan| == 5
  {
    match bodyShape
    case None => []
    case Some(s) => if s in Workouts then Workouts[s] else []
  }

  /** Step 1 of `calculate_stats`: the if/elif chain that picks the BMI band. */
  method ClassifyBmiStatus(bmi: int) returns (status: BmiStatus)
    ensures status == StatusFor(bmi)
  {
    if bmi < 1850 {
      status := Underweight;
    } else if 1850 <= bmi <= 2290 {
      status := Normal;
    } else if 2300 <= bmi <= 2490 {
      status := Overweight;
    } else if 2500 <= bmi <= 2990 {
      status := Obese1;
    } else {
      status := Obese2;
    }
  }

  /**
   * Step 3 of `calculate_stats`: the decision tree that reassigns a local shape,
   * starting from `Unspecified`, for a WHR of `ratio` hundredths.
   */
  method ClassifyBodyShape(ratio: int, bustHipRatio: real) returns (shape: Shape)
    ensures shape == ShapeFor(ratio, bustHipRatio)
  {
    shape := Unspecified;
    if ratio >= 85 {
      shape := Apple;
    } else if 78 <= ratio < 85 {
      if bustHipRatio > 1.05 {
        shape := UpperTriangle;
      } else if ratio <= 82 {
        shape := Rectangle;
      } else {
        shape := UpperTriangle;
      }
    } else if 68 <= ratio < 78 {
      if bustHipRatio < 0.95 {
        shape := LowerTriangle;
      } else if ratio <= 75 {
        shape := Hourglass;
      } else {
        shape := LowerTriangle;
      }
    } else {
      if ratio < 68 {
        shape := Hourglass;
      } else {
        // the final fallback: every ratio of 68 or more was caught above
        assert false;
        shape := Rectangle;
      }
    }
  }

  /** A saved body-analysis record. */
  class BodyAnalysis {
    var age: nat
    var weight: real
    var height: real
    var gender: Gender
    var activityLevel: ActivityLevel
    var bust: real
    var waist: real
    var hip: real

    // Result fields; None until calculate_stats has filled them in.
    var bmi: Option<int>
    var bmiStatus: Option<string>
    var whr: Option<int>
    var bodyShape: Option<string>

    /** A record as the entry form creates it: measurements set, results empty. */
    constructor (age: nat, weight: real, height: real, gender: Gender, activityLevel: ActivityLevel,
                 bust: real, waist: real, hip: real)
      ensures this.age == age && this.weight == weight && this.height == height
      ensures this.gender == gender && this.activityLevel == activityLevel
      ensures this.bust == bust && this.waist == waist && this.hip == hip
      ensures bmi == None && bmiStatus == None && whr == None && bodyShape == None
    {
      this.age, this.weight, this.height := age, weight, height;
      this.gender, this.activityLevel := gender, activityLevel;
      this.bust, this.waist, this.hip := bust, waist, hip;
      bmi, bmiStatus, whr, bodyShape := None, None, None, None;
    }

    /** The result fields hold exactly what the measurements determine. */
    ghost predicate Analysed()
      reads this
    {
      && height != 0.0
      && bmi == Some(RoundHundredths(Bmi(weight, height)))
      && bmiStatus == Some(StatusLabel(StatusFor(bmi.value)))
      && whr == Some(Whr(waist, hip))
      && bodyShape == Some(ShapeLabel(ShapeFor(whr.value, BustHipRatio(bust, hip))))
    }

    /**
     * Fills in bmi, bmiStatus, whr and bodyShape from the measurements. A zero
     * height makes the BMI division raise before any field is written.
     */
    method CalculateStats() returns (outcome: Outcome<Error>)
      modifies this`bmi, this`bmiStatus, this`whr, this`bodyShape
      ensures outcome == Fail(ZeroDivisionError) <==> height == 0.0
      ensures outcome.Pass? <==> height != 0.0
      ensures outcome.Fail? ==> unchanged(this)
      ensures outcome.Pass? ==> Analysed()
      ensures old(Analysed()) ==> bmi == old(bmi) && bmiStatus == old(bmiStatus) && whr == old(whr) && bodyShape == old(bodyShape)
      ensures age == old(age) && weight == old(weight) && height == old(height)
      ensures gender == old(gender) && activityLevel == old(activityLevel)
      ensures bust == old(bust) && waist == old(waist) && hip == old(hip)
    {
      // 1. BMI and its band
      var heightSquared := HeightSquared(height);
      if heightSquared == 0.0 {
        return Fail(ZeroDivisionError);
      }
      var rounded := RoundHundredths(Bmi(weight, height));
      bmi := Some(rounded);

      var status := ClassifyBmiStatus(rounded);
      bmiStatus := Some(StatusLabel(status));

      // 2. Waist-to-hip ratio
      var ratio := Whr(waist, hip);
      whr := Some(ratio);

      // 3. Body shape
      var bustHipRatio := BustHipRatio(bust, hip);
      var shape := ClassifyBodyShape(ratio, bustHipRatio);
      bodyShape := Some(ShapeLabel(shape));
      outcome := Pass;
    }
  }

  /** The image folder of a named shape's label is the label without its prefix. */
  lemma FolderOfPrefixedLabel(shape: Shape)
    requires shape != Unspecified && ShapePrefix[1] !in ShapeStem(shape)
    ensures ImageFolder(Some(ShapeLabel(shape))) == ShapeStem(shape)
  {
    RemoveAllLeading(ShapeStem(shape), ShapePrefix);
    RemoveAllWithoutOccurrence(ShapeStem(shape), ShapePrefix, 1);
  }

  /** The image folder of every stored shape label is that shape's folder name, never empty. */
  lemma ImageFolderOfShape(shape: Shape)
    ensures ImageFolder(Some(ShapeLabel(shape))) == ShapeStem(shape)
    ensures ImageFolder(Some(ShapeLabel(shape))) != ""
  {
    match shape
    case Unspecified =>
      assert ShapePrefix[0] !in ShapeStem(shape);
      RemoveAllWithoutOccurrence(ShapeStem(shape), ShapePrefix, 0);
    case Hourglass =>
      assert ShapePrefix[1] !in ShapeStem(shape);
      FolderOfPrefixedLabel(shape);
    case LowerTriangle =>
      assert ShapePrefix[1] !in ShapeStem(shape);
      FolderOfPrefixedLabel(shape);
    case Rectangle =>
      assert ShapePrefix[1] !in ShapeStem(shape);
      FolderOfPrefixedLabel(shape);
    case UpperTriangle =>
      assert ShapePrefix[1] !in ShapeStem(shape);
      FolderOfPrefixedLabel(shape);
    case Apple =>
      assert ShapePrefix[1] !in ShapeStem(shape);
      FolderOfPrefixedLabel(shape);
  }

  /** Distinct BMI bands are stored as distinct labels. */
  lemma StatusLabelInjective(a: BmiStatus, b: BmiStatus)
    ensures StatusLabel(a) == StatusLabel(b) ==> a == b
  {
  }

  /**
   * The prefix is removed in a single left-to-right pass: removing the inner
   * occurrence of "หหุ่นุ่น" joins its two halves into a new occurrence, which stays.
   */
  lemma ImageFolderSinglePass()
    ensures ImageFolder(Some("ห" + ShapePrefix + "ุ่น")) == ShapePrefix
  {
    var s := "ห" + ShapePrefix + "ุ่น";
    assert s[..|ShapePrefix|] != ShapePrefix by {
      assert s[1] != ShapePrefix[1];
    }
    assert s[1..] == ShapePrefix + "ุ่น";
    RemoveAllLeading("ุ่น", ShapePrefix);
  }

  /** Distinct shapes are stored as distinct labels. */
  lemma ShapeLabelInjective(a: Shape, b: Shape)
    ensures ShapeLabel(a) == ShapeLabel(b) ==> a == b
  {
  }

  /** Each of the five named shapes has a schedule of exactly five exercises. */
  lemma ScheduleOfNamedShape(shape: Shape)
    ensures shape != Unspecified <==> |WorkoutSchedule(Some(ShapeLabel(shape)))| == 5
  {
  }

  /** Any stored value that is not a named shape label, None included, gets no schedule. */
  lemma ScheduleOfOtherValue(bodyShape: Option<string>)
    requires forall shape :: shape != Unspecified ==> bodyShape != Some(ShapeLabel(shape))
    ensures WorkoutSchedule(bodyShape) == []
  {
    if bodyShape.Some? {
      assert bodyShape.value != ShapeLabel(Hourglass);
      assert bodyShape.value != ShapeLabel(LowerTriangle);
      assert bodyShape.value != ShapeLabel(Rectangle);
      assert bodyShape.value != ShapeLabel(UpperTriangle);
      assert bodyShape.value != ShapeLabel(Apple);
    }
  }

  /** Whatever the measurements, a classified record gets a five-exercise plan and an image folder. */
  lemma ClassifiedShapeHasPlan(whr: int, bhr: real)
    ensures |WorkoutSchedule(Some(ShapeLabel(ShapeFor(whr, bhr))))| == 5
    ensures ImageFolder(Some(ShapeLabel(ShapeFor(whr, bhr)))) == ShapeStem(ShapeFor(whr, bhr))
  {
    ScheduleOfNamedShape(ShapeFor(whr, bhr));
    ImageFolderOfShape(ShapeFor(whr, bhr));
  }

  /** A missing or non-positive hip measurement yields WHR 0, ratio 1.0 and an hourglass. */
  lemma NonPositiveHip(waist: real, bust: real, hip: real)
    requires hip <= 0.0
    ensures Whr(waist, hip) == 0 && BustHipRatio(bust, hip) == 1.0
    ensures ShapeFor(Whr(waist, hip), BustHipRatio(bust, hip)) == Hourglass
  {
  }

  /** On BMIs with one decimal the bands are contiguous and ordered by severity. */
  lemma OneDecimalBandsOrdered(lo: int, hi: int)
    requires lo <= hi && lo % 10 == 0 && hi % 10 == 0
    ensures Severity(StatusFor(lo)) <= Severity(StatusFor(hi))
  {
  }

  /** On two-decimal BMIs the order breaks: 22.95 is labelled obese level 2, 23.00 overweight. */
  lemma TwoDecimalGap()
    ensures StatusFor(2290) == Normal && StatusFor(2295) == Obese2 && StatusFor(2300) == Overweight
    ensures Severity(StatusFor(2295)) > Severity(StatusFor(2300))
  {
  }

  /** weight 50, height 160: BMI 19.53, normal. */
  lemma ScenarioNormalBmi()
    ensures RoundHundredths(Bmi(50.0, 160.0)) == 1953
    ensures StatusFor(RoundHundredths(Bmi(50.0, 160.0))) == Normal
  {
    assert Bmi(50.0, 160.0) == 19.53125;
  }

  /** waist 70, hip 100, bust 90: WHR 0.70, bust/hip 0.90, lower triangle. */
  lemma ScenarioLowerTriangle()
    ensures Whr(70.0, 100.0) == 70
    ensures ShapeFor(Whr(70.0, 100.0), BustHipRatio(90.0, 100.0)) == LowerTriangle
  {
  }

  /** waist 65, hip 80, bust 88: WHR 0.81, bust/hip 1.10, upper triangle despite WHR <= 0.82. */
  lemma ScenarioUpperTriangle()
    ensures Whr(65.0, 80.0) == 81
    ensures ShapeFor(Whr(65.0, 80.0), BustHipRatio(88.0, 80.0)) == UpperTriangle
  {
  }

  /** waist 90, hip 95: WHR 0.947 rounds to 0.95, apple whatever the bust. */
  lemma ScenarioApple(bust: real)
    ensures Whr(90.0, 95.0) == 95
    ensures ShapeFor(Whr(90.0, 95.0), BustHipRatio(bust, 95.0)) == Apple
  {
  }
}
