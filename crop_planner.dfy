/**
 * The cultivation-schedule generator: a fixed, ordered stage table per crop, mapped to calendar
 * dates by adding each stage's signed day offset to the sowing date. Dates are day numbers.
 */
module CropPlanner {
  import opened Wrappers
  import opened Text

  /** One row of a schedule: offset from sowing in days, title key and description key. */
  datatype Stage = Stage(day: int, title: string, desc: string)

  const WheatSchedule: seq<Stage> := [
    Stage(-15, "land_prep", "wheat_land_prep_desc"),
    Stage(-1, "seed_treatment", "wheat_seed_treatment_desc"),
    Stage(0, "sowing", "wheat_sowing_desc"),
    Stage(21, "cri_stage", "wheat_cri_desc"),
    Stage(40, "tillering_stage", "wheat_tillering_desc"),
    Stage(65, "jointing_stage", "wheat_jointing_desc"),
    Stage(85, "flowering_stage", "wheat_flowering_desc"),
    Stage(105, "milking_stage", "wheat_milking_desc"),
    Stage(125, "harvesting_stage", "wheat_harvesting_desc"),
    Stage(130, "marketing", "wheat_marketing_desc")
  ]

  const PaddySchedule: seq<Stage> := [
    Stage(-20, "nursery_prep", "paddy_nursery_desc"),
    Stage(-5, "main_field_prep", "paddy_field_prep_desc"),
    Stage(0, "transplanting", "paddy_transplanting_desc"),
    Stage(15, "gap_filling", "paddy_gap_filling_desc"),
    Stage(30, "tillering_stage", "paddy_tillering_desc"),
    Stage(50, "panicle_initiation", "paddy_panicle_desc"),
    Stage(70, "flowering_stage", "paddy_flowering_desc"),
    Stage(100, "draining", "paddy_draining_desc"),
    Stage(110, "harvesting_stage", "paddy_harvesting_desc"),
    Stage(115, "threshing", "paddy_threshing_desc")
  ]

  const MaizeSchedule: seq<Stage> := [
    Stage(-10, "ploughing", "maize_ploughing_desc"),
    Stage(0, "sowing", "maize_sowing_desc"),
    Stage(20, "knee_high_stage", "maize_knee_high_desc"),
    Stage(45, "tasseling", "maize_tasseling_desc"),
    Stage(60, "silking", "maize_silking_desc"),
    Stage(90, "maturity", "maize_maturity_desc"),
    Stage(100, "harvesting_stage", "maize_harvesting_desc"),
    Stage(105, "marketing", "maize_marketing_desc")
  ]

  const Schedules: map<string, seq<Stage>> := map[
    "wheat" := WheatSchedule,
    "paddy" := PaddySchedule,
    "maize" := MaizeSchedule
  ]

  /** The crops the form's selector offers. */
  const FormCrops: seq<string> := ["wheat", "paddy", "maize", "cotton", "sugarcane", "tomato", "potato"]

  /** A stage of the generated plan: the stage's fields plus its date. */
  datatype PlannedStage = PlannedStage(day: int, title: string, desc: string, date: int)

  /** What submitting the form does: nothing (a field is empty), the "coming soon" alert, or a plan. */
  datatype PlanOutcome = NoInput | ComingSoon | Planned(stages: seq<PlannedStage>)

  /** `schedule.map(s => ({...s, date: sowing + s.day}))`. */
  function PlanFor(schedule: seq<Stage>, sowing: int): (r: seq<PlannedStage>)
    ensures |r| == |schedule|
    ensures forall i :: 0 <= i < |r| ==>
      && r[i].day == schedule[i].day && r[i].title == schedule[i].title && r[i].desc == schedule[i].desc
      && r[i].date == sowing + schedule[i].day
  {
    if schedule == [] then []
    else
      var s := schedule[0];
      [PlannedStage(s.day, s.title, s.desc, sowing + s.day)] + PlanFor(schedule[1..], sowing)
  }

  /** `generatePlan`: `None` for the sowing date is the empty date field. */
  function GeneratePlan(crop: string, sowing: Option<int>): (r: PlanOutcome)
    ensures r == NoInput <==> crop == "" || sowing.None?
    ensures r == ComingSoon <==> crop != "" && sowing.Some? && crop !in Schedules
    ensures r.Planned? ==> crop in Schedules && r.stages == PlanFor(Schedules[crop], sowing.value)
  {
    if crop == "" || sowing.None? then NoInput
    else if crop !in Schedules then ComingSoon
    else Planned(PlanFor(Schedules[crop], sowing.value))
  }

  /** The page's `plan` after a submission: replaced only when a plan was generated. */
  function NextPlan(plan: Option<seq<PlannedStage>>, outcome: PlanOutcome): (r: Option<seq<PlannedStage>>)
    ensures !outcome.Planned? ==> r == plan
    ensures outcome.Planned? ==> r == Some(outcome.stages)
  {
    if outcome.Planned? then Some(outcome.stages) else plan
  }

  // ---------------------------------------------------------------------------
  // Stage labels

  /** The caption of a stage: sowing day, "day N" after sowing, or "N days before". */
  datatype StageLabel = SowingDay | DayN(n: nat) | DaysBefore(n: nat)

  function LabelFor(day: int): (r: StageLabel)
    ensures r == SowingDay <==> day == 0
    ensures r.DayN? <==> day > 0
    ensures r.DaysBefore? <==> day < 0
    ensures r.DayN? ==> r.n == day
    ensures r.DaysBefore? ==> r.n == -day
  {
    if day == 0 then SowingDay else if day > 0 then DayN(day) else DaysBefore(-day)
  }

  /** The caption as text, given the translation function `t`. */
  function RenderLabel(caption: StageLabel, t: string -> string): (r: string)
    ensures caption == SowingDay ==> r == t("sowing_day")
    ensures caption.DayN? ==>
      var digits := NatToString(caption.n);
      && |r| >= |t("day_n")| + 1 + |digits|
      && r[..|t("day_n")|] == t("day_n") && r[|r| - |digits|..] == digits && DigitsValue(digits) == caption.n
    ensures caption.DaysBefore? ==>
      var digits := NatToString(caption.n);
      && |r| >= |digits| + 1 + |t("days_before")|
      && r[..|digits|] == digits && DigitsValue(digits) == caption.n && r[|r| - |t("days_before")|..] == t("days_before")
  {
    match caption
    case SowingDay => t("sowing_day")
    case DayN(n) => NatToStringRoundTrip(n); t("day_n") + " " + NatToString(n)
    case DaysBefore(n) => NatToStringRoundTrip(n); NatToString(n) + " " + t("days_before")
  }

  /** Stages before sowing are drawn in red. */
  predicate IsHighlighted(day: int) {
    day < 0
  }

  /** Red exactly when the caption counts days before sowing; the number shown is the distance
      from sowing, which reads back to the stage's offset. */
  lemma HighlightMatchesLabel(day: int)
    ensures IsHighlighted(day) <==> LabelFor(day).DaysBefore?
    ensures day != 0 ==> DigitsValue(NatToString(LabelFor(day).n)) == (if day > 0 then day else -day)
  {
    if day != 0 {
      NatToStringRoundTrip(LabelFor(day).n);
    }
  }

  // ---------------------------------------------------------------------------
  // Properties

  /** Offsets strictly increase from each stage to the next. */
  predicate StepsIncrease(s: seq<Stage>) {
    forall i :: 0 < i < |s| ==> s[i - 1].day < s[i].day
  }

  predicate DaysIncrease(s: seq<Stage>) {
    forall i, j :: 0 <= i < j < |s| ==> s[i].day < s[j].day
  }

  lemma {:induction false} StepsGiveOrder(s: seq<Stage>)
    requires StepsIncrease(s)
    ensures DaysIncrease(s)
  {
    if |s| > 1 {
      StepsGiveOrder(s[1..]);
      forall j | 1 <= j < |s| ensures s[0].day < s[j].day {
        assert s[0].day < s[1].day;
        if j > 1 {
          assert s[1..][0].day < s[1..][j - 1].day;
        }
      }
    }
  }

  /** Offsets strictly increase, the first stage is before sowing, and exactly one stage falls on
      the sowing day. */
  predicate WellFormed(s: seq<Stage>) {
    && DaysIncrease(s)
    && |s| > 0 && s[0].day < 0
    && (exists i :: 0 <= i < |s| && s[i].day == 0)
    && (forall i, j :: 0 <= i < |s| && 0 <= j < |s| && s[i].day == 0 && s[j].day == 0 ==> i == j)
  }

  /** An increasing schedule that starts before sowing and has a day-0 stage is well formed. */
  lemma WellFormedFromSteps(s: seq<Stage>, k: nat)
    requires StepsIncrease(s) && |s| > 0 && s[0].day < 0
    requires k < |s| && s[k].day == 0
    ensures WellFormed(s)
  {
    StepsGiveOrder(s);
  }

  lemma WheatWellFormed()
    ensures WellFormed(WheatSchedule)
  {
    assert StepsIncrease(WheatSchedule);
    WellFormedFromSteps(WheatSchedule, 2);
  }

  lemma PaddyWellFormed()
    ensures WellFormed(PaddySchedule)
  {
    assert StepsIncrease(PaddySchedule);
    WellFormedFromSteps(PaddySchedule, 2);
  }

  lemma MaizeWellFormed()
    ensures WellFormed(MaizeSchedule)
  {
    assert StepsIncrease(MaizeSchedule);
    WellFormedFromSteps(MaizeSchedule, 1);
  }

  /** Every schedule of the table is well formed. */
  lemma SchedulesWellFormed(crop: string)
    requires crop in Schedules
    ensures WellFormed(Schedules[crop])
  {
    if crop == "wheat" {
      WheatWellFormed();
    } else if crop == "paddy" {
      PaddyWellFormed();
    } else {
      MaizeWellFormed();
    }
  }

  /** The plan keeps the table's order, so its dates strictly increase. */
  lemma PlanDatesIncrease(crop: string, sowing: int)
    requires crop in Schedules
    ensures GeneratePlan(crop, Some(sowing)).Planned?
    ensures var p := GeneratePlan(crop, Some(sowing)).stages;
            forall i, j :: 0 <= i < j < |p| ==> p[i].date < p[j].date
  {
    SchedulesWellFormed(crop);
  }

  /** The plan's sowing-day stage is dated on the sowing date itself, and its first stage before it. */
  lemma PlanAnchoredAtSowing(crop: string, sowing: int)
    requires crop in Schedules
    ensures var p := GeneratePlan(crop, Some(sowing)).stages;
            |p| > 0 && p[0].date < sowing
            && exists i :: 0 <= i < |p| && p[i].date == sowing && LabelFor(p[i].day) == SowingDay
  {
    SchedulesWellFormed(crop);
    var k :| 0 <= k < |Schedules[crop]| && Schedules[crop][k].day == 0;
    var p := GeneratePlan(crop, Some(sowing)).stages;
    assert p[k].date == sowing;
  }

  /** Of the seven crops the form offers, exactly cotton, sugarcane, tomato and potato get the
      "coming soon" alert. */
  lemma ComingSoonCrops(crop: string, sowing: int)
    requires crop in FormCrops
    ensures GeneratePlan(crop, Some(sowing)) == ComingSoon <==>
            crop in ["cotton", "sugarcane", "tomato", "potato"]
  {
  }

  /** The wheat plan for a sowing day n runs from n - 15 (land preparation) to n + 130 (marketing). */
  lemma WheatPlanSpan(sowing: int)
    ensures var p := GeneratePlan("wheat", Some(sowing)).stages;
            |p| == 10 && p[0].date == sowing - 15 && p[0].title == "land_prep"
            && p[9].date == sowing + 130 && p[9].title == "marketing"
  {
  }
}
