/**
 * The three exercise-session safety checks of exercise_session.py. Each is an
 * ordered chain of threshold tests over integer vitals and yes/no answers; the
 * answers are compared after lower-casing.
 */
module ExerciseSession {
  import opened Text

  // Outcomes of the pre-exercise check.
  const FOLLOW_UP := "Follow up with healthcare professional before exercise"
  const TAKE_MEDS := "Take medications before exercise"
  const MENTAL_HEALTH := "Address mental health prior to exercise"
  const PROCEED_TO_EXERCISE := "Proceed to exercise phase"

  // Outcomes of the progression check (each begins with an emoji).
  const STOP := "\U{2757} Stop exercise and check in with healthcare professional"
  const NEXT_STAGE := "\U{2705} Proceed to next stage"
  const ADVANCE := "\U{27A1}\U{FE0F} Advance to the next level"
  const RETURN := "\U{2B05}\U{FE0F} Return to previous level"
  const MAINTAIN := "\U{23F8}\U{FE0F} Maintain current stage and monitor"

  // Outcomes of the post-exercise check.
  const CONTINUE_MONITORING := "\U{26A0}\U{FE0F} Continue monitoring"
  const END_SESSION := "\U{2705} You can end the session"

  /** Every biometric reading is inside its pre-exercise window. */
  predicate BiometricsOk(restingHr: int, sbp: int, dbp: int, glucose: int, pulseOx: int) {
    60 <= restingHr <= 100 && sbp <= 180 && dbp <= 100 && glucose <= 240 && pulseOx >= 90
  }

  function PreExerciseCheck(
    symptoms: string, medsTaken: string, mentalHealth: string,
    restingHr: int, sbp: int, dbp: int, glucose: int, pulseOx: int, ecg: string
  ): (r: string)
    ensures r in {FOLLOW_UP, TAKE_MEDS, MENTAL_HEALTH, PROCEED_TO_EXERCISE}
    ensures r == PROCEED_TO_EXERCISE <==>
      Lower(symptoms) != "yes" && Lower(medsTaken) != "no" && Lower(mentalHealth) == "good" &&
      BiometricsOk(restingHr, sbp, dbp, glucose, pulseOx) && Lower(ecg) == "normal"
  {
    if Lower(symptoms) == "yes" then FOLLOW_UP
    else if Lower(medsTaken) == "no" then TAKE_MEDS
    else if Lower(mentalHealth) != "good" then MENTAL_HEALTH
    else if restingHr < 60 || restingHr > 100 then FOLLOW_UP
    else if sbp > 180 then FOLLOW_UP
    else if dbp > 100 then FOLLOW_UP
    else if glucose > 240 then FOLLOW_UP
    else if pulseOx < 90 then FOLLOW_UP
    else if Lower(ecg) != "normal" then FOLLOW_UP
    else PROCEED_TO_EXERCISE
  }

  /** Reported symptoms win over missed medication, which wins over mental health. */
  lemma PreCheckPrecedence(
    symptoms: string, medsTaken: string, mentalHealth: string,
    restingHr: int, sbp: int, dbp: int, glucose: int, pulseOx: int, ecg: string)
    ensures var r := PreExerciseCheck(symptoms, medsTaken, mentalHealth, restingHr, sbp, dbp, glucose, pulseOx, ecg);
      (Lower(symptoms) == "yes" ==> r == FOLLOW_UP) &&
      (Lower(symptoms) != "yes" && Lower(medsTaken) == "no" ==> r == TAKE_MEDS) &&
      (Lower(symptoms) != "yes" && Lower(medsTaken) != "no" && Lower(mentalHealth) != "good" ==> r == MENTAL_HEALTH)
  {
  }

  /** Once the three questions pass, any failing reading or ECG means a follow-up. */
  lemma PreCheckBiometricFailure(
    symptoms: string, medsTaken: string, mentalHealth: string,
    restingHr: int, sbp: int, dbp: int, glucose: int, pulseOx: int, ecg: string)
    requires Lower(symptoms) != "yes" && Lower(medsTaken) != "no" && Lower(mentalHealth) == "good"
    requires !BiometricsOk(restingHr, sbp, dbp, glucose, pulseOx) || Lower(ecg) != "normal"
    ensures PreExerciseCheck(symptoms, medsTaken, mentalHealth, restingHr, sbp, dbp, glucose, pulseOx, ecg) == FOLLOW_UP
  {
  }

  /** Some symptom answer, once lower-cased, is something other than "no". */
  predicate AnySymptom(symptoms: seq<string>) {
    exists i :: 0 <= i < |symptoms| && Lower(symptoms[i]) != "no"
  }

  function CheckProgression(exerciseHr: int, targetHr: int, exertion: int, symptoms: seq<string>): (r: string)
    ensures AnySymptom(symptoms) <==> r == STOP
    ensures r in {STOP, NEXT_STAGE, ADVANCE, RETURN, MAINTAIN}
  {
    if AnySymptom(symptoms) then STOP
    else
      var diff := exerciseHr - targetHr;
      if -5 <= diff <= 5 && 3 <= exertion <= 4 then NEXT_STAGE
      else if diff < -5 && exertion < 3 then ADVANCE
      else if diff > 5 && exertion > 4 then RETURN
      else MAINTAIN
  }

  /**
   * Without symptoms the four outcomes are decided by the heart-rate gap to the
   * target and the perceived exertion; the three named windows do not overlap,
   * and everything outside them maintains the stage.
   */
  lemma ProgressionOutcomes(exerciseHr: int, targetHr: int, exertion: int, symptoms: seq<string>)
    requires !AnySymptom(symptoms)
    ensures var r := CheckProgression(exerciseHr, targetHr, exertion, symptoms);
      var diff := exerciseHr - targetHr;
      (r == NEXT_STAGE <==> -5 <= diff <= 5 && 3 <= exertion <= 4) &&
      (r == ADVANCE <==> diff < -5 && exertion < 3) &&
      (r == RETURN <==> diff > 5 && exertion > 4) &&
      (r == MAINTAIN <==>
        !(-5 <= diff <= 5 && 3 <= exertion <= 4) && !(diff < -5 && exertion < 3) && !(diff > 5 && exertion > 4))
  {
  }

  /** A symptom list with only "no" answers (in any case), or none at all, reports no symptom. */
  lemma NoSymptomsWhenAllNo(symptoms: seq<string>)
    requires forall i :: 0 <= i < |symptoms| ==> Lower(symptoms[i]) == "no"
    ensures !AnySymptom(symptoms)
    ensures forall exerciseHr, targetHr, exertion :: CheckProgression(exerciseHr, targetHr, exertion, symptoms) != STOP
  {
  }

  function Abs(x: int): nat { if x < 0 then -x else x }

  function PostExerciseCheck(postHr: int, restingHr: int, postSbp: int, postDbp: int, postGlucose: int, symptoms: seq<string>): (r: string)
    ensures r == END_SESSION <==>
      !AnySymptom(symptoms) && (postHr < 100 || Abs(postHr - restingHr) <= 10) && postSbp < 180 && postDbp < 100
    ensures r in {END_SESSION, CONTINUE_MONITORING}
  {
    if AnySymptom(symptoms) then CONTINUE_MONITORING
    else
      var hrRecovered := postHr < 100 || Abs(postHr - restingHr) <= 10;
      var bpOk := postSbp < 180 && postDbp < 100;
      if hrRecovered && bpOk then END_SESSION else CONTINUE_MONITORING
  }

  /** The post-exercise glucose reading is accepted but never consulted. */
  lemma PostCheckIgnoresGlucose(postHr: int, restingHr: int, postSbp: int, postDbp: int, g1: int, g2: int, symptoms: seq<string>)
    ensures PostExerciseCheck(postHr, restingHr, postSbp, postDbp, g1, symptoms)
         == PostExerciseCheck(postHr, restingHr, postSbp, postDbp, g2, symptoms)
  {
  }

  /**
   * The two systolic thresholds disagree at 180: before exercise a reading of
   * 180 is judged exactly as 179 is, whatever the other inputs, while after
   * exercise a reading of 180 never lets the session end.
   */
  lemma SystolicBoundaryDiffers(
    symptoms: string, medsTaken: string, mentalHealth: string,
    restingHr: int, dbp: int, glucose: int, pulseOx: int, ecg: string,
    postHr: int, postDbp: int, postGlucose: int, postSymptoms: seq<string>)
    ensures PreExerciseCheck(symptoms, medsTaken, mentalHealth, restingHr, 180, dbp, glucose, pulseOx, ecg)
         == PreExerciseCheck(symptoms, medsTaken, mentalHealth, restingHr, 179, dbp, glucose, pulseOx, ecg)
    ensures PostExerciseCheck(postHr, restingHr, 180, postDbp, postGlucose, postSymptoms) == CONTINUE_MONITORING
  {
  }
}
