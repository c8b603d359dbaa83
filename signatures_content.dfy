/**
 * The message registries of signatures_content.py: literal dictionaries from
 * a code to a block of text fields. A block is written here with one optional
 * field per key the registries use.
 */
module SignaturesContent {
  import opened Wrappers
  import opened Personas
  import opened Text

  /**
   * One registry block. `None` is a key the block does not have;
   * `persona` holds the persona variants when the block has them.
   */
  datatype Block = Block(
    labelText: Option<string>,
    defaultMessage: Option<string>,
    message: Option<string>,
    persona: Option<map<string, string>>,
    severity: Option<string>,
    plainLanguage: Option<string>)

  /** The GEN block, the behavioural core used when a question names none. */
  const GENERAL_BLOCK := Block(Some("General Support"), Some("Start with one small, safe step today and build gradually."), None, Some(map["Listener" := "It’s okay to start small. What feels doable right now?", "Motivator" := "You’ve got this—small steps add up fast.", "Director" := "Pick one step, schedule it, and track it for 7 days.", "Expert" := "Gradual, consistent behavior change is associated with better long-term adherence."]), None, None)

  /** Behavioural-core blocks: label, default message, optional persona variants. */
  const BEHAVIORAL_CORE_MESSAGES: map<string, Block> := map[
    "GEN" := GENERAL_BLOCK,
    "PA" := Block(Some("Physical Activity"), Some("Begin with low-to-moderate activity and increase gradually."), None, Some(map["Listener" := "What kind of movement do you actually enjoy?", "Motivator" := "A little movement today is a win—let’s stack wins.", "Director" := "Start with 10 minutes/day, add 5 minutes each week as tolerated.", "Expert" := "Guidelines commonly target ~150 min/week moderate activity plus strength training."]), None, Some("Start with short walks or light movement and build slowly.")),
    "NUT" := Block(Some("Nutrition"), Some("Focus on a heart-healthy eating pattern you can sustain."), None, None, None, None),
    "MA" := Block(Some("Medication Adherence"), Some("Use routines and reminders to take medications safely and consistently."), None, None, None, None),
    "SY" := Block(Some("Monitoring & Symptoms"), Some("Track key numbers and symptoms to spot patterns early."), None, None, None, None),
    "PC" := Block(Some("Preventive Care"), Some("Build a plan with your care team and review progress regularly."), None, None, None, None),
    "HL" := Block(Some("Health Literacy"), Some("Let’s translate the medical stuff into clear, actionable steps."), None, None, None, None),
    "ST" := Block(Some("Stress/Sleep"), Some("Support your heart and brain by improving stress and sleep routines."), None, None, None, None)
  ]

  /** Condition-modifier blocks. */
  const CONDITION_MODIFIER_MESSAGES: map<string, Block> := map[
    "CKM" := Block(Some("Cardio-Kidney-Metabolic Health"), Some("Because heart, kidney, and metabolic health are connected, we’ll focus on BP, glucose, weight, activity, and kidney protection together."), None, None, None, None),
    "HTN" := Block(Some("High Blood Pressure"), Some("Blood pressure control protects your heart, brain, and kidneys—home monitoring and lifestyle changes can make a big difference."), None, None, None, None),
    "CAD" := Block(Some("Coronary Artery Disease"), Some("With CAD, safe activity and risk-factor control (BP, cholesterol, glucose, tobacco) reduce future events—cardiac rehab can help."), None, None, None, None),
    "HF" := Block(Some("Heart Failure"), Some("With heart failure, daily weights and symptom tracking help detect fluid changes early—follow your care plan closely."), None, None, None, None),
    "AFIB" := Block(Some("Atrial Fibrillation"), Some("AFib can raise stroke risk. Rhythm/rate control plus stroke prevention planning are key parts of care."), None, None, None, None),
    "STROKE" := Block(Some("Stroke"), Some("After stroke, secondary prevention targets BP, cholesterol, diabetes, activity, and (when present) AFib management."), None, None, None, None),
    "DM" := Block(Some("Diabetes"), Some("Diabetes affects blood vessels and the heart; activity, food, meds, and monitoring work best together."), None, None, None, None),
    "CKD" := Block(Some("Kidney Disease"), Some("Kidney health can change diet and medication choices—coordinate dietary changes with your care team."), None, None, None, None),
    "CD" := Block(Some("Cardiac Disease (general)"), Some("Because you may have cardiac risk, we’ll emphasize safe progression and symptom-based stopping rules."), None, None, None, None)
  ]

  /** Engagement-driver blocks. */
  const ENGAGEMENT_DRIVER_MESSAGES: map<string, Block> := map[
    "PR" := Block(Some("Proactive framing"), Some("We’ll focus on the next best step you can take before problems escalate."), None, Some(map["Listener" := "What’s one small step you feel ready to try now?", "Motivator" := "Let’s get ahead of this—small choices today protect your future.", "Director" := "Pick one measurable step and commit for 7 days.", "Expert" := "Upstream prevention reduces downstream complications and healthcare utilization."]), None, None),
    "HL" := Block(Some("Health literacy shift"), Some("I’ll use plain language and a few key numbers so it’s easy to act on."), None, None, None, Some("I’ll keep it simple and practical.")),
    "SE" := Block(Some("Self-efficacy"), Some("We’ll build confidence by starting small and tracking wins."), None, None, None, None),
    "TR" := Block(Some("Trust"), Some("We’ll make decisions together and connect actions to clear reasons."), None, None, None, None),
    "GO" := Block(Some("Goal orientation"), Some("We’ll set a clear target and measure progress over time."), None, None, None, None),
    "ID" := Block(Some("Independence"), Some("We’ll build a plan you can run on your own, with support when needed."), None, None, None, None),
    "DS" := Block(Some("Decision style"), Some("We’ll match how you like to decide—options first or one clear recommendation."), None, None, None, None),
    "RC" := Block(Some("Readiness for change"), Some("We’ll choose a step that matches your readiness today."), None, None, None, None)
  ]

  /** Stop rules: label, message and severity. */
  const SECURITY_RULES: map<string, Block> := map[
    "STOP_CHEST_PAIN_EXERCISE" := Block(Some("Chest pain stop rule"), None, Some("If you experience chest pain during exercise, stop immediately and contact your healthcare professional."), None, Some("high"), None),
    "CHEST_PAIN_EMERGENCY" := Block(Some("Emergency chest pain"), None, Some("If chest pain is severe, lasts >5 minutes, or comes with shortness of breath, sweating, or fainting, call emergency services."), None, Some("high"), None),
    "HTN_CRISIS" := Block(Some("Hypertensive crisis"), None, Some("If BP is around 180/120 or higher, especially with symptoms (chest pain, shortness of breath, weakness, vision changes), seek urgent care."), None, Some("high"), None),
    "HF_WEIGHT_GAIN_RED_FLAG" := Block(Some("Heart failure fluid red flag"), None, Some("Report rapid weight gain (e.g., ~2+ pounds overnight or ~5+ in a week) or worsening swelling/shortness of breath."), None, Some("high"), None),
    "MEDS_NO_STOP_WITHOUT_CLINICIAN" := Block(Some("Medication safety"), None, Some("Do not stop or change prescribed medications without talking to your clinician."), None, Some("medium"), None),
    "CKM_RED_FLAGS" := Block(Some("CKM red flags"), None, Some("Seek care if you have new or worsening shortness of breath, chest pain, fainting, sudden swelling, or rapid weight gain."), None, Some("high"), None),
    "HYPOGLYCEMIA_SAFETY" := Block(Some("Low blood sugar safety"), None, Some("If you feel shaky/sweaty/confused, check glucose if possible and treat low blood sugar promptly; seek help if severe."), None, Some("high"), None),
    "STROKE_SIGNS_EMERGENCY" := Block(Some("Stroke warning signs"), None, Some("If you notice face droop, arm weakness, speech difficulty, or sudden severe symptoms, call emergency services immediately."), None, Some("high"), None),
    "DIZZY_FAINTING_SAFETY" := Block(Some("Dizziness/fainting"), None, Some("If you are dizzy or fainting, sit/lie down and contact your clinician—especially if it happens repeatedly or after medication changes."), None, Some("medium"), None),
    "CKD_DIET_CAUTION" := Block(Some("Kidney diet caution"), None, Some("If you have kidney disease, discuss major diet changes (potassium, phosphorus, protein) with your care team."), None, Some("medium"), None),
    "CARE_GAPS_AVOID" := Block(Some("Avoid care gaps"), None, Some("If symptoms worsen or you’re unsure about your plan, contact your care team rather than waiting it out."), None, Some("medium"), None),
    "RAPID_KIDNEY_DECLINE" := Block(Some("Kidney decline"), None, Some("If labs show a rapid drop in kidney function or you develop severe swelling or shortness of breath, seek prompt evaluation."), None, Some("high"), None)
  ]

  /** Action plans: label and message. */
  const ACTION_PLANS: map<string, Block> := map[
    "CARDIAC_REHAB_REFERRAL" := Block(Some("Cardiac Rehabilitation"), None, Some("Ask about enrolling in a cardiac rehabilitation program for supervised, personalized exercise and education."), None, None, None),
    "CKM_MONITORING" := Block(Some("CKM monitoring"), None, Some("Plan regular check-ins for BP, labs (kidney function, A1c), and symptoms."), None, None, None),
    "PREVENT_REVIEW" := Block(Some("PREVENT"), None, Some("Review your PREVENT risk score at least yearly or when risk factors change."), None, None, None),
    "MLE8_BASELINE" := Block(Some("MyLifeCheck baseline"), None, Some("Get a baseline Life’s Essential 8 / MyLifeCheck score and choose one domain to improve."), None, None, None),
    "MLE8_TREND" := Block(Some("MyLifeCheck trend"), None, Some("Track your Life’s Essential 8 score over time to see which habits are improving."), None, None, None),
    "SMBP" := Block(Some("Home BP monitoring"), None, Some("Use home BP monitoring with good technique; share readings with your care team."), None, None, None),
    "DASH" := Block(Some("DASH plan"), None, Some("Use a DASH-style eating pattern; reduce sodium and prioritize fruits/vegetables/whole grains."), None, None, None),
    "MEDITERRANEAN" := Block(Some("Mediterranean plan"), None, Some("Use a Mediterranean-style pattern emphasizing plants, healthy fats, fish, and whole foods."), None, None, None),
    "GOAL_SETTING" := Block(Some("Goal setting"), None, Some("Write your health goal where you’ll see it daily and track progress weekly."), None, None, None),
    "FOLLOW_UP_PLAN" := Block(Some("Follow-up plan"), None, Some("Set a follow-up schedule and know what symptoms should trigger earlier contact."), None, None, None),
    "WEIGHT_LOG" := Block(Some("Daily weights"), None, Some("Weigh yourself daily (if advised) and record results to detect fluid changes."), None, None, None),
    "HOME_BP" := Block(Some("Home BP"), None, Some("Measure BP at consistent times and bring your log to visits."), None, None, None),
    "SODIUM_TRACK" := Block(Some("Sodium awareness"), None, Some("Track sodium intake for 3 days to identify your biggest sources."), None, None, None),
    "PA_150" := Block(Some("Activity target"), None, Some("Aim for gradual progression toward ~150 minutes/week moderate activity if safe for you."), None, None, None),
    "BREATHING_5MIN" := Block(Some("Breathing practice"), None, Some("Try 5 minutes of slow breathing daily as a quick stress reset."), None, None, None),
    "SLEEP_ROUTINE" := Block(Some("Sleep routine"), None, Some("Create a consistent wind-down routine; sleep supports BP and glucose control."), None, None, None),
    "EMERGENCY_PLAN" := Block(Some("Emergency plan"), None, Some("Save urgent numbers and know when to seek emergency care."), None, None, None),
    "SYMPTOM_LOG" := Block(Some("Symptom log"), None, Some("Track symptoms with timing, triggers, and severity so your team can adjust care."), None, None, None),
    "MED_TIMING_REVIEW" := Block(Some("Medication timing"), None, Some("Log medication timing and symptoms to review possible dose/timing adjustments."), None, None, None),
    "FAMILY_PLAN" := Block(Some("Family support"), None, Some("Share one simple goal with a family member and invite them to support you."), None, None, None),
    "REMOTE_MONITORING" := Block(Some("Remote monitoring"), None, Some("Ask about telehealth/remote monitoring programs to catch changes early."), None, None, None),
    "CARE_APP" := Block(Some("Care app"), None, Some("Ask if your clinic offers an app for reminders, messaging, and tracking."), None, None, None),
    "COORDINATED_CARE" := Block(Some("Coordinated care"), None, Some("Ask for coordinated heart-kidney-metabolic care if multiple conditions are present."), None, None, None),
    "MED_REVIEW" := Block(Some("Medication review"), None, Some("Ask your clinician to review medication benefits, side effects, and alternatives."), None, None, None),
    "MED_RECONCILIATION" := Block(Some("Medication reconciliation"), None, Some("Bring all meds/supplements so your team can reduce duplication and interactions."), None, None, None),
    "BRING_CUFF_VISIT" := Block(Some("Cuff accuracy"), None, Some("Bring your home BP cuff to your visit to verify accuracy and technique."), None, None, None),
    "TECHNIQUE_CHECK" := Block(Some("Technique"), None, Some("Use proper BP technique: seated, rested, arm supported at heart level, no caffeine right before."), None, None, None),
    "CALL_TEAM_PLAN" := Block(Some("Call plan"), None, Some("Make a ‘when to call’ plan with your care team for symptoms and rapid changes."), None, None, None),
    "SECONDARY_PREVENTION_CHECKLIST" := Block(Some("Secondary prevention"), None, Some("Build a checklist for BP, cholesterol, diabetes, activity, and medication adherence."), None, None, None),
    "CHADS_VASC_CALC" := Block(Some("CHA2DS2-VASc"), None, Some("Ask your clinician about your CHA₂DS₂-VASc score to guide stroke prevention decisions."), None, None, None),
    "FAST_CARBS_PLAN" := Block(Some("Fast carbs plan"), None, Some("Carry fast-acting carbs when active if you’re at risk for low blood sugar."), None, None, None)
  ]

  /** The five registries, as build_signatures_output reads them. */
  datatype Registries = Registries(
    core: map<string, Block>,
    modifiers: map<string, Block>,
    drivers: map<string, Block>,
    securityRules: map<string, Block>,
    actionPlans: map<string, Block>)

  const REGISTRIES := Registries(
    BEHAVIORAL_CORE_MESSAGES, CONDITION_MODIFIER_MESSAGES, ENGAGEMENT_DRIVER_MESSAGES, SECURITY_RULES, ACTION_PLANS)

  /** A present, non-empty text: Python's truth value of block.get(key). */
  predicate Present(o: Option<string>) {
    o.Some? && o.value != ""
  }

  /** Persona variants, when a block has them, are given for exactly the four personas. */
  predicate VariantsForAllPersonas(b: Block) {
    b.persona.Some? ==>
      (forall n :: n in b.persona.value ==> n in PERSONAS) && (forall n :: n in PERSONAS ==> n in b.persona.value)
  }

  /** A core, modifier or driver block: a label, a default, and complete persona variants if any. */
  predicate MessageBlock(b: Block) {
    Present(b.labelText) && Present(b.defaultMessage) && b.message.None? && VariantsForAllPersonas(b)
  }

  /** A stop rule: label, message and a known severity, and no default or persona variants. */
  predicate RuleBlock(b: Block) {
    Present(b.labelText) && Present(b.message) && b.severity.Some? && b.severity.value in {"high", "medium"} &&
    b.defaultMessage.None? && b.persona.None?
  }

  /** An action plan: label and message, and no default or persona variants. */
  predicate PlanBlock(b: Block) {
    Present(b.labelText) && Present(b.message) && b.defaultMessage.None? && b.persona.None?
  }

  /** Text that ends with a non-space character, so that stripping it leaves something. */
  predicate EndsWithWord(s: string) {
    s != [] && !IsSpace(s[|s| - 1])
  }

  /** The GEN block has a default and a variant per persona, none of them blank. */
  lemma GeneralBlockFacts()
    ensures GENERAL_BLOCK.labelText == Some("General Support")
    ensures GENERAL_BLOCK.defaultMessage.Some? && EndsWithWord(GENERAL_BLOCK.defaultMessage.value)
    ensures GENERAL_BLOCK.persona.Some? && VariantsForAllPersonas(GENERAL_BLOCK)
    ensures forall n :: n in GENERAL_BLOCK.persona.value ==> EndsWithWord(GENERAL_BLOCK.persona.value[n])
  {
    var m := GENERAL_BLOCK.persona.value;
    assert EndsWithWord(m["Listener"]) && EndsWithWord(m["Motivator"]);
    assert EndsWithWord(m["Director"]) && EndsWithWord(m["Expert"]);
  }

  /** The GEN code the rules fall back to is registered, with the GEN block. */
  lemma GeneralCoreEntry()
    ensures "GEN" in BEHAVIORAL_CORE_MESSAGES && BEHAVIORAL_CORE_MESSAGES["GEN"] == GENERAL_BLOCK
  {
  }

  lemma CoreMessagesWellFormed()
    ensures forall code :: code in BEHAVIORAL_CORE_MESSAGES ==> MessageBlock(BEHAVIORAL_CORE_MESSAGES[code])
  {
  }

  lemma ConditionMessagesWellFormed()
    ensures forall code :: code in CONDITION_MODIFIER_MESSAGES ==> MessageBlock(CONDITION_MODIFIER_MESSAGES[code])
  {
  }

  lemma DriverMessagesWellFormed()
    ensures forall code :: code in ENGAGEMENT_DRIVER_MESSAGES ==> MessageBlock(ENGAGEMENT_DRIVER_MESSAGES[code])
  {
  }

  lemma SecurityRulesWellFormed()
    ensures forall code :: code in SECURITY_RULES ==> RuleBlock(SECURITY_RULES[code])
  {
  }

  lemma ActionPlansWellFormed()
    ensures forall code :: code in ACTION_PLANS ==> PlanBlock(ACTION_PLANS[code])
  {
  }
}
