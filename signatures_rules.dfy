/**
 * Assembly of the Signatures output in signatures_rules.py: each code of the
 * selected question is resolved against its registry, a missing behavioural
 * core falls back to GEN, and the persona response falls back to the first
 * core message and then to a fixed sentence.
 */
module SignaturesRules {
  import opened Wrappers
  import opened Text
  import opened Personas
  import opened SignaturesContent

  // ---------------------------------------------------------------
  // _pick_message
  // ---------------------------------------------------------------

  /** The persona variant, else a non-empty default, else a non-empty message, else nothing; stripped. */
  function PickMessage(b: Block, persona: string): (r: string)
    ensures NoOuterSpace(r)
  {
    if b.persona.Some? && persona in b.persona.value then Strip(b.persona.value[persona])
    else if Present(b.defaultMessage) then Strip(b.defaultMessage.value)
    else if Present(b.message) then Strip(b.message.value)
    else ""
  }

  /** Stop rules and action plans carry no default or variants, so every persona gets their message. */
  lemma RuleAndPlanMessagesIgnorePersona(b: Block, persona: string)
    requires RuleBlock(b) || PlanBlock(b)
    ensures PickMessage(b, persona) == Strip(b.message.value)
  {
  }

  // ---------------------------------------------------------------
  // resolving codes
  // ---------------------------------------------------------------

  datatype SignatureEntry = SignatureEntry(code: string, labelText: string, message: string)

  datatype RuleEntry = RuleEntry(code: string, labelText: string, message: string, severity: string)

  /** The block substituted for a code missing from a core, modifier or driver registry. */
  function MissingMessageBlock(code: string): Block {
    Block(Some(code), Some(""), None, None, None, None)
  }

  /** The block substituted for a code missing from the rule or plan registry. */
  function MissingRuleBlock(code: string): Block {
    Block(Some(code), None, Some(""), None, None, None)
  }

  function BlockFor(registry: map<string, Block>, code: string, missing: Block): Block {
    if code in registry then registry[code] else missing
  }

  function MessageEntry(registry: map<string, Block>, code: string, persona: string): SignatureEntry {
    var b := BlockFor(registry, code, MissingMessageBlock(code));
    SignatureEntry(code, b.labelText.GetOr(code), PickMessage(b, persona))
  }

  function PlanEntry(registry: map<string, Block>, code: string, persona: string): SignatureEntry {
    var b := BlockFor(registry, code, MissingRuleBlock(code));
    SignatureEntry(code, b.labelText.GetOr(code), PickMessage(b, persona))
  }

  function RuleEntryFor(registry: map<string, Block>, code: string, persona: string): RuleEntry {
    var b := BlockFor(registry, code, MissingRuleBlock(code));
    RuleEntry(code, b.labelText.GetOr(code), PickMessage(b, persona), b.severity.GetOr("unknown"))
  }

  /** A code no registry knows resolves to its own name as label and an empty message, never an error. */
  lemma UnknownCodeEntries(registry: map<string, Block>, code: string, persona: string)
    requires code !in registry
    ensures MessageEntry(registry, code, persona) == SignatureEntry(code, code, "")
    ensures PlanEntry(registry, code, persona) == SignatureEntry(code, code, "")
    ensures RuleEntryFor(registry, code, persona) == RuleEntry(code, code, "", "unknown")
  {
    assert Strip("") == "";
  }

  /** A well-formed stop rule keeps its label and severity and gives its message to every persona. */
  lemma KnownRuleEntry(registry: map<string, Block>, code: string, persona: string)
    requires code in registry && RuleBlock(registry[code])
    ensures var e := RuleEntryFor(registry, code, persona);
      e.labelText == registry[code].labelText.value && e.labelText != "" &&
      e.severity in {"high", "medium"} &&
      e.message == Strip(registry[code].message.value)
  {
    RuleAndPlanMessagesIgnorePersona(registry[code], persona);
  }

  /** The GEN block resolves to a non-empty message for every persona, listed or not. */
  lemma GeneralMessageNonEmpty(persona: string)
    ensures MessageEntry(BEHAVIORAL_CORE_MESSAGES, "GEN", persona).message != ""
  {
    GeneralCoreEntry();
    GeneralBlockFacts();
    var b := GENERAL_BLOCK;
    if persona in b.persona.value {
      StripOfWordEnd(b.persona.value[persona]);
    } else {
      StripOfWordEnd(b.defaultMessage.value);
    }
  }

  method ResolveMessages(registry: map<string, Block>, codes: seq<string>, persona: string) returns (out: seq<SignatureEntry>)
    ensures |out| == |codes|
    ensures forall i :: 0 <= i < |codes| ==> out[i] == MessageEntry(registry, codes[i], persona)
  {
    out := [];
    for i := 0 to |codes|
      invariant |out| == i
      invariant forall k :: 0 <= k < i ==> out[k] == MessageEntry(registry, codes[k], persona)
    {
      var b := BlockFor(registry, codes[i], MissingMessageBlock(codes[i]));
      out := out + [SignatureEntry(codes[i], b.labelText.GetOr(codes[i]), PickMessage(b, persona))];
    }
  }

  method ResolvePlans(registry: map<string, Block>, codes: seq<string>, persona: string) returns (out: seq<SignatureEntry>)
    ensures |out| == |codes|
    ensures forall i :: 0 <= i < |codes| ==> out[i] == PlanEntry(registry, codes[i], persona)
  {
    out := [];
    for i := 0 to |codes|
      invariant |out| == i
      invariant forall k :: 0 <= k < i ==> out[k] == PlanEntry(registry, codes[k], persona)
    {
      var b := BlockFor(registry, codes[i], MissingRuleBlock(codes[i]));
      out := out + [SignatureEntry(codes[i], b.labelText.GetOr(codes[i]), PickMessage(b, persona))];
    }
  }

  method ResolveRules(registry: map<string, Block>, codes: seq<string>, persona: string) returns (out: seq<RuleEntry>)
    ensures |out| == |codes|
    ensures forall i :: 0 <= i < |codes| ==> out[i] == RuleEntryFor(registry, codes[i], persona)
  {
    out := [];
    for i := 0 to |codes|
      invariant |out| == i
      invariant forall k :: 0 <= k < i ==> out[k] == RuleEntryFor(registry, codes[k], persona)
    {
      var b := BlockFor(registry, codes[i], MissingRuleBlock(codes[i]));
      out := out + [RuleEntry(codes[i], b.labelText.GetOr(codes[i]), PickMessage(b, persona), b.severity.GetOr("unknown"))];
    }
  }

  // ---------------------------------------------------------------
  // calculator results
  // ---------------------------------------------------------------

  /** A calculator result value: a dictionary (its text fields), or anything else. */
  datatype CalcValue = DictValue(fields: map<string, string>) | OtherValue

  /** The calculator results dictionary, in insertion order. */
  type CalcResults = seq<(string, CalcValue)>

  const MYLIFECHECK_KEYS: seq<string> := ["mylifecheck", "MyLifeCheck", "life8", "lifes_essential_8", "les8"]
  const PREVENT_KEYS: seq<string> := ["prevent", "PREVENT"]

  function Lookup(results: CalcResults, key: string): Option<CalcValue> {
    if results == [] then None
    else if results[0].0 == key then Some(results[0].1)
    else Lookup(results[1..], key)
  }

  predicate HoldsDict(results: CalcResults, key: string) {
    Lookup(results, key).Some? && Lookup(results, key).value.DictValue?
  }

  /** The dictionary under the first key, in priority order, whose value is a dictionary. */
  function ExtractFirst(results: CalcResults, keys: seq<string>): Option<map<string, string>> {
    if keys == [] then None
    else if HoldsDict(results, keys[0]) then Some(Lookup(results, keys[0]).value.fields)
    else ExtractFirst(results, keys[1..])
  }

  lemma {:induction false} ExtractFirstSpec(results: CalcResults, keys: seq<string>)
    ensures ExtractFirst(results, keys).None? <==> forall j :: 0 <= j < |keys| ==> !HoldsDict(results, keys[j])
    ensures forall i :: 0 <= i < |keys| ==>
      (HoldsDict(results, keys[i]) && (forall j :: 0 <= j < i ==> !HoldsDict(results, keys[j])) ==>
         ExtractFirst(results, keys) == Some(Lookup(results, keys[i]).value.fields))
  {
    if keys != [] {
      ExtractFirstSpec(results, keys[1..]);
      assert forall j :: 1 <= j < |keys| ==> keys[1..][j - 1] == keys[j];
    }
  }

  function ExtractMyLifeCheck(results: CalcResults): Option<map<string, string>> {
    ExtractFirst(results, MYLIFECHECK_KEYS)
  }

  function ExtractPrevent(results: CalcResults): Option<map<string, string>> {
    ExtractFirst(results, PREVENT_KEYS)
  }

  /** "mylifecheck" wins over every other spelling; a non-dictionary value is skipped. */
  lemma ExtractPriority(results: CalcResults)
    ensures HoldsDict(results, "mylifecheck") ==>
      ExtractMyLifeCheck(results) == Some(Lookup(results, "mylifecheck").value.fields)
    ensures (forall j :: 0 <= j < |MYLIFECHECK_KEYS| ==> !HoldsDict(results, MYLIFECHECK_KEYS[j])) ==>
      ExtractMyLifeCheck(results) == None
    ensures HoldsDict(results, "prevent") ==> ExtractPrevent(results) == Some(Lookup(results, "prevent").value.fields)
    ensures !HoldsDict(results, "prevent") && HoldsDict(results, "PREVENT") ==>
      ExtractPrevent(results) == Some(Lookup(results, "PREVENT").value.fields)
    ensures !HoldsDict(results, "prevent") && !HoldsDict(results, "PREVENT") ==> ExtractPrevent(results) == None
  {
    ExtractFirstSpec(results, MYLIFECHECK_KEYS);
    ExtractFirstSpec(results, PREVENT_KEYS);
  }

  /** `x or None` on an optional dictionary: an empty dictionary counts as missing. */
  function OrNone(d: Option<map<string, string>>): (r: Option<map<string, string>>)
    ensures r.Some? <==> d.Some? && d.value != map[]
    ensures r.Some? ==> r == d
  {
    if d.Some? && d.value != map[] then d else None
  }

  /** No key occurs twice, as in any Python dict. */
  predicate DistinctResultKeys(results: CalcResults) {
    forall i, j :: 0 <= i < j < |results| ==> results[i].0 != results[j].0
  }

  function KeysOf(results: CalcResults): (r: seq<string>)
    ensures |r| == |results|
    ensures forall i :: 0 <= i < |results| ==> r[i] == results[i].0
  {
    seq(|results|, i requires 0 <= i < |results| => results[i].0)
  }

  /** The listed keys are exactly the keys a lookup finds, each listed once when the keys are distinct. */
  lemma {:induction false} KeysOfLookup(results: CalcResults)
    ensures forall k :: k in KeysOf(results) <==> Lookup(results, k).Some?
    ensures DistinctResultKeys(results) ==> forall i, j :: 0 <= i < j < |results| ==> KeysOf(results)[i] != KeysOf(results)[j]
  {
    if results != [] {
      KeysOfLookup(results[1..]);
      assert KeysOf(results) == [results[0].0] + KeysOf(results[1..]);
    }
  }

  // ---------------------------------------------------------------
  // build_signatures_output
  // ---------------------------------------------------------------

  /** The signatures tags of a question; a missing or None list is `None`. */
  datatype SignaturesTags = SignaturesTags(
    behavioralCore: Option<seq<string>>,
    conditionModifiers: Option<seq<string>>,
    engagementDrivers: Option<seq<string>>)

  type Source = map<string, string>

  /** The question fields the assembly reads. */
  datatype Question = Question(
    id: string,
    category: string,
    question: string,
    signaturesTags: Option<SignaturesTags>,
    securityRuleCodes: Option<seq<string>>,
    actionPlanCodes: Option<seq<string>>,
    responses: map<string, string>,
    actionStep: string,
    why: string,
    sources: Option<seq<Source>>)

  datatype QuestionMeta = QuestionMeta(id: string, category: string, text: string)
  datatype Response = Response(message: string, actionStep: string, whyItMatters: string)
  datatype Signatures = Signatures(
    behavioralCore: seq<SignatureEntry>,
    conditionModifiers: seq<SignatureEntry>,
    engagementDrivers: seq<SignatureEntry>,
    securityRules: seq<RuleEntry>,
    actionPlans: seq<SignatureEntry>)
  datatype Scores = Scores(mylifecheck: Option<map<string, string>>, prevent: Option<map<string, string>>)
  datatype CalculatorInfo = CalculatorInfo(inputsUsed: map<string, string>, resultsAvailable: seq<string>)
  datatype Output = Output(
    persona: string,
    question: QuestionMeta,
    response: Response,
    signatures: Signatures,
    scores: Scores,
    sources: seq<Source>,
    calculator: CalculatorInfo)

  const DEFAULT_CORE := "GEN"
  const FALLBACK_RESPONSE := "Start with one small step today and build gradually."

  function TagsOf(q: Question): SignaturesTags {
    q.signaturesTags.GetOr(SignaturesTags(None, None, None))
  }

  /** The behavioural-core codes, with GEN standing in for an empty or missing list. */
  function CoreCodes(q: Question): (r: seq<string>)
    ensures r != []
    ensures TagsOf(q).behavioralCore.GetOr([]) != [] ==> r == TagsOf(q).behavioralCore.value
  {
    var codes := TagsOf(q).behavioralCore.GetOr([]);
    if codes == [] then [DEFAULT_CORE] else codes
  }

  /** The question's own stripped response, else the first core message, else the fixed sentence. */
  function PersonaResponse(q: Question, persona: string, firstCoreMessage: string): (r: string)
    ensures r != ""
    ensures Strip(Get(q.responses, persona)) != "" ==> r == Strip(Get(q.responses, persona))
    ensures Strip(Get(q.responses, persona)) == "" && firstCoreMessage != "" ==> r == firstCoreMessage
    ensures Strip(Get(q.responses, persona)) == "" && firstCoreMessage == "" ==> r == FALLBACK_RESPONSE
  {
    var own := Strip(Get(q.responses, persona));
    if own != "" then own
    else if firstCoreMessage != "" then firstCoreMessage
    else FALLBACK_RESPONSE
  }

  /** The text stored under key, or the empty string. */
  function Get(m: map<string, string>, key: string): string {
    if key in m then m[key] else ""
  }

  method BuildSignaturesOutput(reg: Registries, q: Question, persona: string, inputs: Option<map<string, string>>, results: CalcResults)
    returns (out: Output)
    requires DistinctResultKeys(results)
    ensures out.signatures.behavioralCore != []
    ensures |out.signatures.behavioralCore| == |CoreCodes(q)|
    ensures forall i :: 0 <= i < |CoreCodes(q)| ==>
      out.signatures.behavioralCore[i] == MessageEntry(reg.core, CoreCodes(q)[i], persona)
    ensures var codes := TagsOf(q).conditionModifiers.GetOr([]);
      |out.signatures.conditionModifiers| == |codes| &&
      forall i :: 0 <= i < |codes| ==>
        out.signatures.conditionModifiers[i] == MessageEntry(reg.modifiers, codes[i], persona)
    ensures var codes := TagsOf(q).engagementDrivers.GetOr([]);
      |out.signatures.engagementDrivers| == |codes| &&
      forall i :: 0 <= i < |codes| ==>
        out.signatures.engagementDrivers[i] == MessageEntry(reg.drivers, codes[i], persona)
    ensures var codes := q.securityRuleCodes.GetOr([]);
      |out.signatures.securityRules| == |codes| &&
      forall i :: 0 <= i < |codes| ==> out.signatures.securityRules[i] == RuleEntryFor(reg.securityRules, codes[i], persona)
    ensures var codes := q.actionPlanCodes.GetOr([]);
      |out.signatures.actionPlans| == |codes| &&
      forall i :: 0 <= i < |codes| ==> out.signatures.actionPlans[i] == PlanEntry(reg.actionPlans, codes[i], persona)
    ensures out.response == Response(PersonaResponse(q, persona, out.signatures.behavioralCore[0].message), q.actionStep, q.why)
    ensures out.response.message != ""
    ensures out.persona == persona && out.question == QuestionMeta(q.id, q.category, q.question)
    ensures out.scores == Scores(OrNone(ExtractMyLifeCheck(results)), OrNone(ExtractPrevent(results)))
    ensures out.sources == q.sources.GetOr([])
    ensures out.calculator == CalculatorInfo(inputs.GetOr(map[]), KeysOf(results))
    ensures var ks := out.calculator.resultsAvailable;
      (forall k :: k in ks <==> Lookup(results, k).Some?) &&
      (forall i, j :: 0 <= i < j < |ks| ==> ks[i] != ks[j])
  {
    KeysOfLookup(results);
    var tags := TagsOf(q);
    var coreCodes := tags.behavioralCore.GetOr([]);
    var modCodes := tags.conditionModifiers.GetOr([]);
    var drvCodes := tags.engagementDrivers.GetOr([]);
    if coreCodes == [] {
      coreCodes := [DEFAULT_CORE];
    }

    var behavioralCore := ResolveMessages(reg.core, coreCodes, persona);
    var conditionModifiers := ResolveMessages(reg.modifiers, modCodes, persona);
    var engagementDrivers := ResolveMessages(reg.drivers, drvCodes, persona);
    var securityRules := ResolveRules(reg.securityRules, q.securityRuleCodes.GetOr([]), persona);
    var actionPlans := ResolvePlans(reg.actionPlans, q.actionPlanCodes.GetOr([]), persona);

    var personaResponse := Strip(Get(q.responses, persona));
    if personaResponse == "" {
      personaResponse := if behavioralCore[0].message != "" then behavioralCore[0].message else FALLBACK_RESPONSE;
    }

    out := Output(
      persona,
      QuestionMeta(q.id, q.category, q.question),
      Response(personaResponse, q.actionStep, q.why),
      Signatures(behavioralCore, conditionModifiers, engagementDrivers, securityRules, actionPlans),
      Scores(OrNone(ExtractMyLifeCheck(results)), OrNone(ExtractPrevent(results))),
      q.sources.GetOr([]),
      CalculatorInfo(inputs.GetOr(map[]), KeysOf(results)));
  }

  /**
   * With no behavioural-core codes the output carries exactly the GEN entry,
   * whose message is never empty, and a question without its own response for
   * the persona answers with that message.
   */
  lemma DefaultCoreOutput(q: Question, persona: string)
    requires TagsOf(q).behavioralCore.GetOr([]) == []
    ensures CoreCodes(q) == ["GEN"]
    ensures var e := MessageEntry(BEHAVIORAL_CORE_MESSAGES, "GEN", persona);
      e.labelText == "General Support" && e.message != "" &&
      (Strip(Get(q.responses, persona)) == "" ==> PersonaResponse(q, persona, e.message) == e.message)
  {
    GeneralMessageNonEmpty(persona);
  }
}
