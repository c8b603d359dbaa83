/**
 * The pasted-text converter of convert_questions_to_text_to_bank.py: a
 * line-driven state machine that turns "Question N: ..." blocks with persona,
 * "Action Step:" and "Why:" lines into question items.
 *
 * The regular expressions are not modelled. Each stripped line is given a
 * class by a caller-supplied classifier, which stands for trying QUESTION_RE,
 * PERSONA_RE, ACTION_RE and WHY_RE in that order; the category hints are the
 * source's pattern list, searched by a caller-supplied matcher.
 */
module QuestionConverter {
  import opened Wrappers
  import opened Text
  import opened Personas

  // ---------------------------------------------------------------
  // line classes and category hints
  // ---------------------------------------------------------------

  /** The persona names PERSONA_RE accepts, after str.capitalize(). */
  datatype PersonaLabel = Listener | Motivator | Director | Expert

  function Name(p: PersonaLabel): (n: string)
    ensures n in PERSONAS
  {
    match p
    case Listener => "Listener"
    case Motivator => "Motivator"
    case Director => "Director"
    case Expert => "Expert"
  }

  /**
   * What the first matching pattern captured: the question text
   * (group q1, else q2), the persona and the rest of its line, or the text
   * after "Action Step:" or "Why:".
   */
  datatype LineClass =
    | QuestionLine(text: string)
    | PersonaLine(persona: PersonaLabel, rest: string)
    | ActionLine(text: string)
    | WhyLine(text: string)
    | OtherLine

  type Classifier = string -> LineClass

  /** re.search(pattern, text, IGNORECASE), given the pattern source text. */
  type HintMatcher = (string, string) -> bool

  /** Pattern, category; the first pattern that matches decides. */
  const CATEGORY_HINTS: seq<(string, string)> := [
    (@"\bheart,\s*kidney,\s*and\s*metabolic\b", "CKM"),
    (@"\bcardio.*kidney.*metabolic\b", "CKM"),
    (@"\bhigh blood pressure\b|\bhypertension\b", "HTN"),
    (@"\bheart failure\b", "HF"),
    (@"\bcoronary artery disease\b|\bCAD\b", "CAD"),
    (@"\batrial fibrillation\b|\bAFib\b", "AFIB"),
    (@"\bstroke\b", "STROKE"),
    (@"\bdiabetes\b", "DM")
  ]

  const DEFAULT_CATEGORY := "GENERAL"

  function FirstHint(hints: seq<(string, string)>, low: string, matches: HintMatcher): Option<string> {
    if hints == [] then None
    else if matches(hints[0].0, low) then Some(hints[0].1)
    else FirstHint(hints[1..], low, matches)
  }

  /** No hint before position i matches. */
  predicate NoHintBefore(hints: seq<(string, string)>, low: string, matches: HintMatcher, i: int) {
    forall j :: 0 <= j < i && j < |hints| ==> !matches(hints[j].0, low)
  }

  /** The category of the first matching hint, and nothing when none matches. */
  lemma {:induction false} FirstHintSpec(hints: seq<(string, string)>, low: string, matches: HintMatcher)
    ensures (forall j :: 0 <= j < |hints| ==> !matches(hints[j].0, low)) ==> FirstHint(hints, low, matches) == None
    ensures forall i :: 0 <= i < |hints| ==>
      (matches(hints[i].0, low) && NoHintBefore(hints, low, matches, i) ==> FirstHint(hints, low, matches) == Some(hints[i].1))
  {
    if hints != [] {
      FirstHintSpec(hints[1..], low, matches);
      assert forall j :: 1 <= j < |hints| ==> hints[1..][j - 1] == hints[j];
    }
  }

  function DetectCategory(line: string, current: string, matches: HintMatcher): string {
    FirstHint(CATEGORY_HINTS, Lower(line), matches).GetOr(current)
  }

  /**
   * detect_category_from_line keeps the current category when no hint matches
   * the lower-cased line, and otherwise takes the category of the first hint
   * in list order.
   */
  lemma DetectCategorySpec(line: string, current: string, matches: HintMatcher)
    ensures (forall j :: 0 <= j < |CATEGORY_HINTS| ==> !matches(CATEGORY_HINTS[j].0, Lower(line))) ==>
      DetectCategory(line, current, matches) == current
    ensures forall i :: 0 <= i < |CATEGORY_HINTS| ==>
      (matches(CATEGORY_HINTS[i].0, Lower(line)) && NoHintBefore(CATEGORY_HINTS, Lower(line), matches, i) ==>
         DetectCategory(line, current, matches) == CATEGORY_HINTS[i].1)
  {
    FirstHintSpec(CATEGORY_HINTS, Lower(line), matches);
  }

  // ---------------------------------------------------------------
  // clean_quotes
  // ---------------------------------------------------------------

  predicate IsQuote(c: char) { c == '\U{201C}' || c == '\U{201D}' || c == '"' }

  /** Strip whitespace, then curly and straight double quotes, then whitespace. */
  function CleanQuotes(s: string): (r: string)
    ensures NoOuterSpace(r)
    ensures |r| <= |s|
  {
    Strip(StripBy(Strip(s), IsQuote))
  }

  predicate NoOuterQuote(t: string) {
    t == [] || (!IsQuote(t[0]) && !IsQuote(t[|t| - 1]))
  }

  lemma QuotesStripped(t: string)
    requires NoOuterQuote(t)
    ensures StripBy("\U{201C}" + t + "\U{201D}", IsQuote) == t
  {
    var w := "\U{201C}" + t + "\U{201D}";
    assert w[1..] == t + "\U{201D}";
    if t == [] {
      assert TrimStart("\U{201D}", IsQuote) == TrimStart([], IsQuote);
    } else {
      assert TrimStart(t + "\U{201D}", IsQuote) == t + "\U{201D}";
      assert (t + "\U{201D}")[..|t|] == t;
      assert TrimEnd(t + "\U{201D}", IsQuote) == TrimEnd(t, IsQuote);
    }
  }

  /** Text wrapped in curly quotes comes back without them. */
  lemma CleanQuotesUnwraps(t: string)
    requires NoOuterSpace(t) && NoOuterQuote(t)
    ensures CleanQuotes("\U{201C}" + t + "\U{201D}") == t
  {
    var w := "\U{201C}" + t + "\U{201D}";
    assert !IsSpace('\U{201C}') && !IsSpace('\U{201D}');
    StripOfStripped(w);
    QuotesStripped(t);
    StripOfStripped(t);
  }

  // ---------------------------------------------------------------
  // parser state
  // ---------------------------------------------------------------

  /** QuestionItem; the source fields are never filled by the parser. */
  datatype Item = Item(
    category: string,
    question: string,
    responses: map<string, string>,
    actionStep: string,
    whyItMatters: string,
    sourceTitle: string,
    sourceUrl: string)

  function NewItem(category: string, question: string): Item {
    Item(category, question, map[], "", "", "", "")
  }

  /** The text stored under key, or the empty string. */
  function Get(m: map<string, string>, key: string): string {
    if key in m then m[key] else ""
  }

  /** Adds an empty response for each name of ps that has none yet, in order. */
  function SetDefaults(m: map<string, string>, ps: seq<string>): map<string, string> {
    if ps == [] then m
    else
      var done := SetDefaults(m, ps[..|ps| - 1]);
      var p := ps[|ps| - 1];
      if p in done then done else done[p := ""]
  }

  /** The defaults add exactly the missing names, with empty text, and keep every existing response. */
  lemma {:induction false} SetDefaultsSpec(m: map<string, string>, ps: seq<string>)
    ensures forall k :: k in SetDefaults(m, ps) <==> k in m || k in ps
    ensures forall k :: k in m ==> SetDefaults(m, ps)[k] == m[k]
    ensures forall k :: k in ps && k !in m ==> SetDefaults(m, ps)[k] == ""
  {
    if ps != [] {
      var init := ps[..|ps| - 1];
      SetDefaultsSpec(m, init);
      assert forall k :: k in ps <==> k in init || k == ps[|ps| - 1];
    }
  }

  predicate HasPersonaKeys(q: Item) {
    forall p :: p in PERSONAS ==> p in q.responses
  }

  function Completed(q: Item): Item {
    q.(responses := SetDefaults(q.responses, PERSONAS))
  }

  /** The item list after flush_current. */
  function Flushed(items: seq<Item>, current: Option<Item>): seq<Item> {
    match current
    case None => items
    case Some(q) => items + [Completed(q)]
  }

  datatype ParseState = ParseState(
    category: string,
    current: Option<Item>,
    persona: Option<PersonaLabel>,
    items: seq<Item>)

  const INIT := ParseState(DEFAULT_CATEGORY, None, None, [])

  function Flush(st: ParseState): ParseState {
    ParseState(st.category, None, None, Flushed(st.items, st.current))
  }

  predicate StartsWith(s: string, prefix: string) {
    |prefix| <= |s| && s[..|prefix|] == prefix
  }

  /** One iteration of the parse_blocks loop. */
  function Step(st: ParseState, raw: string, classify: Classifier, matches: HintMatcher): ParseState {
    var line := Strip(raw);
    if line == "" then st
    else StepLine(st.(category := DetectCategory(line, st.category, matches)), line, classify(line))
  }

  /** The effect of a non-blank line of class c, once the category has been updated. */
  function StepLine(st: ParseState, line: string, c: LineClass): ParseState {
    match c
    case QuestionLine(text) =>
      Flush(st).(current := Some(NewItem(st.category, CleanQuotes(text))))
    case PersonaLine(p, rest) =>
      if st.current.None? then st
      else
        var q := st.current.value;
        var msg := CleanQuotes(Strip(rest));
        var text := if msg != "" then msg else Get(q.responses, Name(p));
        st.(current := Some(q.(responses := q.responses[Name(p) := text])), persona := Some(p))
    case ActionLine(text) =>
      if st.current.None? then st
      else st.(current := Some(st.current.value.(actionStep := CleanQuotes(text))), persona := None)
    case WhyLine(text) =>
      if st.current.None? then st
      else st.(current := Some(st.current.value.(whyItMatters := CleanQuotes(text))), persona := None)
    case OtherLine =>
      if st.current.None? || st.persona.None? then st
      else if StartsWith(Lower(line), "question ") then st
      else
        var q := st.current.value;
        var name := Name(st.persona.value);
        var text := Strip(Get(q.responses, name) + " " + CleanQuotes(line));
        st.(current := Some(q.(responses := q.responses[name := text])))
  }

  function Run(st: ParseState, lines: seq<string>, classify: Classifier, matches: HintMatcher): ParseState {
    if lines == [] then st
    else Step(Run(st, lines[..|lines| - 1], classify, matches), lines[|lines| - 1], classify, matches)
  }

  /** What parse_blocks returns. */
  function ParseOutput(lines: seq<string>, classify: Classifier, matches: HintMatcher): seq<Item> {
    Flush(Run(INIT, lines, classify, matches)).items
  }

  // ---------------------------------------------------------------
  // parse_blocks
  // ---------------------------------------------------------------

  method FlushCurrent(items: seq<Item>, current: Option<Item>) returns (out: seq<Item>)
    ensures out == Flushed(items, current)
  {
    out := items;
    if current.Some? {
      var q := current.value;
      var responses := q.responses;
      for k := 0 to |PERSONAS|
        invariant responses == SetDefaults(q.responses, PERSONAS[..k])
      {
        assert PERSONAS[..k + 1][..k] == PERSONAS[..k];
        if PERSONAS[k] !in responses {
          responses := responses[PERSONAS[k] := ""];
        }
      }
      assert PERSONAS[..|PERSONAS|] == PERSONAS;
      out := items + [q.(responses := responses)];
    }
  }

  /** The body of the parse_blocks loop for one raw line. */
  method ParseLine(category: string, current: Option<Item>, currentPersona: Option<PersonaLabel>, items: seq<Item>,
                   raw: string, classify: Classifier, matches: HintMatcher)
    returns (category': string, current': Option<Item>, currentPersona': Option<PersonaLabel>, items': seq<Item>)
    ensures ParseState(category', current', currentPersona', items') ==
      Step(ParseState(category, current, currentPersona, items), raw, classify, matches)
  {
    var line := Strip(raw);
    if line == "" {
      return category, current, currentPersona, items;
    }
    category' := DetectCategory(line, category, matches);
    current', currentPersona', items' := ApplyLine(category', current, currentPersona, items, line, classify(line));
  }

  /** One branch of the parse loop for a non-blank line of class c. */
  method ApplyLine(category: string, current: Option<Item>, currentPersona: Option<PersonaLabel>, items: seq<Item>,
                   line: string, c: LineClass)
    returns (current': Option<Item>, currentPersona': Option<PersonaLabel>, items': seq<Item>)
    ensures ParseState(category, current', currentPersona', items') ==
      StepLine(ParseState(category, current, currentPersona, items), line, c)
  {
    current', currentPersona', items' := current, currentPersona, items;
    match c
    case QuestionLine(text) =>
      items' := FlushCurrent(items, current);
      current' := Some(NewItem(category, CleanQuotes(text)));
      currentPersona' := None;
    case PersonaLine(p, rest) =>
      if current.Some? {
        var q := current.value;
        var msg := CleanQuotes(Strip(rest));
        var text := if msg != "" then msg else Get(q.responses, Name(p));
        current' := Some(q.(responses := q.responses[Name(p) := text]));
        currentPersona' := Some(p);
      }
    case ActionLine(text) =>
      if current.Some? {
        current' := Some(current.value.(actionStep := CleanQuotes(text)));
        currentPersona' := None;
      }
    case WhyLine(text) =>
      if current.Some? {
        current' := Some(current.value.(whyItMatters := CleanQuotes(text)));
        currentPersona' := None;
      }
    case OtherLine =>
      if current.Some? && currentPersona.Some? && !StartsWith(Lower(line), "question ") {
        var q := current.value;
        var name := Name(currentPersona.value);
        current' := Some(q.(responses := q.responses[name := Strip(Get(q.responses, name) + " " + CleanQuotes(line))]));
      }
  }

  method ParseBlocks(lines: seq<string>, classify: Classifier, matches: HintMatcher) returns (items: seq<Item>)
    ensures items == ParseOutput(lines, classify, matches)
  {
    items := [];
    var category := DEFAULT_CATEGORY;
    var current: Option<Item> := None;
    var currentPersona: Option<PersonaLabel> := None;
    for i := 0 to |lines|
      invariant ParseState(category, current, currentPersona, items) == Run(INIT, lines[..i], classify, matches)
    {
      assert lines[..i + 1][..i] == lines[..i];
      category, current, currentPersona, items := ParseLine(category, current, currentPersona, items, lines[i], classify, matches);
    }
    assert lines[..|lines|] == lines;
    items := FlushCurrent(items, current);
  }

  // ---------------------------------------------------------------
  // properties of the parser
  // ---------------------------------------------------------------

  lemma {:induction false} RunAppend(st: ParseState, a: seq<string>, b: seq<string>, classify: Classifier, matches: HintMatcher)
    ensures Run(st, a + b, classify, matches) == Run(Run(st, a, classify, matches), b, classify, matches)
  {
    if b == [] {
      assert a + b == a;
    } else {
      var b0 := b[..|b| - 1];
      assert (a + b)[..|a + b| - 1] == a + b0;
      assert (a + b)[|a + b| - 1] == b[|b| - 1];
      RunAppend(st, a, b0, classify, matches);
    }
  }

  /** A line that is empty after stripping changes nothing, wherever it stands. */
  lemma BlankLineChangesNothing(a: seq<string>, blank: string, b: seq<string>, classify: Classifier, matches: HintMatcher)
    requires Strip(blank) == ""
    ensures ParseOutput(a + [blank] + b, classify, matches) == ParseOutput(a + b, classify, matches)
  {
    RunAppend(INIT, a + [blank], b, classify, matches);
    RunAppend(INIT, a, b, classify, matches);
    assert (a + [blank])[..|a|] == a;
  }

  /** The category after each line folds detect_category_from_line over the non-blank lines. */
  function CategoryAfter(start: string, lines: seq<string>, matches: HintMatcher): string {
    if lines == [] then start
    else
      var before := CategoryAfter(start, lines[..|lines| - 1], matches);
      var line := Strip(lines[|lines| - 1]);
      if line == "" then before else DetectCategory(line, before, matches)
  }

  /**
   * The category is recomputed from every non-blank line, question lines
   * included, and depends on nothing but the lines.
   */
  lemma {:induction false} RunCategory(st: ParseState, lines: seq<string>, classify: Classifier, matches: HintMatcher)
    ensures Run(st, lines, classify, matches).category == CategoryAfter(st.category, lines, matches)
  {
    if lines != [] {
      RunCategory(st, lines[..|lines| - 1], classify, matches);
    }
  }

  /** A question line's own category hint is applied before the item is opened. */
  lemma QuestionTakesLineCategory(st: ParseState, raw: string, classify: Classifier, matches: HintMatcher)
    requires Strip(raw) != "" && classify(Strip(raw)).QuestionLine?
    ensures var next := Step(st, raw, classify, matches);
      next.current == Some(NewItem(DetectCategory(Strip(raw), st.category, matches), CleanQuotes(classify(Strip(raw)).text))) &&
      next.persona == None &&
      next.items == Flushed(st.items, st.current)
  {
  }

  predicate IsQuestionLine(raw: string, classify: Classifier) {
    Strip(raw) != "" && classify(Strip(raw)).QuestionLine?
  }

  /** The cleaned question texts of the question lines, in input order. */
  function QuestionTexts(lines: seq<string>, classify: Classifier): seq<string> {
    if lines == [] then []
    else
      var last := lines[|lines| - 1];
      QuestionTexts(lines[..|lines| - 1], classify) +
        (if IsQuestionLine(last, classify) then [CleanQuotes(classify(Strip(last)).text)] else [])
  }

  function Questions(items: seq<Item>): (r: seq<string>)
    ensures |r| == |items|
  {
    seq(|items|, i requires 0 <= i < |items| => items[i].question)
  }

  /** Questions of the finished items, then of the open one. */
  function QuestionsSoFar(st: ParseState): seq<string> {
    Questions(st.items) + (if st.current.Some? then [st.current.value.question] else [])
  }

  lemma FlushKeepsQuestions(st: ParseState)
    ensures Questions(Flush(st).items) == QuestionsSoFar(st)
  {
  }

  lemma StepQuestions(st: ParseState, raw: string, classify: Classifier, matches: HintMatcher)
    ensures QuestionsSoFar(Step(st, raw, classify, matches)) ==
      QuestionsSoFar(st) + (if IsQuestionLine(raw, classify) then [CleanQuotes(classify(Strip(raw)).text)] else [])
  {
    if IsQuestionLine(raw, classify) {
      FlushKeepsQuestions(st.(category := DetectCategory(Strip(raw), st.category, matches)));
    }
  }

  lemma {:induction false} RunQuestions(st: ParseState, lines: seq<string>, classify: Classifier, matches: HintMatcher)
    ensures QuestionsSoFar(Run(st, lines, classify, matches)) == QuestionsSoFar(st) + QuestionTexts(lines, classify)
  {
    if lines != [] {
      var init := lines[..|lines| - 1];
      RunQuestions(st, init, classify, matches);
      StepQuestions(Run(st, init, classify, matches), lines[|lines| - 1], classify, matches);
    }
  }

  /** One item per question line, in input order, carrying that line's cleaned question text. */
  lemma ParseQuestions(lines: seq<string>, classify: Classifier, matches: HintMatcher)
    ensures Questions(ParseOutput(lines, classify, matches)) == QuestionTexts(lines, classify)
    ensures |ParseOutput(lines, classify, matches)| == |QuestionTexts(lines, classify)|
  {
    RunQuestions(INIT, lines, classify, matches);
    FlushKeepsQuestions(Run(INIT, lines, classify, matches));
  }

  lemma CompletedHasPersonaKeys(q: Item)
    ensures HasPersonaKeys(Completed(q))
    ensures forall k :: k in q.responses ==> k in Completed(q).responses && Completed(q).responses[k] == q.responses[k]
    ensures forall p :: p in PERSONAS && p !in q.responses ==> Completed(q).responses[p] == ""
  {
    SetDefaultsSpec(q.responses, PERSONAS);
  }

  predicate AllHavePersonaKeys(items: seq<Item>) {
    forall k :: 0 <= k < |items| ==> HasPersonaKeys(items[k])
  }

  lemma {:induction false} RunKeepsPersonaKeys(st: ParseState, lines: seq<string>, classify: Classifier, matches: HintMatcher)
    requires AllHavePersonaKeys(st.items)
    ensures AllHavePersonaKeys(Run(st, lines, classify, matches).items)
  {
    if lines != [] {
      var before := Run(st, lines[..|lines| - 1], classify, matches);
      RunKeepsPersonaKeys(st, lines[..|lines| - 1], classify, matches);
      if before.current.Some? {
        CompletedHasPersonaKeys(before.current.value);
      }
    }
  }

  /** Every emitted item answers for all four personas. */
  lemma ParseOutputHasPersonaKeys(lines: seq<string>, classify: Classifier, matches: HintMatcher)
    ensures AllHavePersonaKeys(ParseOutput(lines, classify, matches))
  {
    var last := Run(INIT, lines, classify, matches);
    RunKeepsPersonaKeys(INIT, lines, classify, matches);
    if last.current.Some? {
      CompletedHasPersonaKeys(last.current.value);
    }
  }

  predicate NoQuestionLine(lines: seq<string>, classify: Classifier) {
    forall k :: 0 <= k < |lines| ==> !IsQuestionLine(lines[k], classify)
  }

  /** Before the first question only the category moves: every other branch needs an open question. */
  lemma {:induction false} PreambleOnlySetsCategory(st: ParseState, pre: seq<string>, classify: Classifier, matches: HintMatcher)
    requires st.current.None? && st.persona.None?
    requires NoQuestionLine(pre, classify)
    ensures Run(st, pre, classify, matches) == st.(category := CategoryAfter(st.category, pre, matches))
  {
    if pre != [] {
      var init := pre[..|pre| - 1];
      assert NoQuestionLine(init, classify) by {
        assert forall k :: 0 <= k < |init| ==> init[k] == pre[k];
      }
      assert !IsQuestionLine(pre[|pre| - 1], classify);
      PreambleOnlySetsCategory(st, init, classify, matches);
    }
  }

  /** Lines before the first question affect the output through the category alone. */
  lemma PreambleOnlyMatchesThroughCategory(pre: seq<string>, rest: seq<string>, classify: Classifier, matches: HintMatcher)
    requires NoQuestionLine(pre, classify)
    ensures ParseOutput(pre + rest, classify, matches) ==
      Flush(Run(INIT.(category := CategoryAfter(DEFAULT_CATEGORY, pre, matches)), rest, classify, matches)).items
  {
    RunAppend(INIT, pre, rest, classify, matches);
    PreambleOnlySetsCategory(INIT, pre, classify, matches);
  }

  /** An "Action Step:" or "Why:" line sets its field (the last one wins) and ends persona continuation. */
  lemma ActionAndWhyLines(st: ParseState, raw: string, classify: Classifier, matches: HintMatcher)
    requires st.current.Some? && Strip(raw) != ""
    ensures var next := Step(st, raw, classify, matches);
      var c := classify(Strip(raw));
      (c.ActionLine? ==> next.current == Some(st.current.value.(actionStep := CleanQuotes(c.text))) && next.persona == None) &&
      (c.WhyLine? ==> next.current == Some(st.current.value.(whyItMatters := CleanQuotes(c.text))) && next.persona == None)
  {
  }

  /** While a persona is open, any other line is appended to its response after one space. */
  lemma ContinuationAppends(st: ParseState, raw: string, classify: Classifier, matches: HintMatcher)
    requires st.current.Some? && st.persona.Some?
    requires Strip(raw) != "" && classify(Strip(raw)).OtherLine?
    requires !StartsWith(Lower(Strip(raw)), "question ")
    ensures var q := st.current.value;
      var name := Name(st.persona.value);
      Step(st, raw, classify, matches).current ==
        Some(q.(responses := q.responses[name := Strip(Get(q.responses, name) + " " + CleanQuotes(Strip(raw)))]))
  {
  }

  /** A persona line with nothing after the name keeps whatever that persona had collected. */
  lemma EmptyPersonaLineKeepsText(st: ParseState, raw: string, classify: Classifier, matches: HintMatcher)
    requires st.current.Some? && Strip(raw) != ""
    requires classify(Strip(raw)).PersonaLine? && CleanQuotes(Strip(classify(Strip(raw)).rest)) == ""
    ensures var q := st.current.value;
      var p := classify(Strip(raw)).persona;
      var next := Step(st, raw, classify, matches);
      next.current.Some? && Get(next.current.value.responses, Name(p)) == Get(q.responses, Name(p)) &&
      next.persona == Some(p)
  {
  }
}
