# Signatures question bank and assembly engine — a Dafny model

The `learning/` package holds cardiovascular self-management questions. Each
question has four persona responses (Listener, Motivator, Director, Expert).
Around the bank sits the "Signatures" machinery. Given a question and a
persona, it looks up behavioural-core, condition-modifier, engagement-driver,
security-rule and action-plan codes in content registries, and folds in any
calculator scores. This project models and proves six parts of that package:

- **Question bank** (`questions.dfy`, module `Questions`):
  - builds the bank from the raw question sets (`RAW_QUESTION_SETS`), with ids `CAT-NN`, cleaned
    text, complete persona blocks and normalised tags;
  - listing, id lists, the sorted category list, lookup by id;
  - the scored search with its stable sort and limit.
- **Exercise session** (`exercise_session.dfy`, module `ExerciseSession`):
  the pre-exercise, progression and post-exercise checks.
- **Paste converter** (`question_converter.dfy`, module `QuestionConverter`):
  the line-by-line state machine of `parse_blocks`. It strips quotes, picks
  the category from heading hints, opens a question, collects persona
  responses and their continuation lines, sets action/why, and flushes.
- **Content registries** (`signatures_content.dfy`, module
  `SignaturesContent`): the five registries as maps, with their
  well-formedness.
- **Output assembly** (`signatures_rules.dfy`, module `SignaturesRules`):
  - how a message is picked from a block;
  - how unknown codes are resolved;
  - GEN as the default behavioural core;
  - the chain of fallbacks for the persona response;
  - how calculator results are extracted.
- **Payload engine** (`signatures_engine.dfy`,
  module `SignaturesEngine`):
  - normalising codes into one vector, including the out-of-range driver error;
  - the active condition and active driver lists;
  - the five routing predicates for the calculators;
  - payload assembly with the starter stop rule and the action plans.

Shared pieces:
- `text.dfy` (module `Text`) covers `str.strip`, ASCII `lower`/`upper`,
  `" ".join(s.split())` and zero-padding.
- `personas.dfy` holds the persona list.
- `wrappers.dfy` holds `Option` and `Result`.

Stateful loops are methods proved against specification functions:
- building the bank, filling the persona blocks, collecting search hits;
- looking up an id, normalising codes, the parse loop;
- resolving codes, the payload steps.

Everything else is functions with lemmas.

Python dictionaries appear in two forms:
- Where insertion order matters, they are sequences of pairs. This covers
  `RAW_QUESTION_SETS`, the code vector and the calculator results.
  - For the code vector, distinct keys are proved: every assignment keeps
    them distinct (`PutAllSpec`, `NormalizeLookup`).
  - For `RAW_QUESTION_SETS` and the calculator results, distinct keys are a
    precondition (`DistinctCategories`, `DistinctResultKeys`), because the
    source receives them as dicts.
- Everywhere else they are Dafny `map`s.

Some things are parameters rather than code:
- The calculator adapters' results (`Calculators`).
- The regular expressions of the converter. A `Classifier` stands for trying
  the four line patterns in order, and a `HintMatcher` for `re.search`.
- The content registries of `build_signatures_output`. They are passed as a
  `Registries` value, and `SignaturesContent.REGISTRIES` is the one the
  program uses.

Behaviour of the code worth knowing:
- An engagement-driver value outside -1..1 makes `normalize_codes` raise
  `ValueError`, naming the first such driver.
- Driver keys keep their case.
- `list_questions` keeps bank order.
- A category that is only spaces is truthy. It filters on the empty string
  and so lists nothing.
- The persona response is the question's own response string, else the
  first behavioural-core message, else a fixed sentence.
- Security rules come only from the question's own codes, plus the payload's
  single starter rule for the PA core.
- Search scores the question, the tags and every persona's message, action
  step and rationale.
- A substring hit always scores 50. A token overlap scores 5 per shared
  token, so 11 shared tokens outrank a substring hit.

## Model

| member | source | states |
|---|---|---|
| Text.StripSpec | learning/questions.py:44 | `strip()` returns a slice of the input with only whitespace outside it, and the slice neither starts nor ends with whitespace |
| Text.StripBySpec | learning/convert_questions_to_text_to_bank.py:77 | `strip(chars)` returns a slice of the input with only characters of the set outside it |
| Text.StripOfStripped | learning/questions.py:44 | stripping text that has no outer whitespace gives the text back |
| Text.CleanTextIsClean | learning/questions.py:43-44 | `_clean_text` yields single-spaced text with no outer space, made of exactly the whitespace-separated words of the input, in order |
| Text.RunsOfStrip | learning/questions.py:44 | stripping does not change the words `split()` finds |
| Text.CleanTextIdempotent | learning/questions.py:43-44 | cleaning twice equals cleaning once |
| Text.CleanTextOfBlank | learning/questions.py:43-44 | all-whitespace input cleans to the empty string |
| Text.LowerIdempotent | learning/questions.py:1978 | lower-casing twice equals lower-casing once |
| Text.LexLessTransitive | learning/questions.py:1953 | the string order used by `sorted` is transitive (irreflexive and total in the lemmas beside it) |
| Text.ContainsAt | learning/questions.py:1998 | `query in joined` holds iff the query occurs at some index of the haystack |
| Text.Pad2RoundTrip | learning/questions.py:1925 | the `:02d` rendering of an index reads back as that index |
| Text.Pad2Injective | learning/questions.py:1925 | distinct indices get distinct `:02d` renderings |
| Questions.BlockOf | learning/questions.py:52 | a persona entry that is a dict is used as is; a missing or non-dict entry becomes an empty block |
| Questions.CleanOr | learning/questions.py:54-56 | the cleaned field when it is non-empty, otherwise the placeholder; never empty |
| Questions.PersonaBlocks | learning/questions.py:46-58 | the result has exactly the four personas as keys, and each block's message, action step and rationale are filled |
| Questions.EnsurePersonaBlock | learning/questions.py:46-58 | the loop over the personas builds exactly `PersonaBlocks` |
| Questions.KeepTagsSpec | learning/questions.py:1931 | kept tags are stripped, lower-cased and non-empty; every non-blank input tag is kept, and every kept tag comes from an input tag |
| Questions.NormalizeTagsSpec | learning/questions.py:1928-1931 | a bare string becomes a one-element tag list (or none if blank); a list is filtered as above |
| Questions.IdInjective | learning/questions.py:1925 | equal ids `CAT-NN` imply equal category and equal index |
| Questions.BuildQuestionBank | learning/questions.py:1921-1942 | the nested loop over the question sets builds exactly `BankOf(raw)` |
| Questions.AppendCategory | learning/questions.py:1924-1941 | the inner loop appends the category's entries, numbered from 1, after the existing bank |
| Questions.NormalizeQuestion | learning/questions.py:1925-1941 | one loop iteration produces the normalised entry for that category and index |
| Questions.BankLength | learning/questions.py:1921-1942 | the bank has one entry per item of every question set |
| Questions.BankLayout | learning/questions.py:1923-1925 | item i of question set c sits at position (items of earlier sets) + i, with index i + 1 |
| Questions.EntryShape | learning/questions.py:1923-1939 | every entry is the normalised form of item i of some question set k, so its category is that set's and its id is the category, a dash and i + 1 padded |
| Questions.BankHasAllPersonas | learning/questions.py:1927 | every entry of the built bank has a block for each of the four personas, which is what the search helpers require |
| Questions.IdsUnique | learning/questions.py:1923-1925 | when the question-set categories are distinct, no two bank entries share an id |
| Questions.FilterCategoryMembers | learning/questions.py:1959 | an entry is in the filtered list iff it is in the bank and has that category |
| Questions.ListQuestions | learning/questions.py:1955-1959 | no category (or the empty one) lists the whole bank; otherwise the list holds exactly the bank entries whose category equals the stripped, upper-cased argument |
| Questions.CategoryListing | learning/questions.py:1955-1959 | listing a question set's category gives exactly that set's entries, in item order |
| Questions.ValidIds | learning/questions.py:1961-1962 | one id per listed question |
| Questions.ValidIdsOfCategory | learning/questions.py:1961-1962 | for well-formed question sets, the valid ids of a category are `CAT-01` … `CAT-NN` in order |
| Questions.InsertSorted | learning/questions.py:1953 | insertion keeps the category list strictly sorted and adds exactly the new element |
| Questions.AllCategories | learning/questions.py:1952-1953 | the list is strictly sorted and holds exactly the categories present in the bank |
| Questions.SortedDistinct | learning/questions.py:1953 | a strictly sorted list has no duplicates |
| Questions.GetQuestionById | learning/questions.py:1964-1969 | None iff no id matches the stripped, upper-cased key; otherwise a matching entry, and the first one |
| Questions.UpperOfId | learning/questions.py:1967 | an id built from an upper-case category is unchanged by `upper()` and `strip()` |
| Questions.IdLookupFindsEntry | learning/questions.py:1964-1969 | in a well-formed bank, a key that normalises to an entry's id matches that entry and no other |
| Questions.Score | learning/questions.py:1997-2004 | a substring hit scores 50; otherwise 5 per shared token; positive iff there is a substring hit or a shared token |
| Questions.TokenOverlapCanOutrankSubstring | learning/questions.py:1998-2004 | eleven or more shared tokens without a substring hit outrank a substring hit |
| Questions.CollectHay | learning/questions.py:1988-1995 | the haystack is the question, then the tags, then each persona's message, action step and rationale |
| Questions.ScoreEntry | learning/questions.py:1988-2004 | one entry's score is `Score` of the lower-cased joined haystack |
| Questions.CollectHits | learning/questions.py:1987-2007 | the loop builds exactly the positive-score hits of the pool, in pool order |
| Questions.HitsOfSpec | learning/questions.py:2006-2007 | every hit has a positive score and comes from the pool; every positively scored pool entry is a hit |
| Questions.SortPermutes | learning/questions.py:2009 | the sort is a permutation of the hits |
| Questions.SortIsSorted | learning/questions.py:2009 | the sorted hits are in non-increasing score order |
| Questions.SortIsStable | learning/questions.py:2009 | hits with equal scores keep their relative order |
| Questions.SearchQuestions | learning/questions.py:1971-2010 | the result is the ranked result, at most max(1, limit) long, and empty for a blank query |
| Questions.SearchRanking | learning/questions.py:1981-2009 | the ranked hits are a permutation of the hits of the listed pool, sorted by score, stable within equal scores |
| Questions.SearchResultIsRankPrefix | learning/questions.py:2009-2010 | for a non-blank query the result is the entries of the first max(1, limit) ranked hits |
| ExerciseSession.PreExerciseCheck | learning/exercise_session.py:6-40 | one of the four messages; "Proceed" iff no symptoms, medication taken, good mental health, all vitals in range and a normal ECG |
| ExerciseSession.PreCheckPrecedence | learning/exercise_session.py:18-23 | symptoms win over missed medication, which wins over mental health |
| ExerciseSession.PreCheckBiometricFailure | learning/exercise_session.py:26-37 | once the questions pass, any out-of-range vital or abnormal ECG asks for follow-up |
| ExerciseSession.CheckProgression | learning/exercise_session.py:62-75 | one of the five messages; Stop iff some symptom is not "no" |
| ExerciseSession.ProgressionOutcomes | learning/exercise_session.py:66-75 | without symptoms, each outcome holds exactly in its heart-rate-gap and exertion window, and Maintain is everything else |
| ExerciseSession.NoSymptomsWhenAllNo | learning/exercise_session.py:63 | all-"no" answers (any case), or none at all, report no symptom, so progression never says Stop |
| ExerciseSession.PostExerciseCheck | learning/exercise_session.py:77-94 | "end the session" iff no symptoms, the heart rate recovered and the blood pressure is below both limits; otherwise continue monitoring |
| ExerciseSession.PostCheckIgnoresGlucose | learning/exercise_session.py:82-94 | the post-exercise glucose never changes the outcome |
| ExerciseSession.SystolicBoundaryDiffers | learning/exercise_session.py:28-89 | for every other input, a systolic 180 is judged before exercise exactly as 179 is, while after exercise it never lets the session end |
| QuestionConverter.Name | learning/convert_questions_to_text_to_bank.py:121 | a captured persona label is one of the four personas |
| QuestionConverter.FirstHintSpec | learning/convert_questions_to_text_to_bank.py:69-72 | the first matching hint decides; nothing when none matches |
| QuestionConverter.DetectCategorySpec | learning/convert_questions_to_text_to_bank.py:66-72 | the current category is kept when no hint matches the lower-cased line; otherwise the category of the first matching hint |
| QuestionConverter.CleanQuotes | learning/convert_questions_to_text_to_bank.py:75-79 | the result has no outer whitespace and is never longer than the input |
| QuestionConverter.CleanQuotesUnwraps | learning/convert_questions_to_text_to_bank.py:75-79 | text wrapped in curly quotes comes back without them |
| QuestionConverter.SetDefaultsSpec | learning/convert_questions_to_text_to_bank.py:93-94 | `setdefault` adds exactly the missing persona names, with empty text, and keeps every existing response |
| QuestionConverter.FlushCurrent | learning/convert_questions_to_text_to_bank.py:89-97 | an open question is completed with all personas and appended; otherwise the items are unchanged |
| QuestionConverter.ParseLine | learning/convert_questions_to_text_to_bank.py:99-153 | one loop iteration equals the step function `Step` |
| QuestionConverter.ApplyLine | learning/convert_questions_to_text_to_bank.py:109-153 | the branch for a non-blank line equals `StepLine` |
| QuestionConverter.ParseBlocks | learning/convert_questions_to_text_to_bank.py:82-156 | the loop and final flush return exactly `ParseOutput` |
| QuestionConverter.BlankLineChangesNothing | learning/convert_questions_to_text_to_bank.py:100-103 | inserting a line that strips to empty anywhere leaves the output unchanged |
| QuestionConverter.RunCategory | learning/convert_questions_to_text_to_bank.py:105-106 | the category is recomputed from every non-blank line, question lines included, and depends on the lines alone |
| QuestionConverter.QuestionTakesLineCategory | learning/convert_questions_to_text_to_bank.py:106-115 | a question line flushes the open item and opens a new one, in the category detected from that same line |
| QuestionConverter.ParseQuestions | learning/convert_questions_to_text_to_bank.py:82-156 | one item per question line, in input order, with that line's cleaned question text |
| QuestionConverter.ParseOutputHasPersonaKeys | learning/convert_questions_to_text_to_bank.py:89-97 | every emitted item has a response for each of the four personas |
| QuestionConverter.PreambleOnlyMatchesThroughCategory | learning/convert_questions_to_text_to_bank.py:120-144 | lines before the first question affect the output only through the category |
| QuestionConverter.ActionAndWhyLines | learning/convert_questions_to_text_to_bank.py:131-141 | an action or why line sets its field (the last one wins) and ends persona continuation |
| QuestionConverter.ContinuationAppends | learning/convert_questions_to_text_to_bank.py:143-151 | while a persona is open, another line is appended to its response after a space |
| QuestionConverter.EmptyPersonaLineKeepsText | learning/convert_questions_to_text_to_bank.py:119-128 | a persona line with nothing after the name keeps that persona's text and opens it for continuation |
| SignaturesContent.GeneralCoreEntry | learning/signatures_content.py:29-38 | GEN is a behavioural-core code and maps to the General Support block |
| SignaturesContent.GeneralBlockFacts | learning/signatures_content.py:29-38 | the GEN block is labelled "General Support", and its default and its four persona variants all end in a non-space character |
| SignaturesContent.CoreMessagesWellFormed | learning/signatures_content.py:28-56 | every behavioural-core block has a label and a default, no plain message, and variants for exactly the four personas if it has any |
| SignaturesContent.ConditionMessagesWellFormed | learning/signatures_content.py:62-99 | every condition-modifier block is well formed in the same sense |
| SignaturesContent.DriverMessagesWellFormed | learning/signatures_content.py:105-127 | every engagement-driver block is well formed in the same sense |
| SignaturesContent.SecurityRulesWellFormed | learning/signatures_content.py:133-194 | every security rule has a label, a message and a severity of high or medium, and no default or variants |
| SignaturesContent.ActionPlansWellFormed | learning/signatures_content.py:200-235 | every action plan has a label and a message, and no default or variants |
| SignaturesRules.PickMessage | learning/signatures_rules.py:34-42 | the chosen message is stripped |
| SignaturesRules.RuleAndPlanMessagesIgnorePersona | learning/signatures_rules.py:34-42 | a rule or plan block gives every persona its stripped message |
| SignaturesRules.UnknownCodeEntries | learning/signatures_rules.py:84-130 | an unknown code never fails: label is the code, message empty, severity "unknown" for rules |
| SignaturesRules.KnownRuleEntry | learning/signatures_rules.py:112-120 | a registered rule yields its label, its stripped message and its severity |
| SignaturesRules.GeneralMessageNonEmpty | learning/signatures_rules.py:80-91 | the GEN core yields a non-empty message for every persona string |
| SignaturesRules.ResolveMessages | learning/signatures_rules.py:84-109 | one entry per code, in order, each resolved against the registry with the missing-code fallback |
| SignaturesRules.ResolveRules | learning/signatures_rules.py:111-120 | one rule entry per code, in order, with label, message and severity or their fallbacks |
| SignaturesRules.ResolvePlans | learning/signatures_rules.py:122-130 | one plan entry per code, in order, with the missing-code fallback |
| SignaturesRules.ExtractFirstSpec | learning/signatures_rules.py:51-53 | None iff no candidate key holds a dict; otherwise the dict under the first key that holds one |
| SignaturesRules.ExtractPriority | learning/signatures_rules.py:45-66 | "mylifecheck" wins when it holds a dict, and "prevent" wins over "PREVENT"; None when no candidate holds a dict |
| SignaturesRules.OrNone | learning/signatures_rules.py:138-139 | `x or None`: a present, non-empty dict is kept, and anything else becomes None |
| SignaturesRules.KeysOf | learning/signatures_rules.py:167 | the available results are the result keys, in order |
| SignaturesRules.KeysOfLookup | learning/signatures_rules.py:167 | a key is listed iff a lookup finds it, and distinct result keys are listed once each |
| SignaturesRules.CoreCodes | learning/signatures_rules.py:75-82 | never empty; the question's own core codes when it has any |
| SignaturesRules.DefaultCoreOutput | learning/signatures_rules.py:80-91 | a question without core codes gets exactly GEN, with the General Support label and a non-empty message |
| SignaturesRules.PersonaResponse | learning/signatures_rules.py:132-135 | the stripped own response if non-empty, else the first core message if non-empty, else the fixed sentence; never empty |
| SignaturesRules.BuildSignaturesOutput | learning/signatures_rules.py:69-170 | every field of the output: resolved entry lists per code, the response fallback, scores, sources, inputs used and available result keys, each listed once |
| SignaturesEngine.NormalizeCodes | learning/signatures_engine.py:76-93 | the two loops return exactly `NormalizedCodes`, the error included |
| SignaturesEngine.NormalizeFailsIff | learning/signatures_engine.py:88-90 | normalisation fails iff some driver value lies outside -1..1, and the error names the first such driver and its value |
| SignaturesEngine.NormalizeLookup | learning/signatures_engine.py:76-93 | no code appears twice; a driver's last value wins, else a condition's last value mapped to 1 or 0, else 1 for the core, else absent |
| SignaturesEngine.PutAllSpec | learning/signatures_engine.py:85-91 | assigning pairs in order keeps keys distinct, and a key's lookup is its last assigned value, else its old value |
| SignaturesEngine.ActiveConditionsSpec | learning/signatures_engine.py:270-274 | listed iff the code's value is 1, it is upper case, it is not a driver and not the core; in vector order |
| SignaturesEngine.ActiveDriversSpec | learning/signatures_engine.py:276-277 | listed iff the code is a driver with a positive value; in vector order |
| SignaturesEngine.RoutingOfRequest | learning/signatures_engine.py:137-160 | on a normalised request, `should_run_mylifecheck`, `should_run_prevent`, `should_run_chads2vasc` and `should_run_cardiac_rehab` each hold iff their codes are selected with value 1 (a driver overriding a condition, the core counting as 1) or their behaviour or answer condition holds |
| SignaturesEngine.RoutingReadsOnlyItsInputs | learning/signatures_engine.py:137-165 | each of the five routing rules reads only its own codes and answers, and `should_run_healthy_day_at_home` always holds |
| SignaturesEngine.RoutingOverlaps | learning/signatures_engine.py:137-160 | a PA or BP core and CKM each route both Life's Essential 8 and PREVENT; CD routes both PREVENT and cardiac rehab |
| SignaturesEngine.MissingAnswersAreNo | learning/signatures_engine.py:147-160 | a missing answer never counts as yes, so without the answers CHA2DS2-VASc runs iff AF is 1 and rehab runs iff CD or HF is 1 |
| SignaturesEngine.RunMeasurements | learning/signatures_engine.py:289-303 | each measurement is its adapter's result when its routing rule fires, and None otherwise |
| SignaturesEngine.AddStarterContent | learning/signatures_engine.py:305-314 | the payload gains the starter stop rule for PA and the rehab and anticoagulation plans under their conditions, and nothing else changes |
| SignaturesEngine.BuildPayload | learning/signatures_engine.py:267-316 | a normalisation error is passed through; otherwise the payload is exactly `PayloadFor` the inputs |
| SignaturesEngine.PayloadRulesAndPlans | learning/signatures_engine.py:289-314 | measurements only when routed; the stop rule iff the core is PA; the rehab plan iff PA with CD or heart failure; anticoagulation iff AF with a non-empty CHA2DS2-VASc result; rehab before anticoagulation |

## Left out

- Command-line entry points, file and JSON input/output, and the Python-literal and JSON renderers of the converter (`to_python`, `main`), together with `render_signatures_output` and the interactive prompts of `exercise_session.py`: these are I/O.
- The dynamic loading of the calculator module and the `run_*` adapters. Their results enter `BuildPayload` as a `Calculators` value, and the scoring itself belongs to a module that is not part of this model.
- Regular expressions (`QUESTION_RE`, `PERSONA_RE`, `ACTION_RE`, `WHY_RE`, the category hints, the token pattern of search). Line classification is a parameter that returns the first pattern's capture, and hint matching is a parameter. The search token set is modelled as maximal runs of `[a-z0-9']`.
- QuestionConverter.ParseBlocks: does not model how QUESTION_RE extracts the question text. It takes the classifier's capture as given.
- Case mapping beyond ASCII in `lower()`, `upper()`, `capitalize()` and `isupper()`. Whitespace is the full set of characters `str.isspace()` accepts.
- Non-integer values. Floats given to `int(v)` in `normalize_codes`, and booleans standing in for 1, are not modelled; code values are integers and clinical answers are the strings `str()` renders.
- SignaturesRules.BuildSignaturesOutput: models dictionary-shaped calculator results only. The branch that reports no available results for a non-dict value is left out.
- The literal content of `RAW_QUESTION_SETS`. The bank is modelled over any question sets, so properties are proved for every possible content.
- Questions.BuildQuestionBank: does not model items whose fields have the wrong type. A `persona` value that is not a dict (such as `None`) makes `_ensure_persona_block` raise `AttributeError`, and a non-string `question`, `notes` or persona field makes `_clean_text` raise. `RawItem` holds a map of persona blocks and optional strings, so it cannot express these. A persona entry that is not a dict is modelled: it becomes an empty block.
- Questions.PersonaBlocks: does not model the errors of non-string or non-dict field values described for BuildQuestionBank.
- Questions.NormalizeTagsSpec: does not model `tags: None`, which raises a TypeError in the source. Non-string tags are not modelled either.
- `CONTENT_LINKS` and `KNOWN_CONDITION_CODES`: neither is read by any modelled operation.
- `list.sort` is modelled as a stable insertion sort on scores, not as the library algorithm. The properties proved (permutation, order, stability) are what the library guarantees.
