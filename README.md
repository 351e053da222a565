# Standardized-patient dialogue policy, modelled in Dafny

This project models the dialogue policy of `pt_patient_chat`, a simulated
physiotherapy patient that a learner interviews. It covers six pieces:

- **The rule-based engine (`engine.py`).** It has four parts:
  - a slot classifier: a table of topics and keyword patterns, matched against the lowercased question;
  - an interpreter gate, checked before anything else;
  - an input guardrail that deflects questions about diagnosis, prescriptions and imaging;
  - a reply composer: one templated sentence and one rubric tag per asked topic, in a fixed order, with a first-turn chief-complaint fallback.
- **The LLM-backed engine (`engine_llm.py`).** It uses the same gate and guardrail, then asks a text generator for the reply. A generated reply that mentions a diagnosis or a prescription is replaced by a fixed, softened sentence. A streaming variant emits token events and then one meta event.
- **Prompt assembly (`prompt_builder.py`).** It builds the four chat messages: the system prompt, a persona summary, a state hint and the question.
- **The rubric scorer (`rubric.py`).** It is a weighted checklist of 12 items, scored on the set of tags a session produced.
- **The generator clients (`llm_adapters.py`).** The offline echo client, the one-chunk fallback stream and the filter that keeps the non-empty deltas of a streamed completion.
- **The behaviour-driven prompt of the simple app (`app_simple.py`).** Instruction text is chosen for three behaviour settings. Custom instructions are appended, and a generic prompt stands in when no persona is loaded. The chat message list is laid out with a behaviour reminder once the history is long.

## Modules

- `Text` (`text.dfy`): the Python string built-ins the code relies on:
  - `lower`, `join` and `split`;
  - substring search;
  - f-string rendering of optional values and integers;
  - `x or default`.
- `Regex` (`regex.dfy`): the small regular-expression language the patterns are written in. It covers literals, `\b`, alternation, `.*`, `.?` and an open-ended stem. Matching is defined as a set of end positions.
- `Domain` (`domain.dfy`): the persona record (every dictionary section and field optional), the conversation state, messages and turns. A failed `persona[...]` lookup is modelled as a `KeyError` outcome.
- `Rubric` (`rubric.dfy`), `Engine` (`engine.dfy`), `PromptBuilder` (`prompt_builder.dfy`), `LlmAdapters` (`llm_adapters.dfy`), `EngineLlm` (`engine_llm.dfy`) and `AppSimple` (`app_simple.dfy`) follow the source files of the same names.

The imperative code keeps its form:
- `detect_slots`, `apply_guardrails`, `patient_reply`, `build_messages`, `score_from_tags`, the two LLM entry points and `build_chat_messages` are methods with loops or chains of updates.
- Each method is proved against a specification function.
- The properties the code promises are proved about those functions as lemmas.

### Properties of the code as written

- **Rubric maximum.** The weights in `rubric.py` add up to 11.0, and the model proves `MaxTotal(RUBRIC_ITEMS) == 11.0`.
- **Tags on the LLM path.** The LLM engine tags a turn with the raw slot names (`onset`, not `asked_onset`). No rubric item has such a key, so an LLM turn scores nothing (`EngineLlm.ModelTurnEarnsNoPoints`). The repository's own test `tests/run_tests.py:37` expects `asked_onset`.
- **Imaging pattern.** The `MRI` and `CT` alternatives of the imaging pattern are upper-case, while the question is lowercased first. They can never match (`Engine.ImagingRuleIgnoresMriAndCt`).
- **Softened reply.** The softened reply itself contains the word "diagnosis", so it would fail the output check it replaces (`EngineLlm.SoftenedIsFlagged`).
- **Duplicated guardrail.** `engine_llm.py` repeats the guardrail list and the body of its function from `engine.py`. Only the unused `persona` parameter is dropped (`engine_llm.py:19` against `engine.py:56`). The model defines them once, in `Engine`.
- **Stream path.** The streaming path never applies the output check. Stream and plain turn agree exactly when that check does not fire (`EngineLlm.StreamAgreesWithTurn`).
- **Deflection wording.** The deflection says "diagnoses" but never contains "diagnosis" in any case (`Engine.DeflectionLacksDiagnosis`). The repository's test `tests/run_tests.py:30` expects "diagnosis" in the lowercased deflection.
- **Mechanism pattern.** The pattern `\bhow happen(ed|)\b` needs "how" and "happen" side by side. "When did this start and how did it happen?" therefore matches no mechanism pattern and is not tagged with the mechanism (`Engine.HowQuestionNotMechanism`). The test at `tests/run_tests.py:35-37` expects that question to be tagged `asked_mechanism`.
- **Rating before "pain".** The rating pattern `\b(0|...|10)\b.*\bpain\b` needs the number before the word "pain". "How bad is the pain, 0 to 10?" matches no severity pattern (`Engine.PainThenRatingNotSeverity`).
- **Order of the composer's checks.** The composer raises a `KeyError` for a missing `context` (work asked) or `sdoh` (transport asked) section part-way through its chain. `Engine.AnswerSlots` checks those two lookups before composing any sentence. A raised `KeyError` discards the partial reply, so the outcome is the same.

## Model

| member | source | states |
|---|---|---|
| Engine.DetectSlots | pt_patient_chat/engine.py:34-42 | the slots found are exactly those of the table, in table order, for which one pattern matches the lowercased question |
| Engine.DetectedSlotsSpec | pt_patient_chat/engine.py:18-42 | each slot is detected at most once, in the table's order, and a slot is detected iff one of its patterns matches the lowercased text |
| Engine.DetectedMembers | pt_patient_chat/engine.py:37-41 | a topic is in the scan's result iff some table row of that topic has a matching pattern |
| Engine.DetectedRanked | pt_patient_chat/engine.py:37-41 | scanning a table whose rows are in rank order yields topics in strictly increasing rank, so without repeats |
| Engine.WantsInterpreterSpec | pt_patient_chat/engine.py:44-45 | the question asks for an interpreter iff its lowercased text holds interpreter, translate or translator as a whole word |
| Engine.KeywordMatch | pt_patient_chat/engine.py:45 | any match of the interpreter pattern spells one of the three keywords between word boundaries |
| Engine.KeywordFound | pt_patient_chat/engine.py:45 | any of the three keywords standing as a whole word matches the interpreter pattern |
| Engine.KeywordSpelled | pt_patient_chat/engine.py:45 | the text matched by the keyword alternation is one of the three keywords, spelled at that position |
| Engine.HowQuestionNotMechanism | pt_patient_chat/engine.py:20 | "When did this start and how did it happen?" is not detected as a mechanism question |
| Engine.NrsPainNeedsNumberFirst | pt_patient_chat/engine.py:22 | the rating pattern needs a number before the word "pain": it never matches a digit-free head followed by a tail without the letter p |
| Engine.PainThenRatingNotSeverity | pt_patient_chat/engine.py:22 | "How bad is the pain, 0 to 10?" is not detected as a severity question |
| Engine.GateClearedForGood | pt_patient_chat/engine.py:72-78 | after a gated turn, the gate stays shut iff the question did not ask for an interpreter; the other state fields are unchanged |
| Engine.ApplyGuardrails | pt_patient_chat/engine.py:48-62 | the deflection is returned iff some disallowed pattern matches the lowercased question, and nothing otherwise |
| Engine.DeflectionLacksDiagnosis | pt_patient_chat/engine.py:59-60 | the lowercased deflection does not contain the word "diagnosis" |
| Engine.ImagingRuleIgnoresMriAndCt | pt_patient_chat/engine.py:53-57 | the imaging rule fires iff "imaging" or "x-ray"/"xray" occurs as a word; the upper-case MRI and CT alternatives never match |
| Engine.Intercept | pt_patient_chat/engine.py:68-84 | the gate is tried first and then the guardrail; the result is the gated or deflected turn, or nothing when neither fires |
| Engine.PatientReply | pt_patient_chat/engine.py:65-152 | a missing identity is a KeyError; a firing gate yields only the interpreter reply, the gated state and the tag interpreter_needed; otherwise a disallowed question yields the deflection, the tag guardrails_invoked and the unchanged state; otherwise the composer's KeyError or composed turn; the extra state keys are always kept and set flags stay set |
| Engine.ComposeReply | pt_patient_chat/engine.py:86-152 | a missing persona section the asked topics need is a KeyError; otherwise the reply is the asked topics' sentences joined by spaces in canonical order with their tags, or the chief-complaint or next-question fallback |
| Engine.AnswerSlots | pt_patient_chat/engine.py:93-140 | a missing context (work asked) or sdoh (transport asked) section is a KeyError; otherwise the sentences and tags of the asked topics in canonical order |
| Engine.AnswerHistory | pt_patient_chat/engine.py:93-125 | the sentences and tags for onset through goals, in order, for the topics asked |
| Engine.AnswerSocial | pt_patient_chat/engine.py:126-140 | extends the history answers with work, transport and exam, giving the answers over the whole canonical order |
| Engine.AnswerIfAsked | pt_patient_chat/engine.py:93-140 | one link of the chain adds the topic's sentence and tag exactly when the topic was asked |
| Engine.ListedTests | pt_patient_chat/engine.py:137-138 | the exam sentence lists the first special tests, at most three, and exactly three when the script has that many |
| Engine.ReplyShape | pt_patient_chat/engine.py:93-140 | one sentence and one tag per answered topic, the k-th of each belonging to the k-th answered topic |
| Engine.ReplyStep | pt_patient_chat/engine.py:93-140 | appending a topic to the order adds its sentence and tag iff it was asked |
| Engine.AnsweredMembers | pt_patient_chat/engine.py:93-140 | a topic is answered iff it is in the order and was asked |
| Engine.AnsweredRanked | pt_patient_chat/engine.py:93-140 | answers follow the order's ranks, so none repeats |
| Engine.ComposeOrderRanked | pt_patient_chat/engine.py:93-140 | the canonical order runs onset, mechanism, location, severity, aggravators, easers, pattern, red_flags, goals, work, transport, exam, and holds every topic that has a sentence |
| Engine.ComposerTagsDistinct | pt_patient_chat/engine.py:93-140 | a composed turn never repeats a tag |
| Engine.ComposerTagsAreRubricKeys | pt_patient_chat/engine.py:95-140 | every composer tag is a rubric key, and every rubric key is some topic's tag |
| Engine.ComposerAnswersAsked | pt_patient_chat/engine.py:93-140 | a topic is answered, its sentence is among the reply's sentences and its tag is in the tags, each iff it was asked |
| Engine.SentenceInjective | pt_patient_chat/engine.py:93-140 | different topics are answered with different sentences, since each template opens differently |
| Engine.ComposerFallsBackIffNothingAsked | pt_patient_chat/engine.py:142-149 | no sentence is composed iff every detected slot is summary |
| Engine.ChiefComplaintSharedOnce | pt_patient_chat/engine.py:142-149 | once the chief complaint has been shared, a composed turn neither changes the state nor tags shared_cc |
| Engine.SeverityRatingReported | pt_patient_chat/engine.py:103-106 | when severity is asked, the reply contains the persona's pain rating |
| EngineLlm.PatientReplyLlm | pt_patient_chat/engine_llm.py:27-65 | a missing identity is a KeyError; the gate and the guardrail give exactly the rule engine's turns; otherwise the turn built from the generator's reply to the prompt messages of the incoming state |
| EngineLlm.ModelReply | pt_patient_chat/engine_llm.py:50-65 | the generation path asks the given client, or the echo client, for a completion of the prompt messages and builds the model turn from it |
| EngineLlm.ModelTurnSpec | pt_patient_chat/engine_llm.py:54-63 | guardrails_invoked is tagged iff the output check fires; each slot's raw name is tagged iff it was asked; an unflagged reply is returned unchanged; shared_cc becomes true and nothing else changes |
| EngineLlm.SoftenedIsFlagged | pt_patient_chat/engine_llm.py:61-62 | the softened reply contains a word beginning "diagnos", so it fails the check it replaces |
| EngineLlm.ModelTurnEarnsNoPoints | pt_patient_chat/engine_llm.py:55-63 | the tags of a generated turn earn no rubric points |
| EngineLlm.NotAskedOrScreened | pt_patient_chat/engine_llm.py:55-56 | no raw slot name or LLM-path tag begins with asked_ or screened_ |
| EngineLlm.EchoRepeatsQuestion | pt_patient_chat/engine_llm.py:50-52 | without a client, the generated reply is "(echo) " followed by the question, since the question is the last user message of the prompt |
| EngineLlm.StreamPatientReplyLlm | pt_patient_chat/engine_llm.py:68-104 | a missing identity is a KeyError; otherwise the stream is well formed (tokens, then exactly one final meta); the gate and the guardrail give one token with the rule engine's reply, state and tags; otherwise the generator's chunks unchanged, then meta with the raw slot names and shared_cc set |
| EngineLlm.ModelEvents | pt_patient_chat/engine_llm.py:95-104 | the generation path's events: one token per chunk of the client's stream of the prompt messages, then the meta event |
| EngineLlm.StreamTokens | pt_patient_chat/engine_llm.py:97-98 | one token event per chunk, carrying the chunk unchanged, in order |
| EngineLlm.ModelStreamWellFormed | pt_patient_chat/engine_llm.py:95-104 | the generation stream is well formed and begins with the chunks' tokens |
| EngineLlm.StreamTextOfTokens | pt_patient_chat/engine_llm.py:97-98 | the text of the token events is the concatenation of the chunks |
| EngineLlm.StreamAgreesWithTurn | pt_patient_chat/engine_llm.py:52-104 | for chunks that spell the completion, the stream carries the completion and the same final state; its text and tags equal the plain turn's iff the output check does not fire |
| EngineLlm.AzureStreamAgreesWithTurn | pt_patient_chat/engine_llm.py:52-104 | with the fallback stream, streamed text is the plain completion, and agrees with the plain turn iff the output check does not fire |
| PromptBuilder.BuildMessages | pt_patient_chat/prompt_builder.py:47-64 | four messages: the system prompt, "PERSONA CONTEXT:\n" and the summary, "SESSION STATE HINT:\n" and the hint, then the question verbatim as the user message; the state is only read |
| PromptBuilder.SummarizePersonaForContext | pt_patient_chat/prompt_builder.py:18-45 | returns the persona summary: its lines joined by newlines |
| PromptBuilder.SummaryShape | pt_patient_chat/prompt_builder.py:26-45 | the summary has the 11 fixed lines, an AROM line iff AROM findings exist, a special-tests line iff special tests exist, and the neurovascular line last |
| PromptBuilder.FixedLines | pt_patient_chat/prompt_builder.py:27-39 | eleven fixed lines head the summary |
| PromptBuilder.SummaryListsSpecialTests | pt_patient_chat/prompt_builder.py:42-43 | every special test of the exam script appears in the summary as "name: finding" |
| PromptBuilder.HintText | pt_patient_chat/prompt_builder.py:51-61 | the hint is the phase sentence, followed by a space and the interpreter sentence iff an interpreter is present |
| PromptBuilder.HintPhase | pt_patient_chat/prompt_builder.py:52-55 | the hint opens "Phase: intake" iff the chief complaint has not been shared |
| PromptBuilder.HintInterpreter | pt_patient_chat/prompt_builder.py:56-57 | the hint contains the interpreter sentence iff an interpreter is present |
| PromptBuilder.PhaseHintsLackInterpreter | pt_patient_chat/prompt_builder.py:53-57 | neither phase sentence contains the interpreter sentence |
| Rubric.ScoreFromTags | pt_patient_chat/rubric.py:19-34 | the score is the total weight of the items whose key is among the tags; the maximum is 11.0; percent is 100 times score over maximum; one report line per item in order |
| Rubric.MaxTotalOfRubric | pt_patient_chat/rubric.py:4-28 | the weights are non-negative and add up to 11.0 |
| Rubric.DetailsSpec | pt_patient_chat/rubric.py:23-27 | one report line per item, in order, with its key, whether it was hit, the points earned (the weight if hit, else 0) and the weight as maximum |
| Rubric.TotalBounds | pt_patient_chat/rubric.py:21-28 | with non-negative weights, the score lies between 0 and the maximum |
| Rubric.TotalMonotone | pt_patient_chat/rubric.py:20-26 | more tags never lower the score |
| Rubric.TotalIgnoresForeignTags | pt_patient_chat/rubric.py:23-24 | tags that are no item's key do not change the score |
| Rubric.TotalDependsOnKeys | pt_patient_chat/rubric.py:20-26 | two tag sets that agree on the items' keys score alike, so duplicates and order are irrelevant |
| Rubric.NoRubricTagsScoreZero | pt_patient_chat/rubric.py:20-26 | a session without rubric tags scores 0 |
| Rubric.AllKeysScoreMax | pt_patient_chat/rubric.py:20-28 | a session holding every key scores the maximum |
| Rubric.ScoreReportBounds | pt_patient_chat/rubric.py:19-34 | the score lies in [0, 11] and the percent in [0, 100]; no rubric tags give 0 and all keys give 100 |
| LlmAdapters.LastUserIndex | pt_patient_chat/llm_adapters.py:19 | finds the last message whose role is user, or none when there is no such message |
| LlmAdapters.EchoGenerateSpec | pt_patient_chat/llm_adapters.py:18-20 | the echo is "(echo) " followed by the last user message's content, or "(echo) " alone without one |
| LlmAdapters.EchoIgnoresNonUserMessages | pt_patient_chat/llm_adapters.py:18-20 | the echo ignores the temperature and every non-user message |
| LlmAdapters.WordsOfSpaced | pt_patient_chat/llm_adapters.py:15-16 | splitting the concatenated chunks gives back the words |
| LlmAdapters.EchoStreamSpec | pt_patient_chat/llm_adapters.py:12-20 | the echo stream is never empty, its first chunk is "(echo) ", and its text splits into the same words as the echo |
| LlmAdapters.NonEmptyDeltas | pt_patient_chat/llm_adapters.py:76-82 | every forwarded delta is non-empty, and there are no more of them than events |
| LlmAdapters.NonEmptyDeltasMembers | pt_patient_chat/llm_adapters.py:76-82 | a chunk is forwarded iff it is a non-empty delta of some event |
| LlmAdapters.NonEmptyDeltasText | pt_patient_chat/llm_adapters.py:76-82 | the forwarded text is all delta text, in arrival order |
| LlmAdapters.NonEmptyDeltasKeepsAll | pt_patient_chat/llm_adapters.py:76-82 | when every event carries a non-empty delta, all of them are forwarded in order |
| LlmAdapters.StreamCarriesCompletion | pt_patient_chat/llm_adapters.py:12-71 | the Azure fallback stream is one chunk equal to the completion; the echo stream splits into the completion's words |
| AppSimple.BuildChatMessages | pt_patient_chat/app_simple.py:261-285 | the system prompt of the current settings first, the history unchanged and in order, the behaviour reminder iff the history has at least four messages, the user message last; length history+2 or history+3 |
| AppSimple.LayOutMessages | pt_patient_chat/app_simple.py:265-285 | lays out system message, history, optional reminder and user message at the positions above |
| AppSimple.CooperationTextSpec | pt_patient_chat/app_simple.py:186-190 | the cooperative text iff cooperation is "willing", the resistant text for any other value |
| AppSimple.PainTextSpec | pt_patient_chat/app_simple.py:192-198 | the stoic text iff "stoic", the normal text iff "normal", the dramatic text for any other value |
| AppSimple.TalkTextSpec | pt_patient_chat/app_simple.py:200-204 | the verbose text iff talkativeness is "verbose", the normal text for any other value |
| AppSimple.WithCustomSpec | pt_patient_chat/app_simple.py:249-252 | the prompt is kept as a prefix; the additional-instructions block is appended iff the custom text is non-empty, and then it is exactly the prefix and the custom text |
| AppSimple.CurrentSettingsByDefault | pt_patient_chat/app_simple.py:163-164 | without explicit settings, the current settings are used |
| AppSimple.MissingPersonaGeneric | pt_patient_chat/app_simple.py:155-258 | the generic patient prompt is produced iff no persona is loaded |
| AppSimple.SectionCarriesBehavior | pt_patient_chat/app_simple.py:186-247 | the behaviour section contains the selected pain, cooperation and talkativeness texts |
| AppSimple.PromptContainsSection | pt_patient_chat/app_simple.py:207-247 | the persona prompt contains the behaviour section |
| AppSimple.PromptCarriesBehavior | pt_patient_chat/app_simple.py:163-252 | the system prompt of a loaded persona carries the instruction text of each setting in force, with or without custom instructions |
| AppSimple.ReminderNamesSettings | pt_patient_chat/app_simple.py:274-280 | the reminder names the cooperation, pain-expression and talkativeness settings |

## Left out

- Persona loading (`load_persona` in `engine.py`, `engine_llm.py` and `app_simple.py`) is file I/O, JSON parsing and caching. The persona is passed in as a value. In `AppSimple` a persona that failed to load is `None`, which yields the generic prompt.
- The FastAPI routes, SSE wrapping, CORS, static files, the manifest CSV, the CLI loop, logging and environment-variable client selection are not part of this model.
- The OpenAI and Azure network calls and client construction are not modelled. A remote client is given by what its service answers: a completion function and, for OpenAI, the deltas of the streamed events. The monkey-patch that attaches streaming to the OpenAI client is taken as done: its stream is the delta filter over those events.
- The process-wide `current_behavior` setting and `set_behavior` are passed as an explicit parameter rather than held as global mutable state.
- The generators are modelled as the finite sequence of events they yield. Laziness, and a consumer that stops early, are not captured.
- `Text.Lower` lowercases ASCII letters only, and `\b` treats ASCII letters, digits and `_` as word characters. Python's Unicode case mapping and word classes are not modelled.
- A persona field whose JSON value is `null` and a field that is absent are both `None`. So `hpi.get("severity_nrs", 5)` is modelled as 5 for both, whereas Python renders an explicit `null` as `None`.
- List fields behave the same way. An explicit `null` for `aggravators` or `easers` makes `", ".join(...)` raise `TypeError` in `engine.py:108`, `engine.py:111`, `prompt_builder.py:37` and `app_simple.py:181-182`. An explicit `null` for `goals` does the same at `engine.py:124`. The model uses the default list instead. This affects `Engine.ComposeReply`, `Engine.PatientReply`, `PromptBuilder.SummarizePersonaForContext` and `AppSimple.SystemPrompt`.
- Whole persona sections set to JSON `null` are modelled as absent sections. The persona loaders (`engine.py:10-15`, `app_simple.py:132-152`) do not validate, so the source treats them differently:
  - **`identity: null` in the simple app.** `app_simple.py:167` binds `None`, and `identity.get(...)` at line 173 raises `AttributeError`. The exception handler (lines 256-258) then returns the generic prompt. `AppSimple.SystemPrompt` builds the patient prompt with the name "Patient" instead.
  - **`hpi: null` or `exam_script: null` in the rule engine.** `engine.py:88-89` binds `None` without raising. When no topic is asked, `engine.py:142-149` returns the chief complaint or the follow-up prompt. When a topic that reads the section is asked, `.get` raises `AttributeError`. `Engine.ComposeReply` and `Engine.PatientReply` report `KeyError` for the section in every case.
  - **`context: null` (or another `null` section) on the LLM path.** `prompt_builder.py:21` binds `None`, and line 33 raises `AttributeError` out of `patient_reply_llm`. `PromptBuilder.SummarizePersonaForContext` and `EngineLlm.PatientReplyLlm` use the empty section instead.
- AppSimple.MissingPersonaGeneric: holds only for personas without `null` lists or `null` sections. In `app_simple.py` the resulting exception is caught (lines 256-258), and the generic prompt is returned although a persona is loaded.
- Python truthiness is modelled only where the code tests it: optional strings, lists and flags. Non-boolean values in `interpreter_needed` or the state flags are not modelled.
- Ages and other persona numbers are carried as their rendered text. Only the severity rating is an integer.
- Rubric.ScoreFromTags: does not model the `round(...)` of score, maximum and percent, because that is float formatting; the model keeps exact real values.
- A client's completion is always a string. The OpenAI and Azure clients return `resp.choices[0].message.content` unchecked (`llm_adapters.py:42`, `:65`), and the Azure fallback stream yields it as its one chunk (`:71`). When the service returns no content, that value is `None`, and `reply.lower()` at `engine_llm.py:61` raises. The model does not capture that failure.
- The unused `tone` variable in `patient_reply` has no counterpart.
- Pydantic's stripping of whitespace in request fields happens in the routes, which are not modelled.
