/** The behaviour-driven chat set-up of the simplified web app: a system
    prompt assembled from the persona and three behaviour settings
    (cooperation, pain expression, talkativeness) plus optional custom
    instructions, and the message list sent to the model each turn. */
module AppSimple {
  import opened Text
  import opened Domain

  /** The behaviour settings; a fresh record holds the defaults. */
  datatype BehaviorSettings = BehaviorSettings(
    cooperation: string,
    painExpression: string,
    talkativeness: string,
    customInstructions: string)

  const DEFAULT_BEHAVIOR := BehaviorSettings("willing", "normal", "normal", "")

  // ---------------------------------------------------------------------
  // Behaviour instructions

  // Long texts are written as pieces of at most 30 characters: the verifier
  // handles a sum of short literals far more cheaply than one long literal.
  const WILLING_TEXT: string :=
    "Be cooperative and willing " + "to follow instructions. Say " + "'Yes', 'Of course', 'I'll " +
    "try that.' Be generally " + "agreeable but don't let " + "this override your core " +
    "pain expression personality."

  const RESISTANT_TEXT: string :=
    "Be somewhat uncooperative " + "and hesitant about " + "instructions. Sometimes " +
    "refuse or question things. " + "Say 'I'm not sure about " + "that', 'Do I have to?', " +
    "'That might not work for " + "me.' But don't let this " + "override your core pain " +
    "expression personality."

  const STOIC_TEXT: string :=
    "ABSOLUTELY CRITICAL: BE " + "EXTREMELY STOIC ABOUT PAIN " + "AT ALL TIMES! This is your " +
    "fundamental personality " + "trait - nothing overrides " + "this. Show ZERO emotional " +
    "reaction to pain " + "whatsoever. Accept pain as " + "part of life without any " +
    "complaint. Always say " + "things like 'I'm managing', " + "'It's bearable', 'I don't " +
    "dwell on it', 'These things " + "happen', 'It could be " + "worse'. ALWAYS rate pain " +
    "significantly lower than it " + "actually feels (if it's " + "8/10, say 4-5/10). Never " +
    "ask for pain medication or " + "help with pain. Show " + "complete emotional " +
    "detachment and " + "philosophical acceptance. " + "Maintain perfect composure " +
    "even during extremely " + "painful procedures. Your " + "stoicism OVERRIDES " +
    "cooperation - even if asked " + "to be cooperative, remain " + "stoically understated about " +
    "pain."

  const NORMAL_PAIN_TEXT: string :=
    "Express pain appropriately " + "and realistically. Give " + "honest pain ratings, " +
    "describe discomfort " + "accurately, show reasonable " + "reactions to painful " +
    "movements."

  const DRAMATIC_TEXT: string :=
    "BE VERY DRAMATIC ABOUT " + "PAIN! Exaggerate and " + "overstate everything. Say " +
    "'This is excruciating!', 'I " + "can't take it!', 'The pain " + "is unbearable!' Show " +
    "visible distress even with " + "minor discomfort."

  const VERBOSE_TEXT: string :=
    "GIVE VERY LONG, DETAILED " + "RESPONSES! Share lots of " + "extra information, tell " +
    "stories, ramble about " + "related topics. Use 4-6 " + "sentences minimum."

  const NORMAL_TALK_TEXT: string :=
    "Give normal-length " + "responses with appropriate " + "detail. Use 2-3 sentences " +
    "typically."

  /** The prompt used when the persona cannot be loaded. */
  const GENERIC_PROMPT: string :=
    "You are a patient speaking " + "with a healthcare provider. " + "Be helpful and natural in " +
    "your responses while " + "staying in character."

  const ADDITIONAL_PREFIX := "\n\nADDITIONAL INSTRUCTIONS: "

  /** "willing" selects the cooperative text; anything else the resistant
      one. */
  function CooperationText(cooperation: string): string
  {
    if cooperation == "willing" then WILLING_TEXT else RESISTANT_TEXT
  }

  /** "stoic" and "normal" select their texts; anything else the dramatic
      one. */
  function PainText(painExpression: string): string
  {
    if painExpression == "stoic" then STOIC_TEXT
    else if painExpression == "normal" then NORMAL_PAIN_TEXT
    else DRAMATIC_TEXT
  }

  /** "verbose" selects the verbose text; anything else the normal one. */
  function TalkText(talkativeness: string): string
  {
    if talkativeness == "verbose" then VERBOSE_TEXT else NORMAL_TALK_TEXT
  }

  // ---------------------------------------------------------------------
  // System prompt

  /** The rendered pain rating: the number, or "" when missing. */
  function SeverityField(hpi: Hpi): string
  {
    match hpi.severityNrs
    case Some(n) => IntToString(n)
    case None => ""
  }

  /** The patient details and history, with the app's defaults for
      missing fields, as the parts of the formatted text. */
  function DetailsSection(p: Persona): string
  {
    var idn := p.identity.GetOr(NO_IDENTITY);
    var hpi := p.hpi.GetOr(NO_HPI);
    var name := idn.preferredName.GetOr("Patient");
    var age := idn.age.GetOr("");
    var pronouns := idn.pronouns.GetOr("they/them");
    var condition := p.condition.GetOr("Unknown condition");
    var complaint := p.chiefComplaint.GetOr("");
    var onset := hpi.onset.GetOr("");
    var mechanism := hpi.mechanism.GetOr("");
    var severity := SeverityField(hpi);
    var aggravators := Join(", ", hpi.aggravators.GetOr([]));
    var easers := Join(", ", hpi.easers.GetOr([]));
    var pattern := hpi.pattern24h.GetOr("");
    Concat([
      "You are role-playing as a " + "patient named ", name,
      ". Stay completely in " + "character throughout the " + "conversation.\n\nPATIENT " +
      "DETAILS:\n- Name: ", name,
      " (pronouns: ", pronouns,
      ")\n- Age: ", age,
      "\n- Condition: ", condition,
      "\n- Chief complaint: ", complaint,
      "\n\nMEDICAL HISTORY:\n" + "- Onset: ", onset,
      "\n- How it happened: ", mechanism,
      "\n- Pain level: ", severity,
      "/10\n- What makes it worse: ", aggravators,
      "\n- What helps: ", easers,
      "\n- Daily pattern: ", pattern,
      "\n\n"])
  }

  /** The pieces of the behaviour section: the three settings, each with
      its instruction text. */
  function BehaviorSectionParts(b: BehaviorSettings): seq<string>
  {
    [
      "CRITICAL BEHAVIOR PRIORITY " + "- YOUR PRIMARY " + "CHARACTERISTIC:\n\n*** PAIN " +
      "EXPRESSION (", b.painExpression,
      ") - THIS IS YOUR CORE " + "PERSONALITY *** \n", PainText(b.painExpression),
      "\n\nSECONDARY BEHAVIORAL " + "TRAITS:\n\nCOOPERATION (", b.cooperation,
      "): ", CooperationText(b.cooperation),
      "\n\nTALKATIVENESS (", b.talkativeness,
      "): ", TalkText(b.talkativeness),
      "\n\n"]
  }

  /** The three behaviour settings, each with its instruction text. */
  function BehaviorSection(b: BehaviorSettings): string
  {
    Concat(BehaviorSectionParts(b))
  }

  /** The example answers, up to the pain rating in the third one. */
  const EXAMPLES_LEAD: string :=
    "EXAMPLE RESPONSES:\n- \"How " + "are you feeling?\":\n  * " + "WILLING + STOIC + CONCISE: " +
    "\"Fine.\"\n  * RESISTANT + " + "DRAMATIC + VERBOSE: " + "\"Terrible! This is the " +
    "worst pain I've ever " + "experienced in my entire " + "life! I don't want to talk " +
    "about it and nothing you " + "suggest is going to help " + "because I've tried " +
    "absolutely everything!\"\n  * " + "HESITANT + NORMAL + NORMAL: " +
    "\"Well, I'm not sure... The " + "pain is about a "

  /** The rest of the third example answer and the closing rules. */
  const EXAMPLES_TAIL: string :=
    "/10 and it's been bothering " +
    "me quite a bit.\"\n\nCRITICAL " + "RULES:\n1. COOPERATION " + "controls how willing you " +
    "are to engage and follow " + "suggestions\n2. PAIN " + "EXPRESSION controls how you " +
    "communicate and react to " + "pain (stoic=minimize, " + "dramatic=exaggerate)\n3. " +
    "TALKATIVENESS controls " + "response length " + "(verbose=long, " + "concise=short, " +
    "normal=moderate)\n4. These " + "behaviors MUST be obvious " + "in every response\n5. Never " +
    "break character or mention " + "this is a simulation\n\n" +
    "Respond as this patient " + "would, following your " + "behavior profile EXACTLY."

  /** The example answers and the closing rules. */
  function ExamplesSection(severity: string): string
  {
    Concat([EXAMPLES_LEAD, severity, EXAMPLES_TAIL])
  }

  /** The prompt for a loaded persona, before any custom instructions. */
  function PatientPrompt(p: Persona, b: BehaviorSettings): string
  {
    DetailsSection(p) + BehaviorSection(b) + ExamplesSection(SeverityField(p.hpi.GetOr(NO_HPI)))
  }

  /** build_system_prompt: the generic prompt when the persona is missing;
      otherwise the patient prompt for the given settings, or the current
      ones when none are given, followed by the custom instructions when
      there are any. */
  function SystemPrompt(persona: Option<Persona>, behavior: Option<BehaviorSettings>, current: BehaviorSettings): string
  {
    match persona
    case None => GENERIC_PROMPT
    case Some(p) =>
      var b := behavior.GetOr(current);
      WithCustom(PatientPrompt(p, b), b.customInstructions)
  }

  /** The custom instructions, under their heading, appended when there
      are any. */
  function WithCustom(prompt: string, custom: string): string
  {
    prompt + (if custom != "" then ADDITIONAL_PREFIX + custom else "")
  }

  // ---------------------------------------------------------------------
  // Message list

  /** The pieces of the reminder. */
  function ReminderParts(b: BehaviorSettings): seq<string>
  {
    [
      "[BEHAVIOR REMINDER: Stay " + "consistent with your " + "character - \n",
      "Cooperation: " + b.cooperation, ", \n",
      "Pain Expression: " + b.painExpression, ", \n",
      "Talkativeness: " + b.talkativeness, "]"]
  }

  /** The reminder added once the conversation is long enough. */
  function BehaviorReminder(b: BehaviorSettings): string
  {
    Concat(ReminderParts(b))
  }

  /** build_chat_messages, with the current settings as a parameter: the
      system prompt, the history, the reminder once the history holds four
      messages, and the learner's message. */
  method BuildChatMessages(persona: Option<Persona>, userMessage: string, history: seq<Message>,
                           current: BehaviorSettings)
    returns (messages: seq<Message>)
    ensures |messages| == |history| + (if |history| >= 4 then 3 else 2)
    ensures messages[0] == Message("system", SystemPrompt(persona, Some(current), current))
    ensures messages[1..|history| + 1] == history
    ensures |history| >= 4 ==> messages[|history| + 1] == Message("system", BehaviorReminder(current))
    ensures messages[|messages| - 1] == Message("user", userMessage)
  {
    var system := Message("system", SystemPrompt(persona, Some(current), current));
    var reminder := Message("system", BehaviorReminder(current));
    messages := LayOutMessages(system, history, reminder, userMessage);
  }

  /** The layout of the message list around a given system message and
      reminder. */
  method LayOutMessages(system: Message, history: seq<Message>, reminder: Message, userMessage: string)
    returns (messages: seq<Message>)
    ensures |messages| == |history| + (if |history| >= 4 then 3 else 2)
    ensures messages[0] == system
    ensures messages[1..|history| + 1] == history
    ensures |history| >= 4 ==> messages[|history| + 1] == reminder
    ensures messages[|messages| - 1] == Message("user", userMessage)
  {
    messages := [system];
    for i := 0 to |history|
      invariant |messages| == i + 1
      invariant messages[0] == system
      invariant messages[1..] == history[..i]
    {
      messages := messages + [history[i]];
    }
    assert messages[1..] == history;
    ghost var withHistory := messages;
    if |history| >= 4 {
      messages := messages + [reminder];
    }
    messages := messages + [Message("user", userMessage)];
    assert messages[..|history| + 1] == withHistory;
    assert messages[1..|history| + 1] == withHistory[1..];
  }

  // ---------------------------------------------------------------------
  // Properties

  /** The cooperative text is chosen exactly for "willing", the resistant
      one for every other value. */
  lemma CooperationTextSpec(cooperation: string)
    ensures CooperationText(cooperation) == WILLING_TEXT <==> cooperation == "willing"
    ensures CooperationText(cooperation) == RESISTANT_TEXT <==> cooperation != "willing"
  {
    assert |WILLING_TEXT| != |RESISTANT_TEXT|;
  }

  /** The stoic and normal texts are chosen exactly for "stoic" and
      "normal", the dramatic one for every other value. */
  lemma PainTextSpec(painExpression: string)
    ensures PainText(painExpression) == STOIC_TEXT <==> painExpression == "stoic"
    ensures PainText(painExpression) == NORMAL_PAIN_TEXT <==> painExpression == "normal"
    ensures PainText(painExpression) == DRAMATIC_TEXT <==> painExpression != "stoic" && painExpression != "normal"
  {
    PainTextsDistinct();
  }

  lemma PainTextsDistinct()
    ensures STOIC_TEXT != NORMAL_PAIN_TEXT && STOIC_TEXT != DRAMATIC_TEXT && NORMAL_PAIN_TEXT != DRAMATIC_TEXT
  {
    assert |STOIC_TEXT| != |NORMAL_PAIN_TEXT| && |STOIC_TEXT| != |DRAMATIC_TEXT|;
    assert |NORMAL_PAIN_TEXT| != |DRAMATIC_TEXT|;
  }

  /** The verbose text is chosen exactly for "verbose", the normal one for
      every other value. */
  lemma TalkTextSpec(talkativeness: string)
    ensures TalkText(talkativeness) == VERBOSE_TEXT <==> talkativeness == "verbose"
    ensures TalkText(talkativeness) == NORMAL_TALK_TEXT <==> talkativeness != "verbose"
  {
    assert |VERBOSE_TEXT| != |NORMAL_TALK_TEXT|;
  }

  /** The prompt keeps the text it extends, and gains the custom
      instructions under their heading exactly when there are any. */
  lemma WithCustomSpec(prompt: string, custom: string)
    ensures StartsWith(WithCustom(prompt, custom), prompt)
    ensures custom == "" <==> WithCustom(prompt, custom) == prompt
    ensures custom != "" ==> WithCustom(prompt, custom)[|prompt|..] == ADDITIONAL_PREFIX + custom
  {
    if custom == "" {
      assert WithCustom(prompt, custom) == prompt + "";
    } else {
      assert |WithCustom(prompt, custom)| > |prompt|;
    }
  }

  /** Without settings the current ones apply. */
  lemma CurrentSettingsByDefault(persona: Option<Persona>, current: BehaviorSettings)
    ensures SystemPrompt(persona, None, current) == SystemPrompt(persona, Some(current), current)
  {
  }

  /** The generic prompt is shorter than the closing rules alone. */
  lemma GenericPromptShort()
    ensures |GENERIC_PROMPT| < |EXAMPLES_TAIL|
  {
  }

  /** A prompt for a loaded persona is at least as long as its closing
      rules. */
  lemma PatientPromptLong(p: Persona, b: BehaviorSettings)
    ensures |EXAMPLES_TAIL| <= |PatientPrompt(p, b)|
  {
    var severity := SeverityField(p.hpi.GetOr(NO_HPI));
    ConcatContains([EXAMPLES_LEAD, severity, EXAMPLES_TAIL], 2);
    ContainsLength(ExamplesSection(severity), EXAMPLES_TAIL);
  }

  /** A prompt for a loaded persona is longer than the generic one. */
  lemma PatientPromptLonger(p: Persona, behavior: Option<BehaviorSettings>, current: BehaviorSettings)
    ensures |SystemPrompt(Some(p), behavior, current)| > |GENERIC_PROMPT|
  {
    var b := behavior.GetOr(current);
    PatientPromptLong(p, b);
    GenericPromptShort();
    WithCustomSpec(PatientPrompt(p, b), b.customInstructions);
  }

  /** Without a persona the prompt is the generic one, whatever the
      settings; with one it never is. */
  lemma MissingPersonaGeneric(persona: Option<Persona>, behavior: Option<BehaviorSettings>, current: BehaviorSettings)
    ensures SystemPrompt(persona, behavior, current) == GENERIC_PROMPT <==> persona == None
  {
    if persona.Some? {
      PatientPromptLonger(persona.value, behavior, current);
    }
  }

  /** The behaviour section carries the instruction text of each of the
      three settings. */
  lemma SectionCarriesBehavior(b: BehaviorSettings)
    ensures Contains(BehaviorSection(b), PainText(b.painExpression))
    ensures Contains(BehaviorSection(b), CooperationText(b.cooperation))
    ensures Contains(BehaviorSection(b), TalkText(b.talkativeness))
  {
    var parts := BehaviorSectionParts(b);
    ConcatContains(parts, 3);
    ConcatContains(parts, 7);
    ConcatContains(parts, 11);
  }

  /** The prompt for a loaded persona carries the instruction text of each
      of the three settings in force. */
  lemma PromptCarriesBehavior(p: Persona, behavior: Option<BehaviorSettings>, current: BehaviorSettings)
    ensures var b := behavior.GetOr(current);
            var prompt := SystemPrompt(Some(p), behavior, current);
            Contains(prompt, PainText(b.painExpression)) &&
            Contains(prompt, CooperationText(b.cooperation)) &&
            Contains(prompt, TalkText(b.talkativeness))
  {
    var b := behavior.GetOr(current);
    var prompt := SystemPrompt(Some(p), behavior, current);
    var section := BehaviorSection(b);
    WithCustomSpec(PatientPrompt(p, b), b.customInstructions);
    PromptContainsSection(p, b);
    ContainsInPrefix(prompt, PatientPrompt(p, b), section);
    SectionCarriesBehavior(b);
    ContainsTrans(prompt, section, PainText(b.painExpression));
    ContainsTrans(prompt, section, CooperationText(b.cooperation));
    ContainsTrans(prompt, section, TalkText(b.talkativeness));
  }

  /** The behaviour section sits between the details and the examples. */
  lemma PromptContainsSection(p: Persona, b: BehaviorSettings)
    ensures Contains(PatientPrompt(p, b), BehaviorSection(b))
  {
    ContainsMiddle(DetailsSection(p), BehaviorSection(b), ExamplesSection(SeverityField(p.hpi.GetOr(NO_HPI))));
  }

  /** The reminder names the three current settings. */
  lemma ReminderNamesSettings(b: BehaviorSettings)
    ensures Contains(BehaviorReminder(b), "Cooperation: " + b.cooperation)
    ensures Contains(BehaviorReminder(b), "Pain Expression: " + b.painExpression)
    ensures Contains(BehaviorReminder(b), "Talkativeness: " + b.talkativeness)
  {
    var parts := ReminderParts(b);
    ConcatContains(parts, 1);
    ConcatContains(parts, 3);
    ConcatContains(parts, 5);
  }
}
