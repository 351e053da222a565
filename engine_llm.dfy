/** The LLM-backed patient engine: the rule-based engine's interpreter gate
    and input guardrail, then a chat completion in place of the templated
    composer, a soft output check, and the same slot detection for tags.
    A streaming variant yields the completion chunk by chunk and then one
    final record with the new state and the tags. */
module EngineLlm {
  import opened Text
  import opened Regex
  import opened Domain
  import opened Engine
  import opened PromptBuilder
  import opened LlmAdapters
  import opened Rubric

  /** The temperature both entry points ask for. */
  const TEMPERATURE: real := 0.2

  /** The reply that replaces a completion using diagnosis or prescription
      language. */
  const SOFTENED: string :=
    "I'm not sure about the exact " + "diagnosis or prescriptions" +
    "\U{2014}I'm mainly describing " + "what I feel day to day."

  /** The output check: the lowercased completion has a word starting with
      "diagnos" or "prescrib". */
  predicate Flagged(reply: string)
  {
    Search(Stem("diagnos"), Lower(reply)) || Search(Stem("prescrib"), Lower(reply))
  }

  /** detect_slots returns the slots' keys; this engine tags a turn with
      them as they are. */
  function SlotNames(slots: seq<Slot>): (names: seq<string>)
    ensures |names| == |slots|
    ensures forall k | 0 <= k < |slots| :: names[k] == SlotName(slots[k])
  {
    seq(|slots|, k requires 0 <= k < |slots| => SlotName(slots[k]))
  }

  /** The completion for a question: the messages go to the given client,
      or to the Echo client when none is given. */
  function Completion(persona: Persona, userText: string, state: State, llm: Option<Client>): string
  {
    Generate(llm.GetOr(Echo), Messages(persona, userText, state), TEMPERATURE)
  }

  /** The turn built from a completion: the completion itself unless the
      output check flags it, the chief complaint marked as shared, and the
      asked slots' keys, plus "guardrails_invoked" when the check fired. */
  function ModelTurn(raw: string, userText: string, state: State): Turn
  {
    var flagged := Flagged(raw);
    Turn(if flagged then SOFTENED else raw,
         state.(sharedCc := true),
         SlotNames(Asked(userText)) + (if flagged then ["guardrails_invoked"] else []))
  }

  /** patient_reply_llm */
  method PatientReplyLlm(userText: string, persona: Persona, state: State, llm: Option<Client>)
    returns (out: Outcome<Turn>)
    ensures persona.identity.None? ==> out == KeyError("identity")
    ensures persona.identity.Some? ==> out.Ok?
    // the gate and the guardrail answer as in the rule-based engine
    ensures persona.identity.Some? && GateFires(persona.identity.value, state) ==>
              out == Ok(Turn(GatedReply(persona.identity.value, userText),
                             GatedState(state, userText), ["interpreter_needed"]))
    ensures persona.identity.Some? && !GateFires(persona.identity.value, state) && Disallowed(userText) ==>
              out == Ok(Turn(DEFLECTION, state, ["guardrails_invoked"]))
    // otherwise the model answers
    ensures persona.identity.Some? && !GateFires(persona.identity.value, state) && !Disallowed(userText) ==>
              out == Ok(ModelTurn(Completion(persona, userText, state, llm), userText, state))
  {
    if persona.identity.None? {
      return KeyError("identity");
    }
    var early := Intercept(userText, persona.identity.value, state);
    if early.Some? {
      return Ok(early.value);
    }

    var turn := ModelReply(userText, persona, state, llm);
    return Ok(turn);
  }

  /** The model part of patient_reply_llm: build the messages, ask the
      client, tag the asked slots, mark the chief complaint as shared and
      soften a flagged completion. */
  method ModelReply(userText: string, persona: Persona, state: State, llm: Option<Client>)
    returns (turn: Turn)
    ensures turn == ModelTurn(Completion(persona, userText, state, llm), userText, state)
  {
    var messages := BuildMessages(persona, userText, state);
    var client := llm.GetOr(Echo);
    var reply := Generate(client, messages, TEMPERATURE);
    var asked := DetectSlots(userText);
    var tags := SlotNames(asked);
    var state' := state.(sharedCc := true);
    if Flagged(reply) {
      reply := SOFTENED;
      tags := tags + ["guardrails_invoked"];
    }
    return Turn(reply, state', tags);
  }

  // ---------------------------------------------------------------------
  // Streaming

  /** What the stream yields: a piece of the reply, or the final record
      with the new state and the tags. */
  datatype Event = Token(text: string) | Meta(state: State, tags: seq<string>)

  /** One token event per chunk, in order. */
  function Tokens(chunks: seq<string>): (events: seq<Event>)
    ensures |events| == |chunks|
    ensures forall k | 0 <= k < |chunks| :: events[k] == Token(chunks[k])
  {
    seq(|chunks|, k requires 0 <= k < |chunks| => Token(chunks[k]))
  }

  /** A finished stream: tokens, then exactly one final record. */
  predicate WellFormedStream(events: seq<Event>)
  {
    |events| >= 1 && events[|events| - 1].Meta? &&
    forall k | 0 <= k < |events| - 1 :: events[k].Token?
  }

  /** The text a reader of the stream sees. */
  function StreamText(events: seq<Event>): string
  {
    if events == [] then ""
    else (if events[0].Token? then events[0].text else "") + StreamText(events[1..])
  }

  /** The events of a turn the model answers: the chunks, then the state
      with the chief complaint marked as shared and the asked slots' keys. */
  function ModelStream(chunks: seq<string>, userText: string, state: State): seq<Event>
  {
    Tokens(chunks) + [Meta(state.(sharedCc := true), SlotNames(Asked(userText)))]
  }

  /** stream_patient_reply_llm, with the generator's events collected in
      order. */
  method StreamPatientReplyLlm(userText: string, persona: Persona, state: State, llm: Option<Client>)
    returns (out: Outcome<seq<Event>>)
    ensures persona.identity.None? ==> out == KeyError("identity")
    ensures persona.identity.Some? ==> out.Ok? && WellFormedStream(out.value)
    ensures persona.identity.Some? && GateFires(persona.identity.value, state) ==>
              out == Ok([Token(GatedReply(persona.identity.value, userText)),
                         Meta(GatedState(state, userText), ["interpreter_needed"])])
    ensures persona.identity.Some? && !GateFires(persona.identity.value, state) && Disallowed(userText) ==>
              out == Ok([Token(DEFLECTION), Meta(state, ["guardrails_invoked"])])
    ensures persona.identity.Some? && !GateFires(persona.identity.value, state) && !Disallowed(userText) ==>
              out == Ok(ModelStream(GenerateStream(llm.GetOr(Echo), Messages(persona, userText, state), TEMPERATURE),
                                    userText, state))
  {
    if persona.identity.None? {
      return KeyError("identity");
    }
    var early := Intercept(userText, persona.identity.value, state);
    if early.Some? {
      var t := early.value;
      return Ok([Token(t.reply), Meta(t.state, t.tags)]);
    }

    var events := ModelEvents(userText, persona, state, llm);
    ModelStreamWellFormed(GenerateStream(llm.GetOr(Echo), Messages(persona, userText, state), TEMPERATURE),
                          userText, state);
    return Ok(events);
  }

  /** The model part of stream_patient_reply_llm: a token per chunk the
      client streams, then the final record. */
  method ModelEvents(userText: string, persona: Persona, state: State, llm: Option<Client>)
    returns (events: seq<Event>)
    ensures events == ModelStream(GenerateStream(llm.GetOr(Echo), Messages(persona, userText, state), TEMPERATURE),
                                  userText, state)
  {
    var messages := BuildMessages(persona, userText, state);
    var client := llm.GetOr(Echo);
    var chunks := GenerateStream(client, messages, TEMPERATURE);
    events := StreamTokens(chunks);
    var asked := DetectSlots(userText);
    events := events + [Meta(state.(sharedCc := true), SlotNames(asked))];
  }

  /** The generator loop: one token event per chunk, in order. */
  method StreamTokens(chunks: seq<string>) returns (events: seq<Event>)
    ensures events == Tokens(chunks)
  {
    events := [];
    for i := 0 to |chunks|
      invariant events == Tokens(chunks[..i])
    {
      events := events + [Token(chunks[i])];
    }
    assert chunks[..|chunks|] == chunks;
  }

  /** A model turn's stream is well formed: its tokens, then one final
      record. */
  lemma ModelStreamWellFormed(chunks: seq<string>, userText: string, state: State)
    ensures WellFormedStream(ModelStream(chunks, userText, state))
    ensures ModelStream(chunks, userText, state)[..|chunks|] == Tokens(chunks)
  {
    var events := ModelStream(chunks, userText, state);
    assert events[..|chunks|] == Tokens(chunks);
  }

  // ---------------------------------------------------------------------
  // Properties

  /** No slot key is "guardrails_invoked", and different slots have
      different keys. */
  lemma SlotNameInjective(s: Slot, u: Slot)
    ensures SlotName(s) != "guardrails_invoked"
    ensures SlotName(s) == SlotName(u) ==> s == u
  {
  }

  /** What a model turn reports: "guardrails_invoked" iff the output check
      fired, the key of a slot iff the slot was asked, a reply that passes
      the check unless it is the softened one, and a state that differs
      from the old one only in marking the chief complaint as shared. */
  lemma ModelTurnSpec(raw: string, userText: string, state: State)
    ensures var t := ModelTurn(raw, userText, state);
            ("guardrails_invoked" in t.tags <==> Flagged(raw)) &&
            (forall s: Slot :: SlotName(s) in t.tags <==> s in Asked(userText)) &&
            (!Flagged(t.reply) || t.reply == SOFTENED) &&
            (!Flagged(raw) ==> t.reply == raw) &&
            t.state == state.(sharedCc := true)
  {
    var t := ModelTurn(raw, userText, state);
    var names := SlotNames(Asked(userText));
    forall s: Slot ensures SlotName(s) in t.tags <==> s in Asked(userText) {
      if SlotName(s) in t.tags {
        SlotNameInjective(s, s);
        var k :| 0 <= k < |names| && names[k] == SlotName(s);
        SlotNameInjective(s, Asked(userText)[k]);
      }
      if s in Asked(userText) {
        var k :| 0 <= k < |Asked(userText)| && Asked(userText)[k] == s;
        assert t.tags[k] == SlotName(s);
      }
    }
    if "guardrails_invoked" in names {
      var k :| 0 <= k < |names| && names[k] == "guardrails_invoked";
      SlotNameInjective(Asked(userText)[k], Asked(userText)[k]);
    }
  }

  /** The softened reply itself mentions a diagnosis, so the output check
      would flag it too: the check's guarantee is "passes the check or is
      the softened reply", not "passes the check". */
  lemma SoftenedIsFlagged()
    ensures Flagged(SOFTENED)
  {
    var head := "I'm not sure about the exact ";
    var tail := "is or prescriptions" + "\U{2014}I'm mainly describing " + "what I feel day to day.";
    assert SOFTENED == head + "diagnos" + tail;
    StemAfter(head, "diagnos", tail);
  }

  /** None of the LLM engine's tags is a rubric key: a session run on this
      engine scores 0, whatever was asked. */
  lemma ModelTurnEarnsNoPoints(raw: string, userText: string, state: State)
    ensures Total(RUBRIC_ITEMS, TagSet(ModelTurn(raw, userText, state).tags)) == 0.0
  {
    var tags := ModelTurn(raw, userText, state).tags;
    var names := SlotNames(Asked(userText));
    forall x | x in TagSet(tags) * Keys(RUBRIC_ITEMS) ensures false {
      KeyPrefix(x);
      if x != "guardrails_invoked" {
        var k :| 0 <= k < |names| && names[k] == x;
        assert x == SlotName(Asked(userText)[k]);
      }
      NotAskedOrScreened(x);
    }
    NoRubricTagsScoreZero(RUBRIC_ITEMS, TagSet(tags));
  }

  /** No tag of this engine looks like a rubric key. */
  lemma NotAskedOrScreened(w: string)
    requires w == "guardrails_invoked" || exists s: Slot :: w == SlotName(s)
    ensures !StartsWith(w, "asked_") && !StartsWith(w, "screened_")
  {
    assert |w| >= 2 && w[1] != 's' && w[1] != 'c';
  }

  /** With no client given, the reply is the question echoed back: the
      learner's question is the last user message sent. */
  lemma EchoRepeatsQuestion(persona: Persona, userText: string, state: State)
    ensures Completion(persona, userText, state, None) == "(echo) " + userText
  {
  }

  /** The text of a model stream is its chunks run together. */
  lemma {:induction false} StreamTextOfTokens(chunks: seq<string>, last: Event)
    requires last.Meta?
    ensures StreamText(Tokens(chunks) + [last]) == Concat(chunks)
  {
    if chunks == [] {
      assert Tokens(chunks) + [last] == [last];
    } else {
      assert (Tokens(chunks) + [last])[1..] == Tokens(chunks[1..]) + [last];
      StreamTextOfTokens(chunks[1..], last);
    }
  }

  /** The stream and the plain turn agree when the chunks spell the
      completion: same text and final state; the same tags and text iff the
      output check does not fire, since the stream never applies it. */
  lemma StreamAgreesWithTurn(chunks: seq<string>, raw: string, userText: string, state: State)
    requires Concat(chunks) == raw
    ensures var ev := ModelStream(chunks, userText, state);
            var t := ModelTurn(raw, userText, state);
            WellFormedStream(ev) &&
            StreamText(ev) == raw &&
            ev[|ev| - 1].state == t.state &&
            (!Flagged(raw) <==> StreamText(ev) == t.reply && ev[|ev| - 1].tags == t.tags)
  {
    var ev := ModelStream(chunks, userText, state);
    StreamTextOfTokens(chunks, ev[|ev| - 1]);
    var t := ModelTurn(raw, userText, state);
    if Flagged(raw) {
      assert |t.tags| == |ev[|ev| - 1].tags| + 1;
    }
  }

  /** On the Azure client, whose stream is its completion as one chunk,
      the two entry points agree as above. */
  lemma AzureStreamAgreesWithTurn(complete: (seq<Message>, real) -> string, persona: Persona,
                                  userText: string, state: State)
    ensures var llm := Some(Azure(complete));
            var raw := Completion(persona, userText, state, llm);
            var ev := ModelStream(GenerateStream(Azure(complete), Messages(persona, userText, state), TEMPERATURE),
                                  userText, state);
            StreamText(ev) == raw &&
            (!Flagged(raw) <==> StreamText(ev) == ModelTurn(raw, userText, state).reply &&
                                ev[|ev| - 1].tags == ModelTurn(raw, userText, state).tags)
  {
    var messages := Messages(persona, userText, state);
    StreamCarriesCompletion(Azure(complete), messages, TEMPERATURE);
    StreamAgreesWithTurn(GenerateStream(Azure(complete), messages, TEMPERATURE),
                         Completion(persona, userText, state, Some(Azure(complete))), userText, state);
  }
}
