/** The rule-based patient engine: slot classification, the interpreter
    gate, the input guardrail and the templated reply composer. */
module Engine {
  import opened Text
  import opened Regex
  import opened Domain
  import opened Rubric

  // ---------------------------------------------------------------------
  // Slot classifier

  /** The clinical-interview topics, in the order of the SLOTS table. */
  datatype Slot =
    | Onset | Mechanism | Location | Severity | Aggravators | Easers | Pattern
    | RedFlags | Goals | Work | Transport | Summary | Exam

  /** The slot's key in the SLOTS table. */
  function SlotName(s: Slot): string
  {
    match s
    case Onset => "onset"
    case Mechanism => "mechanism"
    case Location => "location"
    case Severity => "severity"
    case Aggravators => "aggravators"
    case Easers => "easers"
    case Pattern => "pattern"
    case RedFlags => "red_flags"
    case Goals => "goals"
    case Work => "work"
    case Transport => "transport"
    case Summary => "summary"
    case Exam => "exam"
  }

  /** The slot's row in the SLOTS table. */
  function Rank(s: Slot): nat
  {
    match s
    case Onset => 0
    case Mechanism => 1
    case Location => 2
    case Severity => 3
    case Aggravators => 4
    case Easers => 5
    case Pattern => 6
    case RedFlags => 7
    case Goals => 8
    case Work => 9
    case Transport => 10
    case Summary => 11
    case Exam => 12
  }

  /** `\bstem(a|b)\b` */
  function Suffixed(stem: string, a: string, b: string): Regex
  {
    Cat4(Boundary, Str(stem), Alt(Str(a), Str(b)), Boundary)
  }

  /** `(0|1|2|3|4|5|6|7|8|9|10)` */
  const NRS_NUMBER: Regex :=
    Alt(Str("0"), Alt(Str("1"), Alt(Str("2"), Alt(Str("3"), Alt(Str("4"), Alt(Str("5"),
    Alt(Str("6"), Alt(Str("7"), Alt(Str("8"), Alt(Str("9"), Str("10")))))))))))

  /** `\b(0|...|10)\b.*\bpain\b`: a rating followed by the word pain. */
  const NRS_PAIN: Regex := Cat4(Boundary, NRS_NUMBER, Boundary, Cat(DotStar, Word("pain")))

  const MECHANISM_PATTERNS: seq<Regex> := [
    Suffixed("how happen", "ed", ""),
    Word("mechanism"),
    Word("what were you doing"),
    Suffixed("injur", "ed", "y")]

  const SEVERITY_PATTERNS: seq<Regex> := [
    Suffixed("sever", "ity", "e"),
    NRS_PAIN,
    Word("pain scale")]

  /** The slot table: each topic with its patterns, tried in order. */
  const SLOTS: seq<(Slot, seq<Regex>)> := [
    (Onset, [Word("onset"),
             Suffixed("start", "ed", ""),
             Word("when did"),
             Word("since")]),
    (Mechanism, MECHANISM_PATTERNS),
    (Location, [Word("where"),
                Word("location"),
                Suffixed("exactly hurt", "s", "")]),
    (Severity, SEVERITY_PATTERNS),
    (Aggravators, [Cat4(Boundary, Str("what makes"), DotStar, Cat(Str("worse"), Boundary)),
                   Word("worse with"),
                   Stem("aggravat")]),
    (Easers, [Word("what helps"),
              Word("better with"),
              Stem("reliev")]),
    (Pattern, [Cat4(Boundary, Str("24"), Opt(Dot), Cat(Str("hour"), Boundary)),
               Word("morning"),
               Word("at night"),
               Word("pattern")]),
    (RedFlags, [Stem("red flag"),
                Alt(Stem("numb"), Str("tingl")),
                Word("saddle"),
                Word("fever"),
                Word("unexplained"),
                Word("weight loss")]),
    (Goals, [Stem("goal"),
             Word("what do you want to get back to"),
             Word("return to")]),
    (Work, [Word("work"),
            Word("job"),
            Word("duty"),
            Stem("restriction")]),
    (Transport, [Word("transport"),
                 Word("drive"),
                 Suffixed("ride", "s", ""),
                 Word("get here")]),
    (Summary, [Suffixed("summar", "y", "ize"),
               Word("recap"),
               Word("let me make sure")]),
    (Exam, [Word("test"),
            Word("exam"),
            Word("palpate"),
            Word("range"),
            Word("arom"),
            Word("order"),
            Cat4(Boundary, Str("do"), DotStar,
                 Alt(Str("drawer"), Alt(Str("tilt"), Alt(Str("hawkins"), Alt(Str("neer"), Str("patell"))))))])
  ]

  /** Some pattern of the list is found in the text. */
  predicate AnyMatch(patterns: seq<Regex>, text: string)
  {
    exists k | 0 <= k < |patterns| :: Search(patterns[k], text)
  }

  /** The slots of a table whose patterns are found in the text, in table
      order. */
  function Detected(table: seq<(Slot, seq<Regex>)>, text: string): (hits: seq<Slot>)
    ensures |hits| <= |table|
  {
    if table == [] then []
    else
      var last := table[|table| - 1];
      Detected(table[..|table| - 1], text) + (if AnyMatch(last.1, text) then [last.0] else [])
  }

  /** The slots detected in a learner's question. */
  function Asked(userText: string): seq<Slot>
  {
    Detected(SLOTS, Lower(userText))
  }

  /** detect_slots: one hit per slot whose patterns match the lowercased
      text, in table order. */
  method DetectSlots(userText: string) returns (hits: seq<Slot>)
    ensures hits == Asked(userText)
  {
    var text := Lower(userText);
    hits := [];
    for i := 0 to |SLOTS|
      invariant hits == Detected(SLOTS[..i], text)
    {
      var slot := SLOTS[i].0;
      var patterns := SLOTS[i].1;
      assert SLOTS[..i + 1][..i] == SLOTS[..i];
      for j := 0 to |patterns|
        invariant hits == Detected(SLOTS[..i], text)
        invariant forall m | 0 <= m < j :: !Search(patterns[m], text)
      {
        if Search(patterns[j], text) {
          hits := hits + [slot];
          break;
        }
      }
    }
    assert SLOTS[..|SLOTS|] == SLOTS;
  }

  /** A slot is detected iff one of its rows has a pattern found in the
      text. */
  lemma {:induction false} DetectedMembers(table: seq<(Slot, seq<Regex>)>, text: string, s: Slot)
    ensures s in Detected(table, text) <==>
            exists k | 0 <= k < |table| :: table[k].0 == s && AnyMatch(table[k].1, text)
  {
    if table != [] {
      var front := table[..|table| - 1];
      var last := table[|table| - 1];
      var hits := Detected(front, text);
      assert Detected(table, text) == hits + (if AnyMatch(last.1, text) then [last.0] else []);
      DetectedMembers(front, text, s);
      if s in hits {
        var k :| 0 <= k < |front| && front[k].0 == s && AnyMatch(front[k].1, text);
        assert table[k] == front[k];
      }
      if exists k | 0 <= k < |table| :: table[k].0 == s && AnyMatch(table[k].1, text) {
        var k :| 0 <= k < |table| && table[k].0 == s && AnyMatch(table[k].1, text);
        if k < |front| {
          assert front[k] == table[k];
        } else {
          assert k == |table| - 1;
        }
      }
    }
  }

  /** Row k of SLOTS holds the slot of rank k. */
  lemma SlotsRanked()
    ensures |SLOTS| == 13
    ensures forall k | 0 <= k < |SLOTS| :: Rank(SLOTS[k].0) == k
  {
    forall k | 0 <= k < |SLOTS| ensures Rank(SLOTS[k].0) == k {
      if k == 0 {} else if k == 1 {} else if k == 2 {} else if k == 3 {}
      else if k == 4 {} else if k == 5 {} else if k == 6 {} else if k == 7 {}
      else if k == 8 {} else if k == 9 {} else if k == 10 {} else if k == 11 {}
      else {}
    }
  }

  /** Slots listed in strictly increasing table order (so none twice). */
  predicate StrictlyRanked(ss: seq<Slot>)
  {
    forall a, b | 0 <= a < b < |ss| :: Rank(ss[a]) < Rank(ss[b])
  }

  /** In a table whose row k holds the slot of rank k, the detected slots
      are strictly ranked and each ranks below the table's length. */
  lemma {:induction false} DetectedRanked(table: seq<(Slot, seq<Regex>)>, text: string)
    requires forall k | 0 <= k < |table| :: Rank(table[k].0) == k
    ensures forall k | 0 <= k < |Detected(table, text)| :: Rank(Detected(table, text)[k]) < |table|
    ensures StrictlyRanked(Detected(table, text))
  {
    if table != [] {
      var front := table[..|table| - 1];
      var last := table[|table| - 1];
      assert forall k | 0 <= k < |front| :: front[k] == table[k];
      DetectedRanked(front, text);
      assert Rank(last.0) == |front|;
      assert Detected(table, text) == Detected(front, text) + (if AnyMatch(last.1, text) then [last.0] else []);
    }
  }

  /** detect_slots returns each slot at most once, in table order, and a
      slot iff one of its patterns matches the lowercased text. */
  lemma DetectedSlotsSpec(userText: string)
    ensures StrictlyRanked(Asked(userText))
    ensures forall a, b | 0 <= a < b < |Asked(userText)| :: Asked(userText)[a] != Asked(userText)[b]
    ensures forall k | 0 <= k < |SLOTS| ::
              SLOTS[k].0 in Asked(userText) <==> AnyMatch(SLOTS[k].1, Lower(userText))
  {
    SlotsRanked();
    DetectedRanked(SLOTS, Lower(userText));
    forall k | 0 <= k < |SLOTS|
      ensures SLOTS[k].0 in Asked(userText) <==> AnyMatch(SLOTS[k].1, Lower(userText))
    {
      DetectedMembers(SLOTS, Lower(userText), SLOTS[k].0);
      if SLOTS[k].0 in Asked(userText) {
        var m :| 0 <= m < |SLOTS| && SLOTS[m].0 == SLOTS[k].0 && AnyMatch(SLOTS[m].1, Lower(userText));
        assert Rank(SLOTS[m].0) == Rank(SLOTS[k].0);
      }
    }
  }

  /** The rating pattern needs the number before the word "pain": a text
      whose head has no digit and whose tail has no p never matches it. */
  lemma NrsPainNeedsNumberFirst(head: string, tail: string)
    requires forall k | 0 <= k < |head| :: !('0' <= head[k] <= '9')
    requires Lacks(tail, 'p')
    ensures !Search(NRS_PAIN, Lower(head + tail))
  {
    assert DigitAlternatives(NRS_NUMBER);
    RatingAfterWord(NRS_NUMBER, "pain", 'p', head, tail);
  }

  /** `\bnum\b.*\bw\b` needs a digit before w: it is not found when the
      head holds no digit and the tail lacks a letter of w. */
  lemma RatingAfterWord(num: Regex, w: string, c: char, head: string, tail: string)
    requires DigitAlternatives(num) && c in w
    requires forall k | 0 <= k < |head| :: !('0' <= head[k] <= '9')
    requires Lacks(tail, c)
    ensures !Search(Cat4(Boundary, num, Boundary, Cat(DotStar, Word(w))), Lower(head + tail))
  {
    var r := Cat4(Boundary, num, Boundary, Cat(DotStar, Word(w)));
    var t := Lower(head + tail);
    LowerAppend(head, tail);
    if Search(r, t) {
      var i: nat :| i <= |t| && MatchesAt(r, t, i);
      var j :| j in Ends(r, t, i);
      var m := NumberThenWord(num, w, t, i, j);
      assert Lower(tail)[m - |head|..m - |head| + |w|] == t[m..m + |w|];
      OccurrenceHas(tail, w, c, m - |head|);
    }
  }

  /** "When did this start and how did it happen?": "how" and "happen" are
      not adjacent. */
  const HOW_QUESTION_0: string := "When d"
  const HOW_QUESTION_1: string := "id this st"
  const HOW_QUESTION_2: string := "art and how d"
  const HOW_QUESTION_3: string := "id it happen?"
  const HOW_QUESTION: string := Concat([HOW_QUESTION_0, HOW_QUESTION_1, HOW_QUESTION_2, HOW_QUESTION_3])

  lemma HowQuestionPiecesLack()
    ensures Lacks(HOW_QUESTION_0, 'o') && Lacks(HOW_QUESTION_1, 'o')
    ensures Lacks(HOW_QUESTION_2, 'p') && Lacks(HOW_QUESTION_3, 'o')
    ensures forall c | c in "myj" ::
              Lacks(HOW_QUESTION_0, c) && Lacks(HOW_QUESTION_1, c) &&
              Lacks(HOW_QUESTION_2, c) && Lacks(HOW_QUESTION_3, c)
  {
  }

  lemma HowQuestionLacks()
    ensures Lacks(HOW_QUESTION, 'm') && Lacks(HOW_QUESTION, 'y') && Lacks(HOW_QUESTION, 'j')
    ensures !Contains(Lower(HOW_QUESTION), "how happen")
  {
    var parts := [HOW_QUESTION_0, HOW_QUESTION_1, HOW_QUESTION_2, HOW_QUESTION_3];
    HowQuestionPiecesLack();
    LacksConcat(parts, 'm');
    LacksConcat(parts, 'y');
    LacksConcat(parts, 'j');
    AbsentFromParts(parts, "oopo", "how happen");
  }

  lemma HowQuestionMissesPatterns()
    ensures !AnyMatch(MECHANISM_PATTERNS, Lower(HOW_QUESTION))
  {
    var t := Lower(HOW_QUESTION);
    HowQuestionLacks();
    if Search(Suffixed("how happen", "ed", ""), t) {
      LeadingStrContained("how happen", Cat(Alt(Str("ed"), Str("")), Boundary), t);
    }
    if Search(Word("mechanism"), t) {
      LeadingStrContained("mechanism", Boundary, t);
      LacksChar(HOW_QUESTION, "mechanism", 'm');
    }
    if Search(Word("what were you doing"), t) {
      LeadingStrContained("what were you doing", Boundary, t);
      LacksChar(HOW_QUESTION, "what were you doing", 'y');
    }
    if Search(Suffixed("injur", "ed", "y"), t) {
      LeadingStrContained("injur", Cat(Alt(Str("ed"), Str("y")), Boundary), t);
      LacksChar(HOW_QUESTION, "injur", 'j');
    }
  }

  /** A question that separates "how" from "happened" is not detected as
      asking about the mechanism of injury. */
  lemma HowQuestionNotMechanism()
    ensures Mechanism !in Asked(HOW_QUESTION)
  {
    DetectedSlotsSpec(HOW_QUESTION);
    HowQuestionMissesPatterns();
    assert SLOTS[1] == (Mechanism, MECHANISM_PATTERNS);
  }

  /** "How bad is the pain, 0 to 10?": the rating comes after the word. */
  const RATING_HEAD: string := "How bad is the pain, "
  const RATING_TAIL: string := "0 to 10?"
  const PAIN_THEN_RATING: string := RATING_HEAD + RATING_TAIL

  lemma RatingPiecesLack()
    ensures forall k | 0 <= k < |RATING_HEAD| :: !('0' <= RATING_HEAD[k] <= '9')
    ensures Lacks(RATING_HEAD, 'v') && Lacks(RATING_HEAD, 'c')
    ensures Lacks(RATING_TAIL, 'v') && Lacks(RATING_TAIL, 'c') && Lacks(RATING_TAIL, 'p')
  {
  }

  lemma PainThenRatingMissesPatterns()
    ensures !AnyMatch(SEVERITY_PATTERNS, Lower(PAIN_THEN_RATING))
  {
    var t := Lower(PAIN_THEN_RATING);
    RatingPiecesLack();
    LacksConcat([RATING_HEAD, RATING_TAIL], 'v');
    LacksConcat([RATING_HEAD, RATING_TAIL], 'c');
    assert [RATING_HEAD, RATING_TAIL][1..] == [RATING_TAIL];
    assert Concat([RATING_TAIL]) == RATING_TAIL + Concat([]);
    assert Concat([RATING_HEAD, RATING_TAIL]) == PAIN_THEN_RATING;
    if Search(Suffixed("sever", "ity", "e"), t) {
      LeadingStrContained("sever", Cat(Alt(Str("ity"), Str("e")), Boundary), t);
      LacksChar(PAIN_THEN_RATING, "sever", 'v');
    }
    if Search(Word("pain scale"), t) {
      LeadingStrContained("pain scale", Boundary, t);
      LacksChar(PAIN_THEN_RATING, "pain scale", 'c');
    }
    NrsPainNeedsNumberFirst(RATING_HEAD, RATING_TAIL);
  }

  /** A severity question that gives the rating after the word "pain" is
      not detected as asking about severity. */
  lemma PainThenRatingNotSeverity()
    ensures Severity !in Asked(PAIN_THEN_RATING)
  {
    DetectedSlotsSpec(PAIN_THEN_RATING);
    PainThenRatingMissesPatterns();
    assert SLOTS[3] == (Severity, SEVERITY_PATTERNS);
  }

  // ---------------------------------------------------------------------
  // Interpreter gate

  const INTERPRETER_WORDS: Regex :=
    Alt(Str("interpreter"), Alt(Str("translate"), Str("translator")))
  const INTERPRETER_REQUEST: Regex := Cat(Boundary, Cat(INTERPRETER_WORDS, Boundary))

  /** wants_interpreter */
  predicate WantsInterpreter(userText: string)
  {
    Search(INTERPRETER_REQUEST, Lower(userText))
  }

  /** The keyword w stands as a whole word at position i of t. */
  predicate WholeWordAt(t: string, w: string, i: nat)
  {
    OccursAt(w, t, i) && AtBoundary(t, i) && AtBoundary(t, i + |w|)
  }

  predicate IsInterpreterKeyword(w: string)
  {
    w == "interpreter" || w == "translate" || w == "translator"
  }

  lemma KeywordSpelled(t: string, i: nat, m: nat) returns (w: string)
    requires i <= |t| && m in Ends(INTERPRETER_WORDS, t, i)
    ensures IsInterpreterKeyword(w) && OccursAt(w, t, i) && m == i + |w|
  {
    if m in Ends(Str("interpreter"), t, i) {
      w := "interpreter";
    } else if m in Ends(Str("translate"), t, i) {
      w := "translate";
    } else {
      w := "translator";
    }
  }

  lemma KeywordMatch(t: string, i: nat, j: nat)
    requires i <= |t| && j in Ends(INTERPRETER_REQUEST, t, i)
    ensures exists w | IsInterpreterKeyword(w) :: WholeWordAt(t, w, i)
  {
    BoundedMatch(INTERPRETER_WORDS, t, i, j);
    var w := KeywordSpelled(t, i, j);
    assert WholeWordAt(t, w, i);
  }

  lemma KeywordFound(t: string, w: string, i: nat)
    requires IsInterpreterKeyword(w) && WholeWordAt(t, w, i)
    ensures MatchesAt(INTERPRETER_REQUEST, t, i)
  {
    var j := i + |w|;
    assert j in Ends(Boundary, t, j);
    assert j in Ends(INTERPRETER_WORDS, t, i);
    assert j in Ends(Cat(INTERPRETER_WORDS, Boundary), t, i);
    assert j in Ends(INTERPRETER_REQUEST, t, i);
  }

  /** The gate clears exactly when the lowercased question holds one of
      the words interpreter, translate or translator as a whole word. */
  lemma WantsInterpreterSpec(userText: string)
    ensures WantsInterpreter(userText) <==>
            exists i: nat, w | i <= |userText| && IsInterpreterKeyword(w) :: WholeWordAt(Lower(userText), w, i)
  {
    var t := Lower(userText);
    if WantsInterpreter(userText) {
      var i: nat :| i <= |t| && MatchesAt(INTERPRETER_REQUEST, t, i);
      var j :| j in Ends(INTERPRETER_REQUEST, t, i);
      KeywordMatch(t, i, j);
    }
    if exists i: nat, w | i <= |userText| && IsInterpreterKeyword(w) :: WholeWordAt(t, w, i) {
      var i: nat, w :| i <= |userText| && IsInterpreterKeyword(w) && WholeWordAt(t, w, i);
      KeywordFound(t, w, i);
    }
  }

  /** The persona needs an interpreter: interpreter_needed and language
      are both truthy. */
  predicate InterpreterNeeded(id: Identity)
  {
    id.interpreterNeeded == Some(true) && id.language.Some? && id.language.value != ""
  }

  /** The gate is closed for this turn. */
  predicate GateFires(id: Identity, state: State)
  {
    InterpreterNeeded(id) && !state.interpreterProvided
  }

  function InterpreterAck(id: Identity): string
  {
    "Thank you. With an interpreter for " + Render(id.language) + ", I'm ready to continue. How can I help?"
  }

  function InterpreterAsk(id: Identity): string
  {
    "Before we start, I need an interpreter for " + Render(id.language) + ", please."
  }

  /** The state after a gated turn: the flag is set iff the question asks
      for an interpreter. */
  function GatedState(state: State, userText: string): State
  {
    if WantsInterpreter(userText) then state.(interpreterProvided := true) else state
  }

  /** The turn the gate produces (the rule-based and the LLM engines
      share it). */
  function GatedReply(id: Identity, userText: string): string
  {
    if WantsInterpreter(userText) then InterpreterAck(id) else InterpreterAsk(id)
  }

  /** Once the flag is set the gate never fires again, whatever the
      persona. */
  lemma GateClearedForGood(id: Identity, state: State, userText: string)
    requires GateFires(id, state)
    ensures WantsInterpreter(userText) <==> !GateFires(id, GatedState(state, userText))
    ensures GatedState(state, userText).extra == state.extra
    ensures GatedState(state, userText).sharedCc == state.sharedCc
  {
  }

  // ---------------------------------------------------------------------
  // Input guardrail

  const IMAGING_WORD: Regex := Word("imaging")
  const XRAY_WORD: Regex := Cat4(Boundary, Str("x"), Opt(Str("-")), Cat(Str("ray"), Boundary))
  const IMAGING_ASK: Regex := Alt(IMAGING_WORD, Alt(XRAY_WORD, Alt(Word("MRI"), Word("CT"))))

  /** The out-of-scope asks, tried in order. */
  const DISALLOWED_ASKS: seq<Regex> := [
    Cat4(Boundary, Str("what"), Opt(Str("'")), Cat(Str("s my diagnosis"), Boundary)),
    Suffixed("diagnos", "e", "is"),
    Word("can you prescribe"),
    Word("what medication"),
    IMAGING_ASK
  ]

  // The deflection is kept in named pieces of at most 30 characters: a long
  // literal is costly for the verifier, and the pieces let
  // DeflectionLacksDiagnosis read it piece by piece.
  const DEFLECTION_0: string := "I'm not sure about that\U{2014}"
  const DEFLECTION_1: string := "I'm just here to tell you "
  const DEFLECTION_2: string := "how it feels and what I "
  const DEFLECTION_3: string := "notice day to day. "
  const DEFLECTION_4: string := "I don't know about dia"
  const DEFLECTION_5: string := "gnoses, "
  const DEFLECTION_6: string := "imaging, "
  const DEFLECTION_7: string := "or prescriptions."
  const DEFLECTION: string :=
    Concat([DEFLECTION_0, DEFLECTION_1, DEFLECTION_2, DEFLECTION_3,
            DEFLECTION_4, DEFLECTION_5, DEFLECTION_6, DEFLECTION_7])

  /** Some disallowed ask is found in the lowercased question. */
  predicate Disallowed(userText: string)
  {
    AnyMatch(DISALLOWED_ASKS, Lower(userText))
  }

  /** apply_guardrails: the fixed deflection iff a disallowed ask is
      found. */
  method ApplyGuardrails(userText: string) returns (r: Option<string>)
    ensures r == (if Disallowed(userText) then Some(DEFLECTION) else None)
  {
    var txt := Lower(userText);
    for i := 0 to |DISALLOWED_ASKS|
      invariant forall m | 0 <= m < i :: !Search(DISALLOWED_ASKS[m], txt)
    {
      if Search(DISALLOWED_ASKS[i], txt) {
        return Some(DEFLECTION);
      }
    }
    return None;
  }

  lemma DeflectionPiecesLack()
    ensures Lacks(DEFLECTION_0, 'g') && Lacks(DEFLECTION_1, 'g') && Lacks(DEFLECTION_2, 'g')
    ensures Lacks(DEFLECTION_3, 'g') && Lacks(DEFLECTION_4, 'g') && Lacks(DEFLECTION_5, 'i')
    ensures Lacks(DEFLECTION_6, 's') && Lacks(DEFLECTION_7, 'g')
  {
  }

  /** The deflection speaks of "diagnoses" but never contains the word
      "diagnosis", in any case. */
  lemma DeflectionLacksDiagnosis()
    ensures !Contains(Lower(DEFLECTION), "diagnosis")
  {
    var w := "gnosis";
    DeflectionPiecesLack();
    AbsentFromParts([DEFLECTION_0, DEFLECTION_1, DEFLECTION_2, DEFLECTION_3,
                     DEFLECTION_4, DEFLECTION_5, DEFLECTION_6, DEFLECTION_7], "gggggisg", w);
    if Contains(Lower(DEFLECTION), "diagnosis") {
      assert OccursAt(w, "diagnosis", 3);
      ContainsTrans(Lower(DEFLECTION), "diagnosis", w);
    }
  }

  /** The imaging rule's MRI and CT alternatives are upper-case and the
      question is lowercased first, so only "imaging" and "x-ray"/"xray"
      make the rule fire. */
  lemma ImagingRuleIgnoresMriAndCt(userText: string)
    ensures Search(IMAGING_ASK, Lower(userText)) <==>
            Search(IMAGING_WORD, Lower(userText)) || Search(XRAY_WORD, Lower(userText))
  {
    var t := Lower(userText);
    SearchAlt(IMAGING_WORD, Alt(XRAY_WORD, Alt(Word("MRI"), Word("CT"))), t);
    SearchAlt(XRAY_WORD, Alt(Word("MRI"), Word("CT")), t);
    SearchAlt(Word("MRI"), Word("CT"), t);
    UpperWordNeverMatches("MRI", userText);
    UpperWordNeverMatches("CT", userText);
  }

  /** The turn the gate or the guardrail answers with, if either does:
      both engines check these first, in this order. */
  function Intercepted(id: Identity, state: State, userText: string): Option<Turn>
  {
    if GateFires(id, state) then
      Some(Turn(GatedReply(id, userText), GatedState(state, userText), ["interpreter_needed"]))
    else if Disallowed(userText) then
      Some(Turn(DEFLECTION, state, ["guardrails_invoked"]))
    else
      None
  }

  /** The interpreter gate, then the guardrail. */
  method Intercept(userText: string, identity: Identity, state: State) returns (r: Option<Turn>)
    ensures r == Intercepted(identity, state, userText)
  {
    if InterpreterNeeded(identity) && !state.interpreterProvided {
      if WantsInterpreter(userText) {
        return Some(Turn(InterpreterAck(identity), state.(interpreterProvided := true), ["interpreter_needed"]));
      } else {
        return Some(Turn(InterpreterAsk(identity), state, ["interpreter_needed"]));
      }
    }
    var deflection := ApplyGuardrails(userText);
    if deflection.Some? {
      return Some(Turn(deflection.value, state, ["guardrails_invoked"]));
    }
    return None;
  }

  // ---------------------------------------------------------------------
  // Reply composer

  /** The order of the composer's `if` chain. */
  const COMPOSE_ORDER: seq<Topic> :=
    [Onset, Mechanism, Location, Severity, Aggravators, Easers, Pattern, RedFlags, Goals, Work, Transport, Exam]

  /** The slots the composer answers: all but the summary request. */
  type Topic = s: Slot | s != Summary witness Onset

  /** The rubric tag each answered slot adds. */
  function Tag(s: Topic): string
  {
    match s
    case Onset => "asked_onset"
    case Mechanism => "asked_mechanism"
    case Location => "asked_location"
    case Severity => "asked_severity"
    case Aggravators => "asked_aggravators"
    case Easers => "asked_easers"
    case Pattern => "asked_24h_pattern"
    case RedFlags => "screened_red_flags"
    case Goals => "asked_goals"
    case Work => "asked_work_status"
    case Transport => "asked_sdoH_transport"
    case Exam => "asked_exam"
  }

  function SeverityText(hpi: Hpi): string
  {
    match hpi.severityNrs
    case None => "5"
    case Some(n) => IntToString(n)
  }

  /** The first three special tests, as the exam sentence lists them. */
  function ListedTests(exam: ExamScript): (tests: seq<(string, string)>)
    ensures |tests| <= 3 && |tests| <= |exam.specialTests| && tests == exam.specialTests[..|tests|]
    ensures |exam.specialTests| >= 3 ==> |tests| == 3
  {
    if |exam.specialTests| <= 3 then exam.specialTests else exam.specialTests[..3]
  }

  function SpecialTestsText(exam: ExamScript): string
  {
    if exam.specialTests != [] then Join("; ", Entries(ListedTests(exam)))
    else "no special test findings reported"
  }

  /** The templated sentence for an answered slot, with its fallbacks. */
  function Sentence(p: Persona, s: Topic): string
  {
    var hpi := p.hpi.GetOr(NO_HPI);
    var exam := p.examScript.GetOr(NO_EXAM);
    match s
    case Onset => "It started " + Render(hpi.onset) + "."
    case Mechanism => "It happened " + OrElse(hpi.mechanism, "while being active") + "."
    case Location => "The pain is mostly in the " + OrElse(hpi.location, "same area I described.")
    case Severity => "On a 0\U{2013}10 scale it's about a " + SeverityText(hpi) + " right now."
    case Aggravators => "It gets worse with " + Join(", ", hpi.aggravators.GetOr(["activity"])) + "."
    case Easers => "It feels better with " + Join(", ", hpi.easers.GetOr(["rest"])) + "."
    case Pattern => "Over 24 hours: " + Render(hpi.pattern24h)
    case RedFlags =>
      if hpi.redFlags != [] then "I have noticed: " + Join(", ", hpi.redFlags)
      else "I haven't noticed anything " + "scary\U{2014}no numbness, " + "no tingling, no fever, " + "nothing like that."
    case Goals => "My goals are: " + Join("; ", p.goals)
    case Work => "For work, I'm currently " + OrElse(p.context.GetOr(NO_CONTEXT).workStatus, "no restrictions") + "."
    case Transport => "Getting to visits: my transportation is " + OrElse(p.sdoh.GetOr(NO_SDOH).transport, "reliable") + "."
    case Exam => "From the exam: " + Render(exam.observation) + ". Special tests: " + SpecialTestsText(exam) + "."
  }

  /** The first and fourth characters of each topic's sentence; no two
      topics share them. */
  function Mark(s: Topic): (char, char)
  {
    match s
    case Onset => ('I', 's')         // "It started "
    case Mechanism => ('I', 'h')     // "It happened "
    case Location => ('T', ' ')      // "The pain "
    case Severity => ('O', 'a')      // "On a "
    case Aggravators => ('I', 'g')   // "It gets "
    case Easers => ('I', 'f')        // "It feels "
    case Pattern => ('O', 'r')       // "Over "
    case RedFlags => ('I', 'a')      // "I have " / "I haven't "
    case Goals => ('M', 'g')         // "My goals "
    case Work => ('F', ' ')          // "For "
    case Transport => ('G', 't')     // "Getting "
    case Exam => ('F', 'm')          // "From "
  }

  /** The topic a mark belongs to. */
  function MarkTopic(m: (char, char)): Option<Topic>
  {
    if m == ('I', 's') then Some(Onset)
    else if m == ('I', 'h') then Some(Mechanism)
    else if m == ('T', ' ') then Some(Location)
    else if m == ('O', 'a') then Some(Severity)
    else if m == ('I', 'g') then Some(Aggravators)
    else if m == ('I', 'f') then Some(Easers)
    else if m == ('O', 'r') then Some(Pattern)
    else if m == ('I', 'a') then Some(RedFlags)
    else if m == ('M', 'g') then Some(Goals)
    else if m == ('F', ' ') then Some(Work)
    else if m == ('G', 't') then Some(Transport)
    else if m == ('F', 'm') then Some(Exam)
    else None
  }

  lemma MarksDistinct(s: Topic)
    ensures MarkTopic(Mark(s)) == Some(s)
  {
  }

  /** The sentence carries its topic's mark. */
  predicate Marked(x: string, s: Topic)
  {
    |x| >= 4 && (x[0], x[3]) == Mark(s)
  }

  lemma HistoryMarked(p: Persona, s: Topic)
    requires s == Onset || s == Mechanism || s == Location || s == Severity
    ensures Marked(Sentence(p, s), s)
  {
  }

  lemma ModifierMarked(p: Persona, s: Topic)
    requires s == Aggravators || s == Easers || s == Pattern || s == RedFlags
    ensures Marked(Sentence(p, s), s)
  {
  }

  lemma ContextMarked(p: Persona, s: Topic)
    requires s == Goals || s == Work
    ensures Marked(Sentence(p, s), s)
  {
  }

  lemma TransportMarked(p: Persona)
    ensures Marked(Sentence(p, Transport), Transport)
  {
  }

  lemma ExamMarked(p: Persona)
    ensures Marked(Sentence(p, Exam), Exam)
  {
    var exam := p.examScript.GetOr(NO_EXAM);
    var head := "From the exam: " + Render(exam.observation);
    assert Sentence(p, Exam) == head + ". Special tests: " + SpecialTestsText(exam) + ".";
    assert Sentence(p, Exam)[0] == head[0] && Sentence(p, Exam)[3] == head[3];
  }

  lemma SentenceMarked(p: Persona, s: Topic)
    ensures Marked(Sentence(p, s), s)
  {
    if s == Onset || s == Mechanism || s == Location || s == Severity {
      HistoryMarked(p, s);
    } else if s == Aggravators || s == Easers || s == Pattern || s == RedFlags {
      ModifierMarked(p, s);
    } else if s == Goals || s == Work {
      ContextMarked(p, s);
    } else if s == Transport {
      TransportMarked(p);
    } else {
      ExamMarked(p);
    }
  }

  /** Different topics are answered with different sentences. */
  lemma SentenceInjective(p: Persona, s: Topic, u: Topic)
    requires s != u
    ensures Sentence(p, s) != Sentence(p, u)
  {
    SentenceMarked(p, s);
    SentenceMarked(p, u);
    MarksDistinct(s);
    MarksDistinct(u);
  }

  /** The slots of the order that were asked, in the order's order. */
  function Answered(asked: seq<Slot>, order: seq<Topic>): seq<Topic>
  {
    if order == [] then []
    else
      var last := order[|order| - 1];
      Answered(asked, order[..|order| - 1]) + (if last in asked then [last] else [])
  }

  /** The sentences the composer emits. */
  function ReplyParts(p: Persona, asked: seq<Slot>, order: seq<Topic>): seq<string>
  {
    if order == [] then []
    else
      var last := order[|order| - 1];
      ReplyParts(p, asked, order[..|order| - 1]) + (if last in asked then [Sentence(p, last)] else [])
  }

  /** The tags the composer emits. */
  function ReplyTags(asked: seq<Slot>, order: seq<Topic>): seq<string>
  {
    if order == [] then []
    else
      var last := order[|order| - 1];
      ReplyTags(asked, order[..|order| - 1]) + (if last in asked then [Tag(last)] else [])
  }

  /** The composer emits, for each answered slot in order, its sentence and
      its tag. */
  lemma {:induction false} ReplyShape(p: Persona, asked: seq<Slot>, order: seq<Topic>)
    ensures |ReplyParts(p, asked, order)| == |Answered(asked, order)|
    ensures |ReplyTags(asked, order)| == |Answered(asked, order)|
    ensures forall k | 0 <= k < |Answered(asked, order)| ::
              ReplyParts(p, asked, order)[k] == Sentence(p, Answered(asked, order)[k]) &&
              ReplyTags(asked, order)[k] == Tag(Answered(asked, order)[k])
  {
    if order != [] {
      ReplyShape(p, asked, order[..|order| - 1]);
    }
  }

  /** One more link of the composer's chain. */
  lemma ReplyStep(p: Persona, asked: seq<Slot>, done: seq<Topic>, s: Topic)
    ensures ReplyParts(p, asked, done + [s]) ==
            ReplyParts(p, asked, done) + (if s in asked then [Sentence(p, s)] else [])
    ensures ReplyTags(asked, done + [s]) == ReplyTags(asked, done) + (if s in asked then [Tag(s)] else [])
  {
    assert (done + [s])[..|done|] == done;
  }

  /** The first section the engine indexes that the persona lacks. */
  function MissingSection(p: Persona, asked: seq<Slot>): Option<string>
  {
    if p.communicationProfile.None? then Some("communication_profile")
    else if p.hpi.None? then Some("hpi")
    else if p.examScript.None? then Some("exam_script")
    else if Work in asked && p.context.None? then Some("context")
    else if Transport in asked && p.sdoh.None? then Some("sdoh")
    else None
  }

  const CC_FALLBACK := "I've been having some pain " + "that I'd like help with."
  const NEXT_QUESTION :=
    "What would you like to know " + "next? You can ask about when " + "it started, how it happened, " +
    "what makes it worse or better."

  function ChiefComplaint(p: Persona): string
  {
    OrElse(p.chiefComplaint, CC_FALLBACK)
  }

  /** The turn the composer produces for a question that passed the gate
      and the guardrail. */
  predicate ComposedTurn(p: Persona, asked: seq<Slot>, state: State, t: Turn)
  {
    var parts := ReplyParts(p, asked, COMPOSE_ORDER);
    if parts != [] then
      t == Turn(Join(" ", parts), state, ReplyTags(asked, COMPOSE_ORDER))
    else if !state.sharedCc then
      t == Turn(ChiefComplaint(p), state.(sharedCc := true), ["shared_cc"])
    else
      t == Turn(NEXT_QUESTION, state, [])
  }

  /** patient_reply */
  method PatientReply(userText: string, persona: Persona, state: State) returns (out: Outcome<Turn>)
    ensures persona.identity.None? ==> out == KeyError("identity")
    ensures out.Ok? ==> out.value.state.extra == state.extra
    ensures out.Ok? ==> (state.interpreterProvided ==> out.value.state.interpreterProvided)
    ensures out.Ok? ==> (state.sharedCc ==> out.value.state.sharedCc)
    // the gate comes first and does nothing else
    ensures persona.identity.Some? && GateFires(persona.identity.value, state) ==>
              out == Ok(Turn(GatedReply(persona.identity.value, userText),
                             GatedState(state, userText), ["interpreter_needed"]))
    // then the guardrail
    ensures persona.identity.Some? && !GateFires(persona.identity.value, state) && Disallowed(userText) ==>
              out == Ok(Turn(DEFLECTION, state, ["guardrails_invoked"]))
    // then the composer
    ensures persona.identity.Some? && !GateFires(persona.identity.value, state) && !Disallowed(userText) ==>
              match MissingSection(persona, Asked(userText))
              case Some(key) => out == KeyError(key)
              case None => out.Ok? && ComposedTurn(persona, Asked(userText), state, out.value)
  {
    if persona.identity.None? {
      return KeyError("identity");
    }
    var early := Intercept(userText, persona.identity.value, state);
    if early.Some? {
      return Ok(early.value);
    }

    var asked := DetectSlots(userText);
    out := ComposeReply(persona, asked, state);
  }

  /** One link of the composer's `if` chain: the slot's sentence and tag
      are appended iff the slot was asked. */
  method AnswerIfAsked(persona: Persona, asked: seq<Slot>, k: nat, parts: seq<string>, tags: seq<string>)
    returns (parts': seq<string>, tags': seq<string>)
    requires k < |COMPOSE_ORDER|
    requires parts == ReplyParts(persona, asked, COMPOSE_ORDER[..k])
    requires tags == ReplyTags(asked, COMPOSE_ORDER[..k])
    ensures parts' == ReplyParts(persona, asked, COMPOSE_ORDER[..k + 1])
    ensures tags' == ReplyTags(asked, COMPOSE_ORDER[..k + 1])
  {
    var s := COMPOSE_ORDER[k];
    assert COMPOSE_ORDER[..k + 1] == COMPOSE_ORDER[..k] + [s];
    ReplyStep(persona, asked, COMPOSE_ORDER[..k], s);
    parts', tags' := parts, tags;
    if s in asked {
      parts' := parts' + [Sentence(persona, s)];
      tags' := tags' + [Tag(s)];
    }
  }

  /** The first nine links of the chain, which read only the history of
      present illness and the goals. */
  method AnswerHistory(persona: Persona, asked: seq<Slot>) returns (parts: seq<string>, tags: seq<string>)
    ensures parts == ReplyParts(persona, asked, COMPOSE_ORDER[..9])
    ensures tags == ReplyTags(asked, COMPOSE_ORDER[..9])
  {
    parts, tags := [], [];
    assert COMPOSE_ORDER[..0] == [];
    parts, tags := AnswerIfAsked(persona, asked, 0, parts, tags);
    parts, tags := AnswerIfAsked(persona, asked, 1, parts, tags);
    parts, tags := AnswerIfAsked(persona, asked, 2, parts, tags);
    parts, tags := AnswerIfAsked(persona, asked, 3, parts, tags);
    parts, tags := AnswerIfAsked(persona, asked, 4, parts, tags);
    parts, tags := AnswerIfAsked(persona, asked, 5, parts, tags);
    parts, tags := AnswerIfAsked(persona, asked, 6, parts, tags);
    parts, tags := AnswerIfAsked(persona, asked, 7, parts, tags);
    parts, tags := AnswerIfAsked(persona, asked, 8, parts, tags);
  }

  /** The slot chain of the composer: the sentences and tags of the asked
      slots, or the KeyError of the work and transport sections, which the
      chain indexes only when those slots are asked.  A KeyError discards
      the sentences gathered before it, so the two lookups are made first,
      in the chain's order. */
  method AnswerSlots(persona: Persona, asked: seq<Slot>) returns (r: Outcome<(seq<string>, seq<string>)>)
    ensures Work in asked && persona.context.None? ==> r == KeyError("context")
    ensures !(Work in asked && persona.context.None?) && Transport in asked && persona.sdoh.None? ==>
              r == KeyError("sdoh")
    ensures !(Work in asked && persona.context.None?) && !(Transport in asked && persona.sdoh.None?) ==>
              r == Ok((ReplyParts(persona, asked, COMPOSE_ORDER), ReplyTags(asked, COMPOSE_ORDER)))
  {
    if Work in asked && persona.context.None? {
      return KeyError("context");
    }
    if Transport in asked && persona.sdoh.None? {
      return KeyError("sdoh");
    }
    var parts, tags := AnswerHistory(persona, asked);
    parts, tags := AnswerSocial(persona, asked, parts, tags);
    return Ok((parts, tags));
  }

  /** The last three links of the chain: work, transport and exam. */
  method AnswerSocial(persona: Persona, asked: seq<Slot>, parts: seq<string>, tags: seq<string>)
    returns (parts': seq<string>, tags': seq<string>)
    requires parts == ReplyParts(persona, asked, COMPOSE_ORDER[..9])
    requires tags == ReplyTags(asked, COMPOSE_ORDER[..9])
    ensures parts' == ReplyParts(persona, asked, COMPOSE_ORDER)
    ensures tags' == ReplyTags(asked, COMPOSE_ORDER)
  {
    parts', tags' := AnswerIfAsked(persona, asked, 9, parts, tags);
    parts', tags' := AnswerIfAsked(persona, asked, 10, parts', tags');
    parts', tags' := AnswerIfAsked(persona, asked, 11, parts', tags');
    assert COMPOSE_ORDER[..12] == COMPOSE_ORDER;
  }

  /** The composer part of patient_reply: the persona sections it indexes,
      then one sentence per asked slot in the chain's order, else the chief
      complaint once, else the follow-up prompt. */
  method ComposeReply(persona: Persona, asked: seq<Slot>, state: State) returns (out: Outcome<Turn>)
    ensures match MissingSection(persona, asked)
            case Some(key) => out == KeyError(key)
            case None => out.Ok? && ComposedTurn(persona, asked, state, out.value)
  {
    if persona.communicationProfile.None? {
      return KeyError("communication_profile");
    }
    if persona.hpi.None? {
      return KeyError("hpi");
    }
    if persona.examScript.None? {
      return KeyError("exam_script");
    }
    var answered := AnswerSlots(persona, asked);
    if answered.KeyError? {
      return KeyError(answered.key);
    }
    var st := state;
    var (parts, tags) := answered.value;
    ReplyShape(persona, asked, COMPOSE_ORDER);
    if parts == [] {
      if !st.sharedCc {
        parts := parts + [ChiefComplaint(persona)];
        st := st.(sharedCc := true);
        tags := tags + ["shared_cc"];
      } else {
        parts := parts + [NEXT_QUESTION];
      }
    }
    var reply := Join(" ", parts);
    return Ok(Turn(reply, st, tags));
  }

  // ---------------------------------------------------------------------
  // Properties of the composer

  /** A slot is answered iff it is in the order and was asked. */
  lemma {:induction false} AnsweredMembers(asked: seq<Slot>, order: seq<Topic>, s: Topic)
    ensures s in Answered(asked, order) <==> s in order && s in asked
  {
    if order != [] {
      var front := order[..|order| - 1];
      AnsweredMembers(asked, front, s);
      assert order == front + [order[|order| - 1]];
    }
  }

  /** Answering keeps the order's ranking. */
  lemma {:induction false} AnsweredRanked(asked: seq<Slot>, order: seq<Topic>)
    requires StrictlyRanked(order)
    ensures StrictlyRanked(Answered(asked, order))
  {
    if order != [] {
      var front := order[..|order| - 1];
      var last := order[|order| - 1];
      AnsweredRanked(asked, front);
      var prior := Answered(asked, front);
      forall a | 0 <= a < |prior| ensures Rank(prior[a]) < Rank(last) {
        AnsweredMembers(asked, front, prior[a]);
        var m :| 0 <= m < |front| && front[m] == prior[a];
        assert order[m] == prior[a];
      }
    }
  }

  lemma ComposeOrderRanked()
    ensures StrictlyRanked(COMPOSE_ORDER)
    ensures forall s: Topic :: s in COMPOSE_ORDER
  {
  }

  /** The composer never tags a slot twice, and lists its tags in the
      chain's order. */
  lemma ComposerTagsDistinct(p: Persona, asked: seq<Slot>)
    ensures forall a, b | 0 <= a < b < |ReplyTags(asked, COMPOSE_ORDER)| ::
              ReplyTags(asked, COMPOSE_ORDER)[a] != ReplyTags(asked, COMPOSE_ORDER)[b]
  {
    ComposeOrderRanked();
    AnsweredRanked(asked, COMPOSE_ORDER);
    ReplyShape(p, asked, COMPOSE_ORDER);
    var ans := Answered(asked, COMPOSE_ORDER);
    forall a, b | 0 <= a < b < |ans| ensures Tag(ans[a]) != Tag(ans[b]) {
      assert Rank(ans[a]) < Rank(ans[b]);
      TagInjective(ans[a], ans[b]);
    }
  }

  lemma TagInjective(s: Topic, u: Topic)
    requires s != u
    ensures Tag(s) != Tag(u)
  {
    assert Tag(s)[..|Tag(s)|] == Tag(s);
  }

  /** The composer's tags are exactly the rubric's keys: every answered
      slot earns a rubric item, and every item is earned by one slot. */
  lemma ComposerTagsAreRubricKeys()
    ensures forall s: Topic :: Tag(s) in Keys(RUBRIC_ITEMS)
    ensures forall key | key in Keys(RUBRIC_ITEMS) :: exists s: Topic :: Tag(s) == key
  {
    var r := RUBRIC_ITEMS;
    forall s: Topic ensures Tag(s) in Keys(r) {
      var k := match s
        case Onset => 0 case Mechanism => 1 case Location => 2 case Severity => 3
        case Aggravators => 4 case Easers => 5 case Pattern => 6 case RedFlags => 7
        case Work => 8 case Transport => 9 case Goals => 10 case Exam => 11;
      assert r[k].key == Tag(s);
    }
    forall key | key in Keys(r) ensures exists s: Topic :: Tag(s) == key {
      var k :| 0 <= k < |r| && r[k].key == key;
      var s: Topic := [Onset, Mechanism, Location, Severity, Aggravators, Easers, Pattern, RedFlags,
                       Work, Transport, Goals, Exam][k];
      assert Tag(s) == key;
    }
  }

  /** A topic's sentence is in the composed reply iff the topic was asked;
      nothing else is said. */
  lemma ComposerAnswersAsked(p: Persona, asked: seq<Slot>, s: Topic)
    ensures s in asked <==> s in Answered(asked, COMPOSE_ORDER)
    ensures s in asked <==> Sentence(p, s) in ReplyParts(p, asked, COMPOSE_ORDER)
    ensures s in asked <==> Tag(s) in ReplyTags(asked, COMPOSE_ORDER)
  {
    ComposeOrderRanked();
    AnsweredMembers(asked, COMPOSE_ORDER, s);
    ReplyShape(p, asked, COMPOSE_ORDER);
    var ans := Answered(asked, COMPOSE_ORDER);
    if s in asked {
      var k :| 0 <= k < |ans| && ans[k] == s;
      assert ReplyParts(p, asked, COMPOSE_ORDER)[k] == Sentence(p, s);
      assert ReplyTags(asked, COMPOSE_ORDER)[k] == Tag(s);
    }
    if Tag(s) in ReplyTags(asked, COMPOSE_ORDER) {
      var k :| 0 <= k < |ans| && ReplyTags(asked, COMPOSE_ORDER)[k] == Tag(s);
      if ans[k] != s {
        TagInjective(ans[k], s);
      }
      AnsweredMembers(asked, COMPOSE_ORDER, ans[k]);
    }
    if Sentence(p, s) in ReplyParts(p, asked, COMPOSE_ORDER) {
      var k :| 0 <= k < |ans| && ReplyParts(p, asked, COMPOSE_ORDER)[k] == Sentence(p, s);
      if ans[k] != s {
        SentenceInjective(p, ans[k], s);
      }
      AnsweredMembers(asked, COMPOSE_ORDER, ans[k]);
    }
  }

  /** The composer falls back to the chief complaint or the follow-up
      prompt exactly when nothing but a summary was asked. */
  lemma ComposerFallsBackIffNothingAsked(p: Persona, asked: seq<Slot>)
    ensures ReplyParts(p, asked, COMPOSE_ORDER) == [] <==> forall k | 0 <= k < |asked| :: asked[k] == Summary
  {
    ComposeOrderRanked();
    ReplyShape(p, asked, COMPOSE_ORDER);
    var ans := Answered(asked, COMPOSE_ORDER);
    if ans == [] {
      forall k | 0 <= k < |asked| ensures asked[k] == Summary {
        if asked[k] != Summary {
          AnsweredMembers(asked, COMPOSE_ORDER, asked[k]);
        }
      }
    } else {
      AnsweredMembers(asked, COMPOSE_ORDER, ans[0]);
      var k :| 0 <= k < |asked| && asked[k] == ans[0];
    }
  }

  /** The chief complaint is shared at most once a session: once the flag
      is set, a composed turn neither tags it nor changes the state. */
  lemma ChiefComplaintSharedOnce(p: Persona, asked: seq<Slot>, state: State, t: Turn)
    requires ComposedTurn(p, asked, state, t) && state.sharedCc
    ensures t.state == state && "shared_cc" !in t.tags
  {
    ReplyShape(p, asked, COMPOSE_ORDER);
  }

  /** When the severity is asked, the composed reply states the persona's
      rating. */
  lemma SeverityRatingReported(p: Persona, asked: seq<Slot>, state: State, t: Turn, n: int)
    requires ComposedTurn(p, asked, state, t) && Severity in asked
    requires p.hpi.Some? && p.hpi.value.severityNrs == Some(n)
    ensures Contains(t.reply, IntToString(n))
  {
    ComposerAnswersAsked(p, asked, Severity);
    var parts := ReplyParts(p, asked, COMPOSE_ORDER);
    var k :| 0 <= k < |parts| && parts[k] == Sentence(p, Severity);
    JoinContains(" ", parts, k);
    var head := "On a 0\U{2013}10 scale it's about a ";
    var tail := " right now.";
    assert Sentence(p, Severity) == head + IntToString(n) + tail;
    assert Contains(IntToString(n), IntToString(n)) by {
      assert OccursAt(IntToString(n), IntToString(n), 0);
    }
    ContainsAppend(head, IntToString(n), IntToString(n));
    ContainsAppend(tail, head + IntToString(n), IntToString(n));
    ContainsTrans(t.reply, Sentence(p, Severity), IntToString(n));
  }
}
