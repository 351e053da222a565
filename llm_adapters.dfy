/** The chat-completion clients: the offline Echo client, and the two
    remote clients with the network call taken as a parameter. */
module LlmAdapters {
  import opened Text
  import opened Domain

  /** A chat-completion client. A remote client is given by what its
      service answers: a completion for a message list and a temperature,
      and (OpenAI only) the delta contents of the streamed events, where an
      event without a delta has None. */
  datatype Client =
    | Echo
    | OpenAI(complete: (seq<Message>, real) -> string, deltas: (seq<Message>, real) -> seq<Option<string>>)
    | Azure(complete: (seq<Message>, real) -> string)

  /** The position of the last message whose role is "user". */
  function LastUserIndex(messages: seq<Message>): (r: Option<nat>)
    ensures r.Some? ==> r.value < |messages| && messages[r.value].role == "user"
    ensures r.Some? ==> forall j | r.value < j < |messages| :: messages[j].role != "user"
    ensures r.None? ==> forall j | 0 <= j < |messages| :: messages[j].role != "user"
  {
    if messages == [] then None
    else if messages[|messages| - 1].role == "user" then Some(|messages| - 1)
    else LastUserIndex(messages[..|messages| - 1])
  }

  /** The content of the last user message, or "" when there is none. */
  function LastUserContent(messages: seq<Message>): string
  {
    match LastUserIndex(messages)
    case Some(k) => messages[k].content
    case None => ""
  }

  /** EchoLLMClient.generate */
  function EchoGenerate(messages: seq<Message>): string
  {
    "(echo) " + LastUserContent(messages)
  }

  /** Each word followed by one space. */
  function Spaced(words: seq<string>): (chunks: seq<string>)
    ensures |chunks| == |words|
    ensures forall i | 0 <= i < |words| :: chunks[i] == words[i] + " "
  {
    seq(|words|, i requires 0 <= i < |words| => words[i] + " ")
  }

  /** EchoLLMClient.generate_stream: one chunk per whitespace-separated
      word of the generated text. */
  function EchoStream(messages: seq<Message>): seq<string>
  {
    Spaced(Words(EchoGenerate(messages)))
  }

  /** The OpenAI stream filter: the deltas that are present and non-empty,
      in arrival order. */
  function NonEmptyDeltas(events: seq<Option<string>>): (chunks: seq<string>)
    ensures forall i | 0 <= i < |chunks| :: chunks[i] != ""
    ensures |chunks| <= |events|
  {
    if events == [] then []
    else
      var last := events[|events| - 1];
      NonEmptyDeltas(events[..|events| - 1]) + (if last.Some? && last.value != "" then [last.value] else [])
  }

  /** The text of all present deltas, empty ones included. */
  function AllDeltaText(events: seq<Option<string>>): string
  {
    if events == [] then ""
    else
      var last := events[|events| - 1];
      AllDeltaText(events[..|events| - 1]) + (if last.Some? then last.value else "")
  }

  /** generate: the client's completion. */
  function Generate(c: Client, messages: seq<Message>, temperature: real): string
  {
    match c
    case Echo => EchoGenerate(messages)
    case OpenAI(complete, _) => complete(messages, temperature)
    case Azure(complete) => complete(messages, temperature)
  }

  /** generate_stream: the chunks the client yields. */
  function GenerateStream(c: Client, messages: seq<Message>, temperature: real): seq<string>
  {
    match c
    case Echo => EchoStream(messages)
    case OpenAI(_, deltas) => NonEmptyDeltas(deltas(messages, temperature))
    case Azure(complete) => [complete(messages, temperature)]
  }

  // ---------------------------------------------------------------------
  // Echo

  /** Echo answers "(echo) " and the last user message, or "(echo) " alone
      when no message is from the user. */
  lemma EchoGenerateSpec(messages: seq<Message>)
    ensures (forall j | 0 <= j < |messages| :: messages[j].role != "user") ==> EchoGenerate(messages) == "(echo) "
    ensures forall k | 0 <= k < |messages| && messages[k].role == "user" &&
                       (forall j | k < j < |messages| :: messages[j].role != "user") ::
              EchoGenerate(messages) == "(echo) " + messages[k].content
  {
    forall k | 0 <= k < |messages| && messages[k].role == "user" &&
               (forall j | k < j < |messages| :: messages[j].role != "user")
      ensures EchoGenerate(messages) == "(echo) " + messages[k].content
    {
      var r := LastUserIndex(messages);
    }
  }

  /** A message that is not from the user, wherever it is inserted, does
      not change what Echo answers; nor does the temperature. */
  lemma {:induction false} EchoIgnoresNonUserMessages(before: seq<Message>, x: Message, after: seq<Message>, t1: real, t2: real)
    requires x.role != "user"
    ensures Generate(Echo, before + [x] + after, t1) == Generate(Echo, before + after, t2)
    decreases |after|
  {
    if after == [] {
      assert (before + [x] + after)[..|before + [x] + after| - 1] == before;
      assert before + after == before;
    } else {
      var front := after[..|after| - 1];
      var last := after[|after| - 1];
      assert (before + [x] + after)[..|before + [x] + after| - 1] == before + [x] + front;
      assert (before + after)[..|before + after| - 1] == before + front;
      EchoIgnoresNonUserMessages(before, x, front, t1, t2);
      if last.role == "user" {
        assert (before + [x] + after)[|before + [x] + after| - 1] == last;
        assert (before + after)[|before + after| - 1] == last;
      }
    }
  }

  /** Splitting the stream's text again gives the generated text's words:
      the stream loses and invents nothing but whitespace. */
  lemma {:induction false} WordsOfSpaced(words: seq<string>)
    requires forall i | 0 <= i < |words| :: words[i] != "" && NoSpace(words[i])
    ensures Words(Concat(Spaced(words))) == words
  {
    if words != [] {
      assert Spaced(words)[1..] == Spaced(words[1..]);
      WordsOfSpaced(words[1..]);
      var rest := Concat(Spaced(words[1..]));
      assert Concat(Spaced(words)) == words[0] + [' '] + rest;
      WordsCons(words[0], ' ', rest);
    }
  }

  /** The Echo stream is never empty: its first chunk is "(echo) ", and
      its chunks spell the generated text's words. */
  lemma EchoStreamSpec(messages: seq<Message>)
    ensures |EchoStream(messages)| >= 1 && EchoStream(messages)[0] == "(echo) "
    ensures Words(Concat(EchoStream(messages))) == Words(EchoGenerate(messages))
  {
    FirstWord("(echo)", ' ', LastUserContent(messages));
    assert EchoGenerate(messages) == "(echo)" + [' '] + LastUserContent(messages);
    WordsOfSpaced(Words(EchoGenerate(messages)));
  }

  // ---------------------------------------------------------------------
  // Streaming

  /** The OpenAI filter keeps a chunk iff it arrived as a non-empty delta. */
  lemma {:induction false} NonEmptyDeltasMembers(events: seq<Option<string>>, c: string)
    ensures c in NonEmptyDeltas(events) <==> c != "" && Some(c) in events
  {
    if events != [] {
      var front := events[..|events| - 1];
      NonEmptyDeltasMembers(front, c);
      assert events == front + [events[|events| - 1]];
    }
  }

  /** The filter drops only text-free events: the streamed text is all the
      deltas' text. */
  lemma {:induction false} NonEmptyDeltasText(events: seq<Option<string>>)
    ensures Concat(NonEmptyDeltas(events)) == AllDeltaText(events)
  {
    if events != [] {
      var front := events[..|events| - 1];
      var last := events[|events| - 1];
      NonEmptyDeltasText(front);
      if last.Some? && last.value != "" {
        ConcatAppend(NonEmptyDeltas(front), last.value);
      } else {
        assert NonEmptyDeltas(front) + [] == NonEmptyDeltas(front);
      }
    }
  }

  /** When every event carries text, the filter passes each one through. */
  lemma {:induction false} NonEmptyDeltasKeepsAll(events: seq<Option<string>>)
    requires forall i | 0 <= i < |events| :: events[i].Some? && events[i].value != ""
    ensures |NonEmptyDeltas(events)| == |events|
    ensures forall i | 0 <= i < |events| :: NonEmptyDeltas(events)[i] == events[i].value
  {
    if events != [] {
      NonEmptyDeltasKeepsAll(events[..|events| - 1]);
    }
  }

  /** The streams of the Echo and Azure clients carry the completion:
      Azure's single chunk is it, and Echo's chunks hold its words. */
  lemma StreamCarriesCompletion(c: Client, messages: seq<Message>, temperature: real)
    requires !c.OpenAI?
    ensures c.Azure? ==> Concat(GenerateStream(c, messages, temperature)) == Generate(c, messages, temperature)
    ensures c.Azure? ==> |GenerateStream(c, messages, temperature)| == 1
    ensures c.Echo? ==> Words(Concat(GenerateStream(c, messages, temperature))) == Words(Generate(c, messages, temperature))
  {
    if c.Echo? {
      EchoStreamSpec(messages);
    } else {
      var g := Generate(c, messages, temperature);
      assert Concat([g]) == g + Concat([]);
    }
  }
}
