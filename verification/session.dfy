/**
 * The per-session state of app.py: the chat history (`st.session_state.messages`)
 * and the analytics record (`st.session_state.analytics`), together with what
 * one chat turn does to them. The hosted model is outside the model: the
 * outcome of its one call per turn is a parameter.
 */
module ChatSession {
  import opened Text
  import opened EntityExtractor
  import opened IntentClassifier

  // ---------------------------------------------------------------------------
  // The model client (`get_ai_response`)

  /** What the one call to the hosted model did: answered after some elapsed time, or raised. */
  datatype CallOutcome = Answered(text: string, elapsed: real) | Raised(error: string)

  /** The response text and the latency recorded for it. */
  datatype Reply = Reply(text: string, latency: real)

  /** The cross mark that opens every failure message. */
  const FailureMark: string := "\U{274C}"
  const NotConfiguredMessage: string := FailureMark + " AI model not configured. Please add your Gemini API key."
  const ErrorPrefix: string := FailureMark + " Error generating response: "

  /**
   * `get_ai_response`: without a configured model, a fixed message; when the
   * call raises, the error text behind a fixed prefix; both with latency 0.
   */
  function AiResponse(configured: bool, outcome: CallOutcome): Reply
  {
    if !configured then
      Reply(NotConfiguredMessage, 0.0)
    else
      match outcome
      case Answered(text, elapsed) => Reply(text, elapsed)
      case Raised(error) => Reply(ErrorPrefix + error, 0.0)
  }

  /**
   * Failures are absorbed into display text: whenever no answer came back,
   * the reply starts with the failure mark and records zero latency; an
   * answer is passed through unchanged.
   */
  lemma AiResponseFailuresAbsorbed(configured: bool, outcome: CallOutcome)
    ensures var r := AiResponse(configured, outcome);
      if configured && outcome.Answered? then r == Reply(outcome.text, outcome.elapsed)
      else r.latency == 0.0 && FailureMark <= r.text
  ensures !configured ==> AiResponse(configured, outcome) == Reply(NotConfiguredMessage, 0.0)
  ensures configured && outcome.Raised? ==>
    AiResponse(configured, outcome) == Reply(ErrorPrefix + outcome.error, 0.0)
  {
    var r := AiResponse(configured, outcome);
    if !configured {
      assert r.text == FailureMark + " AI model not configured. Please add your Gemini API key.";
    } else if outcome.Raised? {
      assert r.text == FailureMark + (" Error generating response: " + outcome.error);
    }
  }

  // ---------------------------------------------------------------------------
  // Messages and the analytics record

  /** A history entry: the user's prompt, or the assistant's reply with its tags. */
  datatype Message =
    | UserMessage(content: string)
    | AssistantMessage(content: string, entities: seq<Entity>, intent: Intent, responseTime: real)

  /** The synthetic confidence score, in hundredths: 0.85 + 0.03 per tag, never clamped. */
  function Confidence(tagCount: nat): nat
  {
    85 + 3 * tagCount
  }

  /** The terms of a list of tags, in order (`[e[1] for e in entities]`). */
  function Terms(entities: seq<Entity>): (r: seq<string>)
    ensures |r| == |entities|
    ensures forall k :: 0 <= k < |r| ==> r[k] == entities[k].term
  {
    if entities == [] then [] else [entities[0].term] + Terms(entities[1..])
  }

  /** A snapshot of the analytics record. */
  datatype Stats = Stats(
    queriesProcessed: nat,
    entitiesFound: seq<string>,
    responseTimes: seq<real>,
    confidenceScores: seq<nat>,
    queryTypes: seq<Intent>)

  const NoStats := Stats(0, [], [], [], [])

  /** The record after `update_analytics(query, entities, responseTime, intent)`. */
  function Recorded(s: Stats, entities: seq<Entity>, responseTime: real, intent: Intent): Stats
  {
    Stats(s.queriesProcessed + 1,
          s.entitiesFound + Terms(entities),
          s.responseTimes + [responseTime],
          s.confidenceScores + [Confidence(|entities|)],
          s.queryTypes + [intent])
  }

  /** The counter agrees with the length of every per-turn log. */
  ghost predicate CountsAgree(s: Stats)
  {
    s.queriesProcessed == |s.responseTimes| == |s.confidenceScores| == |s.queryTypes|
  }

  // ---------------------------------------------------------------------------
  // The history, turn by turn

  /** The history alternates: a user message, then an assistant message, turn after turn. */
  ghost predicate Alternates(h: seq<Message>)
    decreases |h|
  {
    |h| == 0
    || (|h| >= 2 && h[|h| - 2].UserMessage? && h[|h| - 1].AssistantMessage? && Alternates(h[..|h| - 2]))
  }

  /** The user prompt of turn `k`. */
  ghost function PromptOf(h: seq<Message>, k: nat): string
    requires 2 * k + 1 < |h|
  {
    h[2 * k].content
  }

  /** The reply of turn `k` carries the tags and the intent of that turn's own prompt. */
  ghost predicate TaggedFromPrompt(h: seq<Message>, k: nat)
    requires 2 * k + 1 < |h|
  {
    var reply := h[2 * k + 1];
    reply.AssistantMessage?
    && reply.entities == Extracted(PromptOf(h, k))
    && reply.intent == ClassifyIntent(PromptOf(h, k))
  }

  /** The history is a sequence of complete turns, each reply tagged from its prompt. */
  ghost predicate WellFormedHistory(h: seq<Message>)
  {
    Alternates(h) && forall k :: 0 <= k < |h| / 2 ==> TaggedFromPrompt(h, k)
  }

  /** The analytics record that replaying an alternating history through `update_analytics` yields. */
  ghost function HistoryStats(h: seq<Message>): Stats
    requires Alternates(h)
    decreases |h|
  {
    if |h| == 0 then
      NoStats
    else
      var a := h[|h| - 1];
      Recorded(HistoryStats(h[..|h| - 2]), a.entities, a.responseTime, a.intent)
  }

  /** An alternating history has whole turns only. */
  lemma {:induction false} AlternatesEven(h: seq<Message>)
    requires Alternates(h)
    ensures |h| % 2 == 0
    decreases |h|
  {
    if |h| > 0 {
      AlternatesEven(h[..|h| - 2]);
    }
  }

  /** One more turn, tagged from its own prompt, keeps a history well formed. */
  lemma AppendTurn(h: seq<Message>, prompt: string, reply: Message)
    requires WellFormedHistory(h)
    requires reply.AssistantMessage? && reply.entities == Extracted(prompt) && reply.intent == ClassifyIntent(prompt)
    ensures WellFormedHistory(h + [UserMessage(prompt), reply])
    ensures HistoryStats(h + [UserMessage(prompt), reply])
            == Recorded(HistoryStats(h), reply.entities, reply.responseTime, reply.intent)
  {
    var h' := h + [UserMessage(prompt), reply];
    assert h'[..|h'| - 2] == h;
    AlternatesEven(h);
    forall k | 0 <= k < |h'| / 2
      ensures TaggedFromPrompt(h', k)
    {
      if 2 * k + 1 < |h| {
        assert TaggedFromPrompt(h, k);
        assert h'[2 * k] == h[2 * k] && h'[2 * k + 1] == h[2 * k + 1];
      } else {
        assert 2 * k == |h|;
      }
    }
  }

  /** Turn `k` of the history is a user message followed by an assistant message. */
  ghost predicate IsTurn(h: seq<Message>, k: nat)
  {
    2 * k + 1 < |h| && h[2 * k].UserMessage? && h[2 * k + 1].AssistantMessage?
  }

  /**
   * Replaying an alternating history counts one query per turn and gives
   * each of the three per-turn logs (latencies, confidences, query types)
   * one entry per turn, the k-th built from the k-th reply alone.
   */
  lemma {:induction false} HistoryStatsPerTurn(h: seq<Message>)
    requires Alternates(h)
    ensures var s := HistoryStats(h);
      |h| % 2 == 0 && s.queriesProcessed == |h| / 2 && CountsAgree(s)
      && forall k :: 0 <= k < |h| / 2 ==>
        IsTurn(h, k)
        && s.queryTypes[k] == h[2 * k + 1].intent
        && s.confidenceScores[k] == Confidence(|h[2 * k + 1].entities|)
        && s.responseTimes[k] == h[2 * k + 1].responseTime
    decreases |h|
  {
    if |h| > 0 {
      var prev := h[..|h| - 2];
      HistoryStatsPerTurn(prev);
      var s, p := HistoryStats(h), HistoryStats(prev);
      var n := |prev| / 2;
      forall k | 0 <= k < |h| / 2
        ensures IsTurn(h, k)
        ensures s.queryTypes[k] == h[2 * k + 1].intent
        ensures s.confidenceScores[k] == Confidence(|h[2 * k + 1].entities|)
        ensures s.responseTimes[k] == h[2 * k + 1].responseTime
      {
        if k < n {
          assert IsTurn(prev, k);
          assert h[2 * k] == prev[2 * k] && h[2 * k + 1] == prev[2 * k + 1];
        } else {
          assert 2 * k + 1 == |h| - 1;
        }
      }
    }
  }

  /** Term `t` is the term of one of the tags of the reply of turn `k`. */
  ghost predicate ReplyHasTerm(h: seq<Message>, k: int, t: string)
  {
    0 <= k && 2 * k + 1 < |h| && h[2 * k + 1].AssistantMessage? && t in Terms(h[2 * k + 1].entities)
  }

  /**
   * The replayed `entities_found` log holds exactly the terms of the tags of
   * the replies in the history: a term is logged iff some reply was tagged with it.
   */
  lemma {:induction false} ReplayedEntitiesFound(h: seq<Message>, t: string)
    requires Alternates(h)
    ensures t in HistoryStats(h).entitiesFound <==> exists k :: ReplyHasTerm(h, k, t)
    decreases |h|
  {
    if |h| > 0 {
      var prev := h[..|h| - 2];
      var last := h[|h| - 1];
      ReplayedEntitiesFound(prev, t);
      AlternatesEven(prev);
      assert HistoryStats(h).entitiesFound == HistoryStats(prev).entitiesFound + Terms(last.entities);
      if t in HistoryStats(prev).entitiesFound {
        var k :| ReplyHasTerm(prev, k, t);
        assert h[2 * k + 1] == prev[2 * k + 1];
        assert ReplyHasTerm(h, k, t);
      } else if t in Terms(last.entities) {
        assert ReplyHasTerm(h, |prev| / 2, t);
      }
      if exists k :: ReplyHasTerm(h, k, t) {
        var k :| ReplyHasTerm(h, k, t);
        if 2 * k + 1 < |prev| {
          assert h[2 * k + 1] == prev[2 * k + 1];
          assert ReplyHasTerm(prev, k, t);
        } else {
          assert 2 * k + 1 == |h| - 1;
        }
      }
    }
  }

  /**
   * What the analytics record says about a well-formed history: one count per
   * turn, the k-th logged query type is the intent of the k-th prompt, and the
   * k-th logged confidence is the score of that prompt's tag count.
   */
  lemma LoggedStatsMatchPrompts(h: seq<Message>)
    requires WellFormedHistory(h)
    ensures var s := HistoryStats(h);
      s.queriesProcessed == |h| / 2 && CountsAgree(s)
      && forall k :: 0 <= k < |h| / 2 ==>
        s.queryTypes[k] == ClassifyIntent(PromptOf(h, k))
        && s.confidenceScores[k] == Confidence(|Extracted(PromptOf(h, k))|)
  {
    HistoryStatsPerTurn(h);
    var s := HistoryStats(h);
    forall k | 0 <= k < |h| / 2
      ensures s.queryTypes[k] == ClassifyIntent(PromptOf(h, k))
      ensures s.confidenceScores[k] == Confidence(|Extracted(PromptOf(h, k))|)
    {
      assert TaggedFromPrompt(h, k);
      assert IsTurn(h, k);
    }
  }

  /** Every logged confidence lies between 0.85 and 1.63; it exceeds 1.00 once six tags are found. */
  lemma ConfidenceRange(text: string)
    ensures 85 <= Confidence(|Extracted(text)|) <= 85 + 3 * VocabularySize
    ensures Confidence(|Extracted(text)|) > 100 <==> |Extracted(text)| >= 6
  {
    ExtractedLength(text);
  }

  // ---------------------------------------------------------------------------
  // The session state

  /** `st.session_state.analytics`: a counter and four append-only logs. */
  class Analytics {
    var queriesProcessed: nat
    var entitiesFound: seq<string>
    var responseTimes: seq<real>
    var confidenceScores: seq<nat>
    var queryTypes: seq<Intent>

    function View(): Stats
      reads this
    {
      Stats(queriesProcessed, entitiesFound, responseTimes, confidenceScores, queryTypes)
    }

    /** The record as the session initialises it: zero queries, empty logs. */
    constructor ()
      ensures View() == NoStats
    {
      queriesProcessed := 0;
      entitiesFound := [];
      responseTimes := [];
      confidenceScores := [];
      queryTypes := [];
    }

    /** `update_analytics`: count the query and append to each log; nothing else changes. */
    method Update(query: string, entities: seq<Entity>, responseTime: real, intent: Intent)
      modifies this
      ensures queriesProcessed == old(queriesProcessed) + 1
      ensures entitiesFound == old(entitiesFound) + Terms(entities)
      ensures responseTimes == old(responseTimes) + [responseTime]
      ensures confidenceScores == old(confidenceScores) + [Confidence(|entities|)]
      ensures queryTypes == old(queryTypes) + [intent]
      ensures View() == Recorded(old(View()), entities, responseTime, intent)
    {
      queriesProcessed := queriesProcessed + 1;
      entitiesFound := entitiesFound + Terms(entities);
      responseTimes := responseTimes + [responseTime];
      confidenceScores := confidenceScores + [Confidence(|entities|)];
      queryTypes := queryTypes + [intent];
    }
  }

  /** The five sample queries offered as buttons. */
  const SampleQueries: seq<string> := [
    "How to navigate to GSMap ISRO Rain data?",
    "Where can I find SST data on MOSDAC?",
    "How to download INSAT-3D temperature data?",
    "What is the format of ocean chlorophyll data?",
    "How to access restricted data on MOSDAC?"
  ]

  /** A tag is reported when its term occurs, in any case, at the given position of the query. */
  lemma TaggedAt(query: string, e: Entity, at: nat)
    requires InVocabulary(e) && at + |e.term| <= |query|
    requires forall k :: 0 <= k < |e.term| ==> LowerChar(query[at + k]) == LowerChar(e.term[k])
    ensures e in Extracted(query)
  {
    OccursAtByChars(Lower(e.term), Lower(query), at);
    ExtractedExact(query, e);
  }

  /** A navigation keyword at the given position makes the query a navigation question. */
  lemma NavigationAt(query: string, w: string, at: nat)
    requires w in NavigationWords && at + |w| <= |query|
    requires forall k :: 0 <= k < |w| ==> LowerChar(query[at + k]) == w[k]
    ensures ClassifyIntent(query) == Navigation
  {
    OccursAtByChars(w, Lower(query), at);
  }

  /** The first sample button asks to navigate. */
  lemma FirstSampleQueryIntent()
    ensures ClassifyIntent(SampleQueries[0]) == Navigation
  {
    var q := "How to navigate to GSMap ISRO Rain data?";
    assert SampleQueries[0] == q;
    NavigationAt(q, "navigate", 7);
  }

  /** The first sample button is tagged with the product GSMAP ... */
  lemma FirstSampleQueryNamesGsmap()
    ensures Entity(Product, "GSMAP") in Extracted(SampleQueries[0])
  {
    var q := "How to navigate to GSMap ISRO Rain data?";
    assert SampleQueries[0] == q;
    TaggedAt(q, Entity(Product, "GSMAP"), 19);
  }

  /** ... and with the product RAIN. */
  lemma FirstSampleQueryNamesRain()
    ensures Entity(Product, "RAIN") in Extracted(SampleQueries[0])
  {
    var q := "How to navigate to GSMap ISRO Rain data?";
    assert SampleQueries[0] == q;
    TaggedAt(q, Entity(Product, "RAIN"), 30);
  }

  /** The second sample button asks where to find something ... */
  lemma SecondSampleQueryIntent()
    ensures ClassifyIntent(SampleQueries[1]) == Navigation
  {
    var q := "Where can I find SST data on MOSDAC?";
    assert SampleQueries[1] == q;
    NavigationAt(q, "where", 0);
  }

  /** ... and names the product SST. */
  lemma SecondSampleQueryNamesSst()
    ensures Entity(Product, "SST") in Extracted(SampleQueries[1])
  {
    var q := "Where can I find SST data on MOSDAC?";
    assert SampleQueries[1] == q;
    TaggedAt(q, Entity(Product, "SST"), 17);
  }

  /** The third sample button names the satellite INSAT-3D ... */
  lemma ThirdSampleQueryNamesInsat()
    ensures Entity(Satellite, "INSAT-3D") in Extracted(SampleQueries[2])
  {
    var q := "How to download INSAT-3D temperature data?";
    assert SampleQueries[2] == q;
    TaggedAt(q, Entity(Satellite, "INSAT-3D"), 16);
  }

  /** ... and the product TEMPERATURE. */
  lemma ThirdSampleQueryNamesTemperature()
    ensures Entity(Product, "TEMPERATURE") in Extracted(SampleQueries[2])
  {
    var q := "How to download INSAT-3D temperature data?";
    assert SampleQueries[2] == q;
    TaggedAt(q, Entity(Product, "TEMPERATURE"), 25);
  }

  /** The fourth sample button names the product CHLOROPHYLL. */
  lemma FourthSampleQueryNamesChlorophyll()
    ensures Entity(Product, "CHLOROPHYLL") in Extracted(SampleQueries[3])
  {
    var q := "What is the format of ocean chlorophyll data?";
    assert SampleQueries[3] == q;
    TaggedAt(q, Entity(Product, "CHLOROPHYLL"), 28);
  }

  /** The fifth sample button: "access" makes it a navigation question. */
  lemma FifthSampleQueryIntent()
    ensures ClassifyIntent(SampleQueries[4]) == Navigation
  {
    var q := "How to access restricted data on MOSDAC?";
    assert SampleQueries[4] == q;
    NavigationAt(q, "access", 7);
  }

  /** One browser session: its chat history and its analytics record. */
  class Session {
    var messages: seq<Message>
    const analytics: Analytics

    /** The history consists of whole turns and the analytics record is its replay. */
    ghost predicate Valid()
      reads this, analytics
    {
      WellFormedHistory(messages) && analytics.View() == HistoryStats(messages)
    }

    constructor ()
      ensures Valid() && messages == [] && analytics.View() == NoStats
      ensures fresh(analytics)
    {
      messages := [];
      analytics := new Analytics();
    }

    /**
     * One turn of the pipeline for `query`: append the user message, tag and
     * classify the query, obtain the reply, append the assistant message and
     * update the analytics record.
     */
    method ProcessQuery(query: string, configured: bool, outcome: CallOutcome)
      requires Valid()
      modifies this, analytics
      ensures Valid()
      ensures var reply := AiResponse(configured, outcome);
        messages == old(messages) + [UserMessage(query),
          AssistantMessage(reply.text, Extracted(query), ClassifyIntent(query), reply.latency)]
      ensures var reply := AiResponse(configured, outcome);
        analytics.View() == Recorded(old(analytics.View()), Extracted(query), reply.latency, ClassifyIntent(query))
    {
      messages := messages + [UserMessage(query)];
      var entities := ExtractEntities(query);
      var intent := ClassifyIntent(query);
      var reply := AiResponse(configured, outcome);
      var assistant := AssistantMessage(reply.text, entities, intent, reply.latency);
      messages := messages + [assistant];
      assert messages == old(messages) + [UserMessage(query), assistant];
      AppendTurn(old(messages), query, assistant);
      analytics.Update(query, entities, reply.latency, intent);
    }

    /** The chat box: an empty submission is ignored, anything else is one turn. */
    method SubmitChatInput(prompt: string, configured: bool, outcome: CallOutcome)
      requires Valid()
      modifies this, analytics
      ensures Valid()
      ensures prompt == "" ==> messages == old(messages) && analytics.View() == old(analytics.View())
      ensures prompt != "" ==>
        var reply := AiResponse(configured, outcome);
        messages == old(messages) + [UserMessage(prompt),
          AssistantMessage(reply.text, Extracted(prompt), ClassifyIntent(prompt), reply.latency)]
        && analytics.View() == Recorded(old(analytics.View()), Extracted(prompt), reply.latency, ClassifyIntent(prompt))
    {
      if prompt != "" {
        ProcessQuery(prompt, configured, outcome);
      }
    }

    /** A sample button: behaves exactly as submitting its query. */
    method ClickSample(index: nat, configured: bool, outcome: CallOutcome)
      requires Valid() && index < |SampleQueries|
      modifies this, analytics
      ensures Valid()
      ensures var query := SampleQueries[index];
        var reply := AiResponse(configured, outcome);
        messages == old(messages) + [UserMessage(query),
          AssistantMessage(reply.text, Extracted(query), ClassifyIntent(query), reply.latency)]
      ensures var query := SampleQueries[index];
        var reply := AiResponse(configured, outcome);
        analytics.View() == Recorded(old(analytics.View()), Extracted(query), reply.latency, ClassifyIntent(query))
    {
      ProcessQuery(SampleQueries[index], configured, outcome);
    }
  }
}
