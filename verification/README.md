# QuantumLens chat assistant: a Dafny model of its local logic

QuantumLens is a Streamlit chat front end for the MOSDAC satellite-data portal. It passes each
question to a hosted Gemini model and shows the answer. For each question it first appends the
user's message to the session's chat history. It then tags the question with entities
(satellites, products, regions, data formats) by case-insensitive substring matching against four
fixed vocabularies, and gives it an intent label from a priority-ordered keyword test. After the
model call it appends the assistant's reply, with those tags and that label, and updates a small
analytics record: a query counter and four append-only logs.

This project models that local logic of `app.py` and proves properties of it:

- `text.dfy` (module `Text`): Python's `str.lower`, restricted to ASCII, and Python's substring
  test `needle in haystack`, proved equal to "occurs at some position".
- `entities.dfy` (module `EntityExtractor`): `extract_entities`. There is a specification
  function (`Extracted`), an imperative method with the source's loops (`ExtractEntities`), and
  lemmas for exact matching, output order, no repeats, the length bound, overlapping terms and
  case insensitivity.
- `intent.dfy` (module `IntentClassifier`): `classify_intent` as the source's if/elif chain,
  proved equal to an independent "first list in priority order that fires" rule. Also the
  fallback's if-and-only-if, and case insensitivity.
- `session.dfy` (module `ChatSession`):
  - `get_ai_response`, with the model call's outcome given as a parameter.
  - The analytics record (class `Analytics`, with `update_analytics` as `Update`).
  - The session (class `Session`): the history appends of the typed-input path and of the
    sample-button path.
  - A session invariant: the history is made of whole turns, each reply is tagged from its own
    prompt, and the analytics record is exactly the replay of the history through
    `update_analytics`.

## Model

| member | source | states |
|---|---|---|
| `Text.LowerChar` | app.py:215 | one character of `str.lower`: 'A'..'Z' move to 'a'..'z', every other character is kept |
| `Text.Lower` | app.py:240 | `text.lower()`: same length, and each character is lowered by `LowerChar`; its idempotence is `Text.LowerIdempotent` |
| `Text.Contains` | app.py:215 | Python's `needle in haystack` is true exactly when the needle occurs at some position of the haystack, including the empty needle |
| `Text.LowerIdempotent` | app.py:240 | ASCII lower-casing leaves no upper-case letter, and lower-casing twice equals lower-casing once |
| `EntityExtractor.Matches` | app.py:214-216 | the tags one vocabulary loop emits; what they are is stated by `MatchesMember`, `MatchesLength` and `MatchesInListOrder` |
| `EntityExtractor.Extracted` | app.py:208-236 | the value `extract_entities` returns, the four loops' tags concatenated; its properties are `ExtractedExact`, `ExtractedLength`, `ExtractedOrdered` and `ExtractedIgnoresCase` |
| `EntityExtractor.AppendMatches` | app.py:214-216 | one vocabulary loop appends, in list order, one tag for each term whose lower-cased form occurs in the lower-cased text, and keeps what was already collected |
| `EntityExtractor.ExtractEntities` | app.py:208-236 | the four loops return exactly the specified tag list; a tag is returned iff its term is in its category's vocabulary and occurs case-insensitively in the text; at most 26 tags |
| `EntityExtractor.MatchesMember` | app.py:214-216 | one loop emits (c, t) iff c is its category, t is in its list and lower(t) occurs in lower(text) |
| `EntityExtractor.MatchesLength` | app.py:214-216 | one loop emits at most one tag per term of its list (membership, not counting) |
| `EntityExtractor.MatchesInListOrder` | app.py:214-216 | over a list without repetitions, one loop's tags follow the list order strictly |
| `EntityExtractor.ExtractedExact` | app.py:208-236 | exact matching: (c, t) is reported iff t is in c's vocabulary and lower(t) is a substring of lower(text); no other pair appears |
| `EntityExtractor.ExtractedLength` | app.py:213-234 | at most 7 + 8 + 6 + 5 = 26 tags are reported, however often terms recur in the text |
| `EntityExtractor.ExtractedOrdered` | app.py:213-234 | all SATELLITE tags come first, then PRODUCT, REGION and FORMAT; inside a category tags follow vocabulary order; hence no tag is reported twice |
| `EntityExtractor.ExtractedProperties` | app.py:208-236 | exact matching, output order and the 26-tag bound, together |
| `EntityExtractor.ExtractedIgnoresCase` | app.py:215 | extracting from lower(text) gives the same tags as extracting from text |
| `EntityExtractor.NestedTermsBothReported` | app.py:213-234 | when one vocabulary term contains another, text containing the longer term is tagged with both (no deduplication of overlaps) |
| `EntityExtractor.InsatOverlap` | app.py:213-216 | text containing INSAT-3DR in any case is tagged with both INSAT-3D and INSAT-3DR |
| `EntityExtractor.IndianOceanOverlap` | app.py:225-228 | text containing "Indian Ocean" in any case is tagged with both INDIA and INDIAN OCEAN |
| `IntentClassifier.ClassifyIntent` | app.py:238-251 | `classify_intent`, the if/elif chain over the lowered text; proved equal to the priority rule by `ClassifyIsFirstToFire`, with the fallback's iff in `ClassifyGeneralInquiry` |
| `IntentClassifier.AnyContains` | app.py:242 | `any(word in s for word in words)` is true iff some word of the list occurs in s |
| `IntentClassifier.ClassifyIsFirstToFire` | app.py:238-251 | for every label i: `classify_intent` returns i iff i's keyword list fires (or i is the fallback) and no higher-priority list fires, so exactly one label is returned |
| `IntentClassifier.ClassifyGeneralInquiry` | app.py:250-251 | general_inquiry is returned iff no keyword from any of the four lists occurs in the lower-cased text |
| `IntentClassifier.ClassifyHasWitness` | app.py:242-249 | a label other than the fallback is backed by one of its own keywords occurring in the text |
| `IntentClassifier.ClassifyIgnoresCase` | app.py:240 | classifying lower(text) gives the same label as classifying text |
| `IntentClassifier.LabelInjective` | app.py:242-251 | every intent's label is one of the five strings the source returns, and different intents have different labels |
| `ChatSession.AiResponseFailuresAbsorbed` | app.py:253-278 | with no model the reply is exactly the fixed not-configured message with latency 0; when the call raises it is the fixed error prefix followed by the error text, latency 0; both start with the cross mark; an answer is passed through with its measured latency |
| `ChatSession.AiResponse` | app.py:253-278 | `get_ai_response` over the configured flag and the call's outcome; its failure handling is stated by `AiResponseFailuresAbsorbed` |
| `ChatSession.Confidence` | app.py:285 | the per-turn score `0.85 + 0.03 * len(entities)` in hundredths; its range and the missing clamp are stated by `ConfidenceRange` |
| `ChatSession.Recorded` | app.py:280-286 | the analytics record after one `update_analytics`; `Analytics.Update` is proved to produce it, and `HistoryStatsPerTurn` states what replaying it over a history gives |
| `ChatSession.Terms` | app.py:283 | `[e[1] for e in entities]`: same length, the k-th entry is the k-th tag's term |
| `ChatSession.AppendTurn` | app.py:349-378 | appending a user prompt and a reply tagged from it keeps the history well formed, and the replayed analytics record grows by exactly that turn |
| `ChatSession.HistoryStatsPerTurn` | app.py:280-286 | replaying an alternating history counts one query per turn; each of the three per-turn logs (latencies, confidences, query types) has one entry per turn, and the k-th entry comes from the k-th reply |
| `ChatSession.ReplayedEntitiesFound` | app.py:283 | the replayed `entities_found` log contains a term iff some reply in the history was tagged with that term |
| `ChatSession.LoggedStatsMatchPrompts` | app.py:280-286 | in a well-formed history the k-th logged query type is the intent of the k-th prompt, and the k-th confidence is the score of that prompt's tag count |
| `ChatSession.ConfidenceRange` | app.py:285 | the per-turn confidence, in hundredths, lies in 85..163 and exceeds 100 exactly when six or more tags were found (it is never clamped) |
| `ChatSession.Analytics.constructor` | app.py:22-29 | the analytics record starts with zero queries and four empty logs |
| `ChatSession.Analytics.Update` | app.py:280-286 | `queries_processed` goes up by exactly 1; `entities_found` is extended by the tags' terms in order; the three other logs each get one new entry, the new query type being `intent`; nothing else changes |
| `ChatSession.Session.constructor` | app.py:19-29 | a new session has an empty history and an empty analytics record, and satisfies the session invariant |
| `ChatSession.Session.ProcessQuery` | app.py:396-411 | one turn appends exactly two messages: the user prompt, then the assistant reply whose tags and intent are `extract_entities` and `classify_intent` of that same prompt; analytics are updated by that turn; the invariant is kept |
| `ChatSession.Session.SubmitChatInput` | app.py:347-378 | an empty chat submission changes nothing; any other prompt is one turn as above |
| `ChatSession.Session.ClickSample` | app.py:393-411 | a sample button appends exactly its query's turn and records exactly that turn in the analytics, as submitting the query would |
| `ChatSession.FirstSampleQueryIntent` | app.py:386 | "How to navigate to GSMap ISRO Rain data?" is classified as navigation |
| `ChatSession.FirstSampleQueryNamesGsmap` | app.py:386 | that query is tagged PRODUCT GSMAP |
| `ChatSession.FirstSampleQueryNamesRain` | app.py:386 | that query is tagged PRODUCT RAIN |
| `ChatSession.SecondSampleQueryIntent` | app.py:387 | "Where can I find SST data on MOSDAC?" is classified as navigation |
| `ChatSession.SecondSampleQueryNamesSst` | app.py:387 | that query is tagged PRODUCT SST |
| `ChatSession.ThirdSampleQueryNamesInsat` | app.py:388 | "How to download INSAT-3D temperature data?" is tagged SATELLITE INSAT-3D |
| `ChatSession.ThirdSampleQueryNamesTemperature` | app.py:388 | that query is tagged PRODUCT TEMPERATURE |
| `ChatSession.FourthSampleQueryNamesChlorophyll` | app.py:389 | "What is the format of ocean chlorophyll data?" is tagged PRODUCT CHLOROPHYLL |
| `ChatSession.FifthSampleQueryIntent` | app.py:390 | "How to access restricted data on MOSDAC?" is classified as navigation |

## Design decisions

- Lower-casing is ASCII only: 'A'..'Z' map to 'a'..'z' and every other character is kept.
  Python's `str.lower` also folds non-ASCII letters; this model does not.
- Each chat message is a `Message` value. A user message holds only its content. An assistant
  message also holds its tags, its intent and its latency, which are the keys of the dictionary
  the source appends.
- The latency is an opaque `real`. It is only stored and appended, never computed with.
- The confidence score `0.85 + 0.03 * k` is kept as the integer number of hundredths `85 + 3k`.
  This gives the same ordering and the same lack of an upper clamp.
- `get_ai_response` is a function of two inputs: whether a model is configured, and the outcome
  of the one remote call (an answer with its elapsed time, or a raised error text).
- The typed-input path (app.py:349-378) and the sample-button path (app.py:396-411) run the same
  steps in the same order: append the user message, extract, classify, call the model, append the
  assistant message, update analytics. Both are modelled by the one method `ProcessQuery`. The
  typed path's display calls and the button path's `st.rerun` are left out.
- The navigation keyword list in the code is `navigate, find, where, how to get, access`. It has
  "how to get", not a bare "how to", so "How to download ..." is not navigation by that phrase.
  The model follows the code.
- `update_analytics` takes a `query` argument that it never uses. `Analytics.Update` keeps the
  parameter and ignores it in the same way.

## Left out

- Streamlit rendering is left out: page configuration, CSS, chat bubbles, sidebar widgets, the
  "system online" indicators and `st.rerun` carry no logic to check.
- `configure_gemini` is left out: the environment, secret-store and text-input credential chain,
  and the `genai` configuration, are I/O and foreign library calls. The model sees only its result,
  as the `configured` flag.
- The network call and the `time.time()` measurement in `get_ai_response` are left out: the call's
  outcome and its elapsed time are parameters. The prompt template sent to the model is not
  modelled.
- The averages in `display_analytics` are not modelled, because they are float display arithmetic.
- The "recent entities" list in `display_analytics` is not modelled, because `list(set(...))`
  gives it no defined order.
- Full Unicode case folding of `str.lower` is not modelled (see Design decisions).
- The sample-query lemmas prove only the tags and labels that can be shown by pointing at a
  keyword's position. That a tag is absent, or that the third and fourth sample queries get their
  labels, needs the substring test evaluated to false across a whole literal. Those facts are not
  stated.
- `EntityExtractor.ExtractEntities`: its contract gives the exact tag list (and through it
  `Extracted`), exact matching and the 26-tag bound. Output order is stated about `Extracted` in
  `ExtractedOrdered`, not repeated in the method's contract.
- `ChatSession.Session.SubmitChatInput`: the typed turn is modelled as one atomic step. In the
  source, Streamlit display calls (app.py:350-366) run between the user-message append
  (app.py:349) and the assistant-message append (app.py:369). A rerun triggered during the model
  call stops the script at one of them and leaves a user message with no reply and no analytics
  update. That interrupted state is not captured: `Session.Valid` rules it out. The button path
  (app.py:396-411) has no such calls between its appends.
