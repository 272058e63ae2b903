# Chat transcript state machine of the RAG test-case assistant

The script `aiSearch.py` is a Streamlit chat front-end that forwards questions to
an Azure OpenAI chat deployment, first with an Azure AI Search index attached as
a data source (retrieval-augmented generation, "RAG") and, if that fails or the
reply says nothing was found, a second time without it. This project models the
part of the script that is logic rather than plumbing: the transcript kept in
the session state and what one user turn does to it.

- `strings.dfy`, module `Strings`: the lowering of a reply (ASCII letters only)
  and Python's substring test `sub in s`, as a left-to-right scan proved equal to
  "occurs at some index".
- `transcript.dfy`, modules `Wrappers` (an `Option`) and `Transcript`: roles and
  messages, the system prompt, the invariant "exactly one system message, first",
  the one-time initialisation and the history display filter.
- `turn.dfy`, module `ChatTurn`: a remote call is an abstract `Outcome` (`Fail`
  when the call raises, `Ok(text)` with the reply's content); the fallback
  predicate; what a turn appends (`Appended`), which requests it sends
  (`Requests`, each with its message list and a flag saying whether the search
  data source was attached) and whether it ends in an uncaught error (`Raises`);
  and the lemmas about them.
- `session.dfy`, module `ChatSession`: class `Session`, whose field `messages`
  is the session-state entry (absent until the first run), with methods for the
  initialisation, the history loop, the turn (which appends to the stored
  transcript step by step, as the script does) and a whole run of the script.
  Each method is proved against the functions of `Transcript` and `ChatTurn`.

Where the behaviour is surprising, the model follows the code. On a soft miss,
the primary reply is appended (aiSearch.py:80) before the marker test
(aiSearch.py:83) raises into the except branch, and the fallback request is
sent a transcript that already ends with the primary reply. So a soft-miss turn
whose fallback call returns adds two assistant messages, not one; if the
fallback raises, the primary reply is the only one kept. `SoftMiss` and
`AssistantRepliesPerTurn` state this.

## Model

| member | source | states |
|---|---|---|
| Strings.Lower | aiSearch.py:83 | the lowered reply has the same length, each character is the lowered original, and no ASCII capital is left |
| Strings.LowerSlice | aiSearch.py:83 | lowering a slice of a reply gives the same slice of the lowered reply |
| Strings.LowerNoCapitals | aiSearch.py:83 | a string with no ASCII capital is unchanged by lowering |
| Strings.Contains | aiSearch.py:83 | definition of Python's `sub in s`: false when `sub` is longer than `s`, true when `s` starts with `sub`, otherwise the same test on `s` without its first character |
| Strings.ContainsIff | aiSearch.py:83 | the substring test `sub in s` holds exactly when `sub` occurs in `s` at some index |
| Transcript.WellFormed | aiSearch.py:29-39 | definition of the transcript invariant: at least one message, the first a system message, no system message after it |
| Transcript.Initialized | aiSearch.py:29-39 | definition of the transcript after lines 29-39: the single system message when no transcript is stored, the stored one unchanged otherwise |
| Transcript.WellFormedIff | aiSearch.py:29-39 | a transcript has its system message first and no other exactly when it starts with a system message and holds exactly one |
| Transcript.InitializedWellFormed | aiSearch.py:29-39 | the transcript after initialisation, fresh or stored, is well formed and holds exactly one system message |
| Transcript.Displayed | aiSearch.py:42-46 | the displayed history consists exactly of the user and assistant messages of the transcript and holds no system message |
| Transcript.DisplayedConcat | aiSearch.py:42-46 | the display of a concatenation is the display of the first part followed by that of the second, so order is preserved |
| Transcript.DisplayedAllShown | aiSearch.py:42-46 | a list of user and assistant messages is displayed unchanged |
| Transcript.DisplayedWellFormed | aiSearch.py:42-46 | of a well-formed transcript, everything but the leading system message is displayed, in order |
| ChatTurn.FallbackTriggered | aiSearch.py:83 | definition of the soft-miss test: the lowered reply contains "not found" or contains "찾지 못했습니다" |
| ChatTurn.NeedsFallback | aiSearch.py:71-86 | definition of reaching the except branch: the primary call raised, or it returned a reply that passes the soft-miss test |
| ChatTurn.PrimaryAppended | aiSearch.py:52-80 | definition of what the try block appends: the user message, then the primary reply if the call returned |
| ChatTurn.Appended | aiSearch.py:52-93 | definition of what a turn appends: the user message, the primary reply if the call returned, the fallback reply if the except branch ran and the call returned |
| ChatTurn.Requests | aiSearch.py:52-90 | definition of the requests a turn sends: the transcript ending in the user message with the data source, then, if the except branch ran, the transcript as it stands then without the data source |
| ChatTurn.Raises | aiSearch.py:86-93 | definition of the uncaught error: the except branch ran and the fallback call raised |
| ChatTurn.FallbackTriggeredIff | aiSearch.py:83-84 | the fallback fires on a returned reply if and only if the lowered reply contains "not found" or "찾지 못했습니다" |
| ChatTurn.NotFoundAnyCase | aiSearch.py:83 | any spelling of "not found" in the reply that lowers to the marker triggers the fallback |
| ChatTurn.LowerKoreanMarker | aiSearch.py:83 | lowering leaves the Korean marker unchanged |
| ChatTurn.KoreanMarkerTriggers | aiSearch.py:83 | the Korean marker anywhere in the reply as returned triggers the fallback |
| ChatTurn.TurnAppendsOnly | aiSearch.py:52-93 | the old transcript is a prefix of the new one, the next message is the user message, the system message stays at index 0 and remains the only one, and the new display is the old display followed by the appended messages |
| ChatTurn.AssistantRepliesPerTurn | aiSearch.py:78-93 | a turn appends one user message and as many assistant messages as calls returned a reply that is kept: 1 for a reply without marker, 2 on a soft miss whose fallback returns, 1 on a soft miss whose fallback raises, 1 when the primary raises and the fallback returns, 0 when both raise |
| ChatTurn.RequestsOfTurn | aiSearch.py:52-90 | one or two requests; two exactly when the fallback is needed; the first carries the data source and ends with the user message; the second carries none and extends the first's message list |
| ChatTurn.PrimaryAnswers | aiSearch.py:73-84 | a returned reply without a marker is the one assistant message, no fallback call is made and the turn does not fail |
| ChatTurn.SoftMiss | aiSearch.py:78-93 | on a soft miss the primary reply stays in the transcript, the fallback request ends with it, the fallback reply follows as a second assistant message, and a raised fallback ends the turn in error |
| ChatTurn.PrimaryFails | aiSearch.py:71-93 | when the primary call raises nothing of it is appended, the fallback request is the same transcript without the data source, and the fallback reply, if any, is the only assistant message |
| ChatSession.HasInput | aiSearch.py:49 | definition of the truthiness test on the chat input: something was submitted and it is not the empty string |
| ChatSession.Session.constructor | aiSearch.py:29 | a new browser session holds no transcript |
| ChatSession.Session.EnsureTranscript | aiSearch.py:29-39 | the transcript becomes the single system message when absent and is left as it is when present; the invariant holds afterwards |
| ChatSession.Session.History | aiSearch.py:42-46 | the loop renders exactly the displayed history of the stored transcript |
| ChatSession.Session.Turn | aiSearch.py:51-93 | the stored transcript becomes the old one followed by the turn's appended messages, the requests sent and the uncaught error are those of the turn, and the invariant is kept |
| ChatSession.Session.Run | aiSearch.py:29-93 | a run initialises, renders the history of the initialised transcript, and makes a turn only when there is non-empty input; without input nothing is appended and no request is made |
| ChatSession.InitializeTwice | aiSearch.py:29-39 | on a new session a second initialisation leaves the transcript of the first, the single system message, so reruns never duplicate it |
| ChatSession.RerunScenario | aiSearch.py:29-93 | a run without input then a soft-miss turn answered by the fallback leave the system message, the question and both replies, with one system message |

## Left out

- Loading of the environment and secrets (aiSearch.py:7-15) and the construction of the Azure OpenAI client (aiSearch.py:18-22): configuration and I/O.
- The remote chat-completion calls themselves (aiSearch.py:73-77, 87-90): each is an `Outcome` parameter. Every exception from the call or from reading `choices[0].message.content` is the one outcome `Fail`.
- The content of the search configuration (aiSearch.py:55-69): a request records only whether the data source was attached.
- All Streamlit rendering (page setup, title, `st.chat_message(...).markdown`, the input widget): UI side effects. Only which messages the history loop shows is modelled; an exception raised by the rendering itself is not modelled.
- Lower: maps only ASCII 'A'..'Z', while Python's `str.lower` folds all Unicode letters (and may change a string's length). For the two tests of aiSearch.py:83 this makes no difference. The Korean marker has no cased letters. For "not found", the only non-ASCII characters whose `str.lower()` contains ASCII are U+0130 (lowered to "i" followed by U+0307) and U+212A (lowered to "k"), and neither "i" nor "k" is a letter of "not found".
- A reply whose content is `None`: replies are modelled as strings.
- Streamlit's rerun loop: `Run` is one execution of the script; successive runs are successive calls on the same `Session`.
- The markdown-table extractor, the spreadsheet export and the test-code generator mode are not part of this model.
