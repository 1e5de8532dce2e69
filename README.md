# Deep research agent: request building, streaming with resumption, polling

This project models the command-line research agent in `deep_research.py`.

- **Building a request.** A research request is turned into two things: the prompt actually sent, with optional formatting instructions appended, and the tool list, which is a single file-search tool over the given stores.
- **Streaming.** The agent consumes a stream of typed events and tracks three things: the interaction id, the last event id seen and a completion flag. Text deltas and thought summaries are written out as they arrive. When the stream drops before a terminal event, the agent re-attaches to the same interaction from the last event id. It keeps doing this until an `interaction.complete` or `error` event is seen. It stops straight away when no interaction id was ever captured.
- **Polling.** The agent asks for the interaction's status until it is `completed` or `failed`.

Modules:

- `Wrappers` (`Wrappers.dfy`): `Option`, standing for Python's `None`.
- `Request` (`Request.dfy`): `ResearchRequest`, with `FinalPrompt` and `ToolsConfig`. Each builder has an inverse (`FormatOf`, `SearchedStores`) and a round-trip lemma.
- `Events` (`Events.dfy`): the event type and the tracking state as values. It also holds the specification of the event loop: `Step` is one iteration, `Fold` is one stream and `FoldAttempts` is the initial stream followed by the resumed ones. Lemmas describe the outcome of `Fold` independently of how it is computed:
  - which `interaction.start` wins;
  - which event id is kept;
  - when the stream counts as complete;
  - what text is written.

  A further lemma shows that resuming is transparent.
- `Agent` (`Agent.dfy`):
  - `StreamTracker` is a class. Its fields are the three single-element lists that `_process_stream` updates in place, plus the text written. Its `ProcessStream` loop is proved against `Fold`.
  - `DeepResearchAgent` has the reconnecting streaming run (`StartResearchStream`) and the polling run (`StartResearchPoll`). Both are loops proved against the specification functions.

The remote client is replaced by scripts of what it would deliver:

- the events of the initial stream;
- the events of each resumed stream, in order;
- the successive replies to status requests.

A stream that a transport failure cuts short is just a shorter event list. The source's `except` clauses only print, and the loop condition does not depend on how a stream ended. The source retries without bound, and a script is finite. In the polling run a create or status request that raises is scripted as `None`. When a script runs out while the run would still go on, the run reports `scriptExhausted` (streaming) or `Exhausted` (polling). When it stops for the source's own reasons, its postconditions give the exit condition.

Facts about the code that the model keeps:

- `deep_research.py` has no tree orchestrator, session store, liveness reconciliation or adoption protocol. The tests import such names, but nothing defines them.
- When the interaction starts, the code only records the interaction id. It does not persist it anywhere.
- Every event that carries an event id updates the last event id, content deltas included. A delta therefore leaves the interaction id and the completion flag alone, but it can move the last event id (`Events.DeltaKeepsTracking`).
- The streaming run catches every exception and retries. The polling run catches none: a create or status request that raises ends it, and only `main` catches the exception.

## Model

| member | source | states |
|---|---|---|
| `Request.EffectiveFormat` | deep_research.py:32 | Formatting instructions take effect exactly when `output_format` is present and non-empty (Python truthiness). |
| `Request.FinalPrompt` | deep_research.py:30-34 | The prompt is always a prefix of the result. The result equals the prompt exactly when no formatting takes effect. Otherwise what follows the prompt is the separator `"\n\nFormat the output as follows: "` and then the format. |
| `Request.FormatRoundTrip` | deep_research.py:31-34 | The formatting instructions in effect can be read back from the final prompt (`FormatOf` inverts `FinalPrompt`). |
| `Request.FinalPromptDeterminesFormat` | deep_research.py:31-34 | For the same prompt, two requests produce the same final prompt if and only if their formatting instructions in effect are the same. |
| `Request.ToolsConfig` | deep_research.py:36-43 | The result is `None` exactly when `stores` is absent or empty. Otherwise it is a one-entry list whose type is `file_search` and which carries `stores` unchanged. |
| `Request.StoresRoundTrip` | deep_research.py:37-43 | The tool list searches exactly the requested stores, in order, and nothing else (none when no stores are given). |
| `Events.FoldAppend` | deep_research.py:56-75 | Consuming two streams one after the other gives the same result as consuming their concatenation. |
| `Events.ResumeIsTransparent` | deep_research.py:104-119 | Suppose the initial stream and every resumed stream are consumed in turn. The tracking state and the text written are then those of one uninterrupted stream made of all their events. |
| `Events.FoldInteractionId` | deep_research.py:58-59 | Afterwards the interaction id is that of the last `interaction.start` event. If there is no such event, it is unchanged. |
| `Events.FoldLastEventId` | deep_research.py:63-64 | Afterwards the last event id is that of the last event carrying a non-empty id. Events without one never clear it, and a held id is never lost. |
| `Events.FoldIsComplete` | deep_research.py:73-75 | Afterwards the stream is complete if and only if it already was, or some event was `interaction.complete` or `error`. It is never reset. |
| `Events.FoldOutput` | deep_research.py:66-71 | The text written is the earlier text followed by each event's own text, in stream order. |
| `Events.DeltaKeepsTracking` | deep_research.py:56-75 | A content delta changes neither the interaction id nor the completion flag. It changes the last event id only through its own event id. |
| `Events.EmittedByKind` | deep_research.py:67-71 | Only content deltas write text: a text delta writes its text verbatim, a thought summary writes `"\n[THOUGHT] "` + text + newline, and any other delta writes nothing. |
| `Events.TextThenThought` | tests/test_integration.py:56-77 | A text delta `"Hello "` then a thought summary `"Thinking..."`, neither carrying an event id, write both texts in order and leave the tracking state untouched. (In the test the events are mocks whose truthy `event_id` would also set the last event id.) |
| `Agent.ResumesFollowExtend` | deep_research.py:109-119 | Adding one resume request made from a state that still needs resuming keeps every resume request matched to the state it was made from. |
| `Agent.FinalOutcome` | deep_research.py:146-152 | A `completed` reply ends with its last output as the report, or fails to read one when there are no outputs. A `failed` reply ends without a report. Both carry the reply's id. |
| `Agent.EndOutcome` | deep_research.py:144-152 | The reply that ends polling is a raising status request (the run ends with the exception) or a final reply, whose outcome is `FinalOutcome`. |
| `Agent.StreamTracker.constructor` | deep_research.py:86-88 | Tracking starts with no interaction id, no event id, not complete and no text written. |
| `Agent.StreamTracker.ProcessStream` | deep_research.py:54-75 | The new state is `Fold` of the old state over all the events: processing does not stop at a terminal event. The method also restates the characterisations of the interaction id, the last event id, completion and the text written. |
| `Agent.DeepResearchAgent.StartResearchStream` | deep_research.py:77-126 | The create call carries the final prompt, the tool list, `background` and `stream` set, and the deep-research agent config. Each resume request carries the current interaction id and last event id, and is made only while the run is incomplete and holds an interaction id. It reports that the script ran out exactly when the final state still wants resuming. Otherwise it is complete or holds no interaction id. An initial stream with no `interaction.start` leads to no resume and returns `None`. The returned id is the one held at the end. |
| `Agent.DeepResearchAgent.StartResearchPoll` | deep_research.py:128-158 | The create call carries the final prompt and the tool list, with `background` set and no streaming. If the create call raises, no status request is made and the run ends with the failure. The first status request names the created interaction, and each later one names the interaction from the previous reply. Polling goes on exactly while every request succeeds with a status other than `completed` or `failed`. It ends at the first request that raises, or with the outcome of the first final reply, whose id is returned. |

## Left out

- The remote client (`genai.Client`, `interactions.create` and `interactions.get`) is replaced by scripts of delivered events and status replies. The model records the arguments of each call instead of making it.
- Exceptions raised inside a stream are modelled only as "this stream ended early", because the handlers only print. In the polling run a raising request is modelled as an outcome, not as the exception's contents. An error while reading an event's fields is not modelled.
- `time.sleep` backoff and polling intervals are left out: they carry no behaviour.
- The `[INFO]`, `[WARN]` and `[ERROR]` lines and the progress dots are diagnostic output and are not modelled. The report banner and the report print of the polling run are modelled as the returned report.
- `DeepResearchAgent.StartResearchStream` stops when the script of resumed streams runs out (`scriptExhausted`), whereas the source would retry forever. Likewise `DeepResearchAgent.StartResearchPoll` reports `Exhausted` when the replies run out.
- `DeepResearchConfig` is not modelled. It reads the API key from the environment and raises when it is missing. The agent name is a constructor parameter of `DeepResearchAgent` instead.
- `follow_up` is a single remote call and is not modelled.
- `main` (argument parsing) and the text UI (`tui/app.py`, `tui/widgets.py`) are not modelled.
- The tests import a session manager, a file manager, a data exporter and recursive research with gap analysis and synthesis. None of these exists in `deep_research.py`, so they are not part of this model.
