# YouTubeLLM session state, in Dafny

YouTubeLLM is a one-page Streamlit app. The user enters an OpenAI API key, then a YouTube URL.
The app loads the video's transcript, asks a chat model for a summary, and then runs a
question-and-answer chat about the video. Everything the app remembers lives in
`st.session_state`: the message list, the `llm` client handle, the `summary`, the `query` flag
and the chat text-box values `temp_input` and `temp_input_saved`. This project models that
record and the handlers that change it. Each handler is modelled as one atomic method call.
A chat-screen run can go through two of them: `ChatRun` models that run as a whole.

- `wrappers.dfy` (`Wrappers`): `Option` for a session key that may be unset. `Outcome`
  for a foreign call that returns a value or raises.
- `turns.dfy` (`Turns`): the message variants (`SystemMessage`, `HumanMessage`, `AIMessage`,
  `HumanMessagePromptTemplate`), the system prompt, and the intake prompt text. Also the
  first-document rule of the transcript loader.
- `history.dfy` (`History`): the chat screen's history panel. `Shown` is its specification.
  `RenderHistory` is the loop over `messages[::-1]`.
- `session.dfy` (`App`): the screen dispatch and the `Session` class. The class has one method
  per handler. `Valid()` is the session invariant: the list starts with the system turn, a
  summary implies a client, and a pending query means the newest turn is a user question. Every
  handler preserves `Valid()`. Every handler states the exact new message list, which is always
  the old list plus zero, one or two turns. `Walkthrough` drives a session through all three
  screens. `RetryAfterFailedReply` shows a failed reply that a later empty Send answers.

The foreign calls are parameters:
- whether `ChatOpenAI(...)` construction succeeds is a `bool`;
- whether `HumanMessagePromptTemplate.from_template` accepts the intake text is a function
  from text to `bool` (it rejects, for instance, a lone brace);
- the YouTube transcript loader is a function from URL to `Outcome<seq<string>>`, one string per document;
- the chat model is a function from the whole message list to `Outcome<string>`.

Passing the message list to the model function is how the model records that each prompt is
built from every turn so far.

Behaviour that follows the code:
- In video intake, the prompt turn is appended before the model is called. If that call
  raises, the turn stays in the list and `summary` stays unset. Each failed retry therefore
  adds one more prompt turn.
- If `llm` were missing during intake, reading it raises inside the `try`. The model treats
  this like a failed call.
- Three failures happen before anything is appended, and nothing changes:
  - a load failure;
  - an empty document list (`docs[0]` raises);
  - a template text that `from_template` rejects.
- On the chat screen, only a successful submit reruns at once. After an empty submit the same
  run goes on to the reply step, so a query left pending by a failed reply is answered then.
- The reply step has no `try`. If the model call raises, the exception escapes (`Uncaught`).
  The message list and the pending `query` stay as they were, so the next run of the chat
  screen tries again.
- The intake turn is a prompt template, not a `HumanMessage`. The exact-type test of the
  history panel therefore never shows its content. Each such turn, and the system turn, still
  draws an empty bordered container (app.py:115).

## Model

| member | source | states |
|---|---|---|
| Turns.IntakeText | app.py:87-91 | the intake turn's text is the fixed head, then the whole transcript, then the fixed tail, at known positions |
| Turns.TranscriptOf | app.py:89 | any text it accepts is exactly the intake text of the transcript it returns |
| Turns.TranscriptRoundTrip | app.py:89 | the transcript is recovered exactly from the intake template text, so the template text embeds it in full |
| Turns.FirstTranscript | app.py:83-85 | a transcript is obtained exactly when the load succeeds with at least one document, and it is the first document's text |
| History.Shows | app.py:116-123 | one message shows at most one entry; it shows one exactly when it is an exact HumanMessage or AIMessage, and that entry carries its content |
| History.Shown | app.py:114-123 | the panel has at most one entry per message |
| History.RenderHistory | app.py:114-123 | the loop over the reversed list yields exactly the panel contents `Shown(messages)`, and it changes nothing |
| History.ShownIsFilteredReverse | app.py:114-123 | the panel is the message list reversed with only user and assistant turns kept |
| History.ShownConcat | app.py:114 | turns appended later are shown before all earlier ones |
| History.ShownAppend | app.py:114-123 | appending one turn puts its entry, if it has one, at the top of the panel and leaves the rest as it was |
| History.ShownMembership | app.py:116-121 | a user entry is shown if and only if a HumanMessage with that text is in the list; likewise for assistant entries and AIMessage |
| History.HiddenTurnsNotShown | app.py:116-123 | system turns and prompt-template turns add no entry to the panel |
| App.ScreenFor | app.py:166-171 | the key screen exactly when `llm` is unset, the video screen exactly when `llm` is set and `summary` is not, and the chat screen exactly when both are set |
| App.ScreenMonotone | app.py:166-171 | the screen depends only on whether `llm` and `summary` are set; when neither is removed the screen never moves back from chat to video to key |
| App.Session.constructor | app.py:46-54 | a new session holds only the system turn, no client, no summary and no pending query, and shows the key screen |
| App.Session.SetupApiKey | app.py:59-70 | an empty key, or a failed client construction, shows an error and leaves `llm` as it was; otherwise `llm` is the client for the configured model and the app reruns; nothing else changes |
| App.Session.SelectVideo | app.py:76-110 | an empty URL, a load failure, an empty document list or a template text that does not parse change nothing; otherwise the prompt turn embedding the transcript is appended; if the model then answers, its reply is appended as an assistant turn, `summary` is set and the chat screen follows; if not, only the prompt turn remains and `summary` stays unset; the panel gains only the reply |
| App.Session.TypeInput | app.py:132 | the chat text box holds what was typed |
| App.Session.ClearInput | app.py:125-127 | the saved input becomes the current input and the text box becomes empty |
| App.Session.Submit | app.py:135-147 | an empty saved input shows an error and changes nothing; otherwise exactly one user turn with that text is appended, `query` is set and the app reruns |
| App.Session.Send | app.py:125-147 | one press of Send: the box is cleared and its earlier text is submitted |
| App.Session.Reply | app.py:149-161 | with no pending query nothing happens; with one, the newest turn is the user's question, the model is given every turn, its reply is appended as one assistant turn and `query` is cleared; if the call raises, nothing changes |
| App.Session.ChatRun | app.py:113-161 | one chat-screen run: the panel shows the list as it was; a pressed Send with text appends the user turn and reruns; a pressed Send with an empty box reports its error; after that error, or with Send not pressed, the pending query, if any, is answered as in the reply step; without one the messages and the query stay as they were |

## Left out

- Streamlit rendering, CSS, widget markup and the success and error texts (app.py:13-40, 57-58, 73-75, 113-123 markup, 132-134). This is user-interface output. The panel model lists entries only, so the empty bordered container that each hidden turn draws (app.py:115) is not modelled.
- `st.rerun()` as a control transfer. Each handler returns a `Signal` instead. Each handler call is one atomic step, and a chat-screen run is `ChatRun`.
- The LangChain, OpenAI and YouTube calls (app.py:66, 83-84, 94-98, 151-155). These are foreign libraries. Their outcomes are parameters.
- The text produced by `ChatPromptTemplate.format()` (app.py:94-96, 151-153). The model function is given the message list instead. Formatting turns `{{` into `{` and raises on a `{name}` placeholder. A failure while formatting counts as a failure of the model call.
- Setting `OPENAI_API_KEY` in the process environment (app.py:63). This is process I/O. The client handle records the key it would read.
- App.Session.SelectVideo: `summary` holds the reply text, not the whole response object. The app only tests whether the key is present.
- `temp_input_saved` is created lazily on the first chat-screen run (app.py:129-130). The model starts it as "" in the constructor. Nothing reads it before that run.
