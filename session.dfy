/** The session state of the app and the handlers that change it (app.py:42-171). */
module App {
  import opened Wrappers
  import opened Turns
  import opened History

  /** The chat model the client is configured with (app.py:43). */
  const OpenAiModel: string := "gpt-4o-mini"

  /** The chat-completion client handle: its model, and the key it reads from the environment. */
  datatype Client = Client(model: string, apiKey: string)

  /** The three screens of the top-level dispatch. */
  datatype Screen = KeyScreen | VideoScreen | ChatScreen

  /** The dispatch at app.py:166-171: which keys are present in the session decides the screen. */
  function ScreenFor(hasLlm: bool, hasSummary: bool): (s: Screen)
    ensures s == KeyScreen <==> !hasLlm
    ensures s == VideoScreen <==> hasLlm && !hasSummary
    ensures s == ChatScreen <==> hasLlm && hasSummary
  {
    if !hasLlm then KeyScreen
    else if !hasSummary then VideoScreen
    else ChatScreen
  }

  /** Position of a screen in the progression key -> video -> chat. */
  function Stage(s: Screen): (n: nat)
  {
    match s
    case KeyScreen => 0
    case VideoScreen => 1
    case ChatScreen => 2
  }

  /** Since neither `llm` nor `summary` is ever removed, the shown screen never moves backwards. */
  lemma ScreenMonotone(hadLlm: bool, hadSummary: bool, hasLlm: bool, hasSummary: bool)
    requires hadLlm ==> hasLlm
    requires hadSummary ==> hasSummary
    ensures Stage(ScreenFor(hadLlm, hadSummary)) <= Stage(ScreenFor(hasLlm, hasSummary))
  {
  }

  /** How a handler ends: `st.rerun()`, an `st.error` message, nothing, or an exception that escapes. */
  datatype Signal = Rerun | ErrorShown | Idle | Uncaught

  /** `st.session_state` for one browser session. */
  class Session {
    var messages: seq<Message>
    var llm: Option<Client>
    var summary: Option<string>
    var query: bool
    var tempInput: string       // the chat text box, key "temp_input"
    var tempInputSaved: string  // the input copied away by clear_input

    /** The session invariant: the list starts with the system turn; a summary needs a client;
        a pending query means the newest turn is the user's question and the chat screen is up. */
    ghost predicate Valid()
      reads this
    {
      |messages| >= 1 && messages[0] == System(SystemPrompt)
      && (summary.Some? ==> llm.Some?)
      && (query ==> summary.Some? && messages[|messages| - 1].Human?)
    }

    /** The screen the dispatch shows for this session. */
    function CurrentScreen(): (s: Screen)
      reads this
    {
      ScreenFor(llm.Some?, summary.Some?)
    }

    /** First access to the session (app.py:46-54, 129-130). */
    constructor ()
      ensures Valid()
      ensures messages == [System(SystemPrompt)]
      ensures llm == None && summary == None && !query
      ensures tempInput == "" && tempInputSaved == ""
      ensures CurrentScreen() == KeyScreen
    {
      messages := [System(SystemPrompt)];
      llm := None;
      summary := None;
      query := false;
      tempInput := "";
      tempInputSaved := "";
    }

    /** Pressing "Validate" with `key` typed in (app.py:59-70); `constructs` says whether
        building the ChatOpenAI client succeeds. Only `llm` can change. */
    method SetupApiKey(key: string, constructs: bool) returns (signal: Signal)
      requires Valid()
      modifies this`llm
      ensures Valid()
      ensures key == "" ==> signal == ErrorShown && llm == old(llm)
      ensures key != "" && !constructs ==> signal == ErrorShown && llm == old(llm)
      ensures key != "" && constructs ==> signal == Rerun && llm == Some(Client(OpenAiModel, key))
      ensures old(llm).Some? ==> llm.Some?
      ensures Stage(old(CurrentScreen())) <= Stage(CurrentScreen())
    {
      if key == "" {
        signal := ErrorShown;
      } else if constructs {
        llm := Some(Client(OpenAiModel, key));
        signal := Rerun;
      } else {
        signal := ErrorShown;
      }
    }

    /** Pressing "Summarize & Ask Questions" with `url` typed in (app.py:76-110). `load` is the
        transcript loader, `parses` says whether `HumanMessagePromptTemplate.from_template`
        accepts a text, and `invoke` is the chat model, which is given the whole message list.
        The prompt turn is appended before the model is called and stays if that call raises. */
    method SelectVideo(url: string, load: string -> Outcome<seq<string>>, parses: string -> bool,
                       invoke: seq<Message> -> Outcome<string>) returns (signal: Signal)
      requires Valid()
      requires summary == None
      modifies this`messages, this`summary
      ensures Valid()
      ensures url == "" ==> signal == ErrorShown && messages == old(messages) && summary == None
      ensures url != "" && FirstTranscript(load(url)) == None ==>
        signal == ErrorShown && messages == old(messages) && summary == None
      ensures url != "" && FirstTranscript(load(url)).Some?
              && !parses(IntakeText(FirstTranscript(load(url)).value)) ==>
        signal == ErrorShown && messages == old(messages) && summary == None
      ensures url != "" && FirstTranscript(load(url)).Some?
              && parses(IntakeText(FirstTranscript(load(url)).value)) ==>
        var prompt := old(messages) + [HumanTemplate(IntakeText(FirstTranscript(load(url)).value))];
        if llm.Some? && invoke(prompt).Ok? then
          signal == Rerun
          && messages == prompt + [Ai(invoke(prompt).value)]
          && summary == Some(invoke(prompt).value)
          && Shown(messages) == [AssistantEntry(invoke(prompt).value)] + Shown(old(messages))
          && CurrentScreen() == ChatScreen
        else
          signal == ErrorShown && messages == prompt && summary == None
          && Shown(messages) == Shown(old(messages))
      ensures Stage(old(CurrentScreen())) <= Stage(CurrentScreen())
    {
      if url == "" {
        return ErrorShown;
      }
      var transcript := FirstTranscript(load(url));
      if transcript == None {
        return ErrorShown;
      }
      if !parses(IntakeText(transcript.value)) {
        return ErrorShown;
      }
      var turn := HumanTemplate(IntakeText(transcript.value));
      ShownAppend(messages, turn);
      messages := messages + [turn];
      if llm == None {
        return ErrorShown;
      }
      var response := invoke(messages);
      if response.Raised? {
        return ErrorShown;
      }
      ShownAppend(messages, Ai(response.value));
      messages := messages + [Ai(response.value)];
      summary := Some(response.value);
      signal := Rerun;
    }

    /** Typing into the chat text box (app.py:132). */
    method TypeInput(text: string)
      requires Valid()
      modifies this`tempInput
      ensures Valid()
      ensures tempInput == text
    {
      tempInput := text;
    }

    /** The "Send" button's on_click callback (app.py:125-127). */
    method ClearInput()
      requires Valid()
      modifies this`tempInput, this`tempInputSaved
      ensures Valid()
      ensures tempInputSaved == old(tempInput)
      ensures tempInput == ""
    {
      tempInputSaved := tempInput;
      tempInput := "";
    }

    /** The body under the "Send" button (app.py:136-147): the saved input becomes a user turn. */
    method Submit() returns (signal: Signal)
      requires Valid()
      requires summary.Some?
      modifies this`messages, this`query
      ensures Valid()
      ensures tempInputSaved == "" ==> signal == ErrorShown && messages == old(messages) && query == old(query)
      ensures tempInputSaved != "" ==>
        signal == Rerun
        && messages == old(messages) + [Human(tempInputSaved)]
        && query
        && Shown(messages) == [UserEntry(tempInputSaved)] + Shown(old(messages))
    {
      if tempInputSaved == "" {
        signal := ErrorShown;
      } else {
        ShownAppend(messages, Human(tempInputSaved));
        messages := messages + [Human(tempInputSaved)];
        query := true;
        signal := Rerun;
      }
    }

    /** One press of "Send": the callback runs first, then the button body sees the copied text. */
    method Send() returns (signal: Signal)
      requires Valid()
      requires summary.Some?
      modifies this`tempInput, this`tempInputSaved, this`messages, this`query
      ensures Valid()
      ensures tempInput == "" && tempInputSaved == old(tempInput)
      ensures old(tempInput) == "" ==> signal == ErrorShown && messages == old(messages) && query == old(query)
      ensures old(tempInput) != "" ==>
        signal == Rerun && messages == old(messages) + [Human(old(tempInput))] && query
    {
      ClearInput();
      signal := Submit();
    }

    /** The reply step at the end of the chat screen (app.py:149-161). The model is given every
        turn, the newest user question included. The call is not guarded: if it raises,
        nothing changes and the query stays pending. */
    method Reply(invoke: seq<Message> -> Outcome<string>) returns (signal: Signal)
      requires Valid()
      modifies this`messages, this`query
      ensures Valid()
      ensures old(query) ==> old(messages)[|old(messages)| - 1].Human?
      ensures !old(query) ==> signal == Idle && messages == old(messages) && !query
      ensures old(query) && invoke(old(messages)).Ok? ==>
        signal == Rerun
        && messages == old(messages) + [Ai(invoke(old(messages)).value)]
        && !query
        && Shown(messages) == [AssistantEntry(invoke(old(messages)).value)] + Shown(old(messages))
      ensures old(query) && invoke(old(messages)).Raised? ==>
        signal == Uncaught && messages == old(messages) && query
    {
      if !query {
        return Idle;
      }
      var response := invoke(messages);
      if response.Raised? {
        return Uncaught;
      }
      ShownAppend(messages, Ai(response.value));
      messages := messages + [Ai(response.value)];
      query := false;
      signal := Rerun;
    }

    /** One run of the chat screen (app.py:113-161). The history panel is drawn from the list as
        it stands. If Send was pressed, its body runs and `sent` is its signal; only a successful
        submit reruns at once. Otherwise the run goes on to the reply step, whose signal is `reply`,
        so an empty submit shows its error and still answers a pending query. */
    method ChatRun(pressed: bool, invoke: seq<Message> -> Outcome<string>)
      returns (shown: seq<Entry>, sent: Signal, reply: Signal)
      requires Valid()
      requires summary.Some?
      modifies this`tempInput, this`tempInputSaved, this`messages, this`query
      ensures Valid()
      ensures shown == Shown(old(messages))
      ensures pressed ==> tempInput == "" && tempInputSaved == old(tempInput)
      ensures !pressed ==> sent == Idle && tempInput == old(tempInput) && tempInputSaved == old(tempInputSaved)
      ensures pressed && old(tempInput) == "" ==> sent == ErrorShown
      ensures pressed && old(tempInput) != "" ==>
        sent == Rerun && reply == Idle && messages == old(messages) + [Human(old(tempInput))] && query
      ensures (!pressed || old(tempInput) == "") && !old(query) ==>
        reply == Idle && messages == old(messages) && !query
      ensures (!pressed || old(tempInput) == "") && old(query) && invoke(old(messages)).Ok? ==>
        reply == Rerun && messages == old(messages) + [Ai(invoke(old(messages)).value)] && !query
      ensures (!pressed || old(tempInput) == "") && old(query) && invoke(old(messages)).Raised? ==>
        reply == Uncaught && messages == old(messages) && query
    {
      shown := RenderHistory(messages);
      sent := Idle;
      if pressed {
        sent := Send();
        if sent == Rerun {
          return shown, sent, Idle;
        }
      }
      reply := Reply(invoke);
    }
  }

  /** A session driven through the three screens with stand-in answers from the foreign calls. */
  method Walkthrough()
  {
    var s := new Session();
    var signal := s.SetupApiKey("", true);
    assert signal == ErrorShown && s.CurrentScreen() == KeyScreen;

    signal := s.SetupApiKey("sk-test", true);
    assert signal == Rerun && s.CurrentScreen() == VideoScreen;

    var load := (url: string) => if url == "abc123" then Ok(["Hello world"]) else Raised;
    var invoke := (prompt: seq<Message>) => Ok("This video says hello.");
    var parses := (text: string) => true;
    signal := s.SelectVideo("", load, parses, invoke);
    assert signal == ErrorShown && |s.messages| == 1;

    assert FirstTranscript(load("abc123")) == Some("Hello world");
    signal := s.SelectVideo("abc123", load, parses, invoke);
    assert |s.messages| == 3 && s.CurrentScreen() == ChatScreen;
    assert s.messages[1] == HumanTemplate(IntakeText("Hello world"));
    assert s.messages[2] == Ai("This video says hello.");

    s.TypeInput("What language?");
    var shown, reply;
    shown, signal, reply := s.ChatRun(true, invoke);
    assert |s.messages| == 4 && s.messages[3] == Human("What language?") && s.query;
    assert signal == Rerun;

    shown, signal, reply := s.ChatRun(false, invoke);
    assert |s.messages| == 5 && !s.query && s.messages[0] == System(SystemPrompt);
  }

  /** On the chat screen: a reply that raises leaves the question pending, and the next run
      that presses Send with an empty box shows the error and then answers it; with nothing
      pending, an empty Send only shows the error. */
  method RetryAfterFailedReply(s: Session)
    requires s.Valid() && s.summary.Some? && !s.query
    modifies s
  {
    var failing := (prompt: seq<Message>) => Raised;
    var answering := (prompt: seq<Message>) => Ok("It is in English.");
    ghost var before := s.messages;
    s.TypeInput("Who speaks?");
    var shown, sent, reply := s.ChatRun(true, failing);
    shown, sent, reply := s.ChatRun(false, failing);
    assert reply == Uncaught && s.messages == before + [Human("Who speaks?")] && s.query;
    shown, sent, reply := s.ChatRun(true, answering);
    assert sent == ErrorShown && reply == Rerun;
    assert s.messages == before + [Human("Who speaks?"), Ai("It is in English.")];
    assert !s.query;
    shown, sent, reply := s.ChatRun(true, answering);
    assert sent == ErrorShown && reply == Idle && !s.query;
  }
}
