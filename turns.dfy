/** The conversation turns the app keeps in `st.session_state.messages` (app.py). */
module Turns {
  import opened Wrappers

  /** One entry of the message list, tagged by the LangChain class the app builds it with. */
  datatype Message =
    | System(content: string)          // SystemMessage
    | Human(content: string)           // HumanMessage
    | Ai(content: string)              // AIMessage
    | HumanTemplate(template: string)  // HumanMessagePromptTemplate

  /** The instruction the message list starts with (app.py:48-50). */
  const SystemPrompt: string :=
    "You are a helpful assistant designed to summarize and answer questions about YouTube videos."

  /** The fixed text around the transcript in the intake prompt (app.py:89). */
  const IntakeHead: string := "Given the following video transcript:\n"
  const IntakeTail: string := "\nSummarize the video."

  /** The template text of the turn that asks for a summary: the whole transcript between the fixed head and tail. */
  function IntakeText(transcript: string): (r: string)
    ensures |r| == |IntakeHead| + |transcript| + |IntakeTail|
    ensures r[..|IntakeHead|] == IntakeHead
    ensures r[|IntakeHead|..|IntakeHead| + |transcript|] == transcript
    ensures r[|IntakeHead| + |transcript|..] == IntakeTail
  {
    IntakeHead + transcript + IntakeTail
  }

  /** Reads the transcript back out of an intake prompt, if the text has that shape. */
  ghost function TranscriptOf(text: string): (r: Option<string>)
    ensures r.Some? ==> IntakeText(r.value) == text
  {
    if |text| >= |IntakeHead| + |IntakeTail|
       && text[..|IntakeHead|] == IntakeHead
       && text[|text| - |IntakeTail|..] == IntakeTail
    then
      var t := text[|IntakeHead|..|text| - |IntakeTail|];
      assert IntakeHead + t + IntakeTail == text by {
        assert text == text[..|IntakeHead|] + t + text[|text| - |IntakeTail|..];
      }
      Some(t)
    else None
  }

  /** The intake prompt embeds the transcript so that it can be recovered exactly. */
  lemma TranscriptRoundTrip(transcript: string)
    ensures TranscriptOf(IntakeText(transcript)) == Some(transcript)
  {
  }

  /** The first document's text of a transcript load (app.py:84-85): `docs[0]` raises on an empty list. */
  function FirstTranscript(loaded: Outcome<seq<string>>): (r: Option<string>)
    ensures r.Some? <==> loaded.Ok? && |loaded.value| > 0
    ensures r.Some? ==> r.value == loaded.value[0]
  {
    match loaded
    case Raised => None
    case Ok(docs) => if |docs| == 0 then None else Some(docs[0])
  }
}
