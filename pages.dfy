/**
 * The two Streamlit scripts, app.py and main.py, as handlers over the same
 * `Session` class; each script keeps its own session state. Rendering is
 * outside the model; `run_llm` and the clock are parameters: the handlers
 * receive the pipeline's answer, `None` when `run_llm` raised, and the two
 * readings taken before and after it.
 */
module Pages {
  import opened Wrappers
  import opened Timestamps
  import opened Turns
  import opened ChatSession

  /**
   * app.py's `if prompt:` block: a non-empty prompt records one turn. When
   * `run_llm` raises, the script stops before the appends and the session
   * is left as it was.
   */
  method AppSubmit(session: Session, prompt: string, response: Option<LlmResponse>, userTime: Stamp, assistantTime: Stamp)
    requires session.Valid()
    modifies session
    ensures session.Valid()
    ensures prompt == "" || response.None? ==> unchanged(session)
    ensures prompt != "" && response.Some? ==> session.turns == old(session.turns) + 1
    ensures prompt != "" && response.Some? ==> session.userPromptHistory == old(session.userPromptHistory) + [prompt]
    ensures prompt != "" && response.Some? ==>
              session.chatAnswersHistory == old(session.chatAnswersHistory) + [FormattedResponse(response.value)]
    ensures prompt != "" && response.Some? ==>
              session.chatHistory == old(session.chatHistory) + [Message(Human, prompt), Message(Ai, response.value.result)]
    ensures prompt != "" && response.Some? ==> session.timestamps == old(session.timestamps) + [(userTime, assistantTime)]
  {
    if prompt != "" && response.Some? {
      session.RecordTurn(prompt, response.value, userTime, assistantTime);
    }
  }

  /**
   * main.py's `if prompt:` block: the same turn recording, with naive clock
   * readings, and the same nothing-recorded outcome when `run_llm` raises.
   */
  method MainSubmit(session: Session, prompt: string, response: Option<LlmResponse>, userTime: Stamp, assistantTime: Stamp)
    requires session.Valid()
    modifies session
    ensures session.Valid()
    ensures prompt == "" || response.None? ==> unchanged(session)
    ensures prompt != "" && response.Some? ==> session.turns == old(session.turns) + 1
    ensures prompt != "" && response.Some? ==> session.userPromptHistory == old(session.userPromptHistory) + [prompt]
    ensures prompt != "" && response.Some? ==>
              session.chatAnswersHistory == old(session.chatAnswersHistory) + [FormattedResponse(response.value)]
    ensures prompt != "" && response.Some? ==>
              session.chatHistory == old(session.chatHistory) + [Message(Human, prompt), Message(Ai, response.value.result)]
    ensures prompt != "" && response.Some? ==> session.timestamps == old(session.timestamps) + [(userTime, assistantTime)]
  {
    if prompt != "" && response.Some? {
      session.RecordTurn(prompt, response.value, userTime, assistantTime);
    }
  }

  /**
   * app.py's reset control: shown only once the chat has an answer; pressing
   * it clears all four lists. Either way the lists end up empty whenever the
   * button is pressed, since an empty answer list means an empty session.
   */
  method AppResetButton(session: Session, pressed: bool)
    requires session.Valid()
    modifies session
    ensures session.Valid()
    ensures !pressed ==> unchanged(session)
    ensures pressed ==> session.turns == 0
    ensures pressed ==> session.userPromptHistory == [] && session.chatAnswersHistory == []
    ensures pressed ==> session.chatHistory == [] && session.timestamps == []
  {
    if session.chatAnswersHistory != [] && pressed {
      session.Reset();
    }
  }

  /** app.py's download control: the transcript, offered only once the chat has an answer. */
  method AppDownload(session: Session, strftime: int -> Rendering) returns (data: Option<string>)
    requires session.Valid()
    ensures data.Some? <==> session.chatAnswersHistory != []
    ensures data.Some? ==>
              data.value == Transcript(session.userPromptHistory, session.chatAnswersHistory, session.timestamps, strftime)
  {
    if session.chatAnswersHistory != [] {
      var text := session.ExportTranscript(strftime);
      data := Some(text);
    } else {
      data := None;
    }
  }
}
