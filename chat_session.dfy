/**
 * The chat session of app.py (and main.py): four parallel lists in the
 * Streamlit session state, appended to on every turn, cleared together on
 * reset, and serialised into the downloadable transcript.
 */
module ChatSession {
  import opened Timestamps
  import opened Turns

  /** The speaker of an entry of `chat_history`: `"human"` or `"ai"`. */
  datatype Role = Human | Ai

  /** An entry `(role, text)` of `chat_history`, the input of query rewriting. */
  datatype Message = Message(role: Role, text: string)

  /** `s.startswith(p)`. */
  predicate IsPrefix(p: string, s: string)
  {
    |p| <= |s| && s[..|p|] == p
  }

  /** `s.endswith(p)`. */
  predicate IsSuffix(p: string, s: string)
  {
    |p| <= |s| && s[|s| - |p|..] == p
  }

  /**
   * `f"User ({format_ts(user_ts)}): {user_msg}\n"`: the label with the
   * formatted timestamp, then the prompt and one newline.
   */
  function UserLine(prompt: string, ts: Stamp, strftime: int -> Rendering): (r: string)
    ensures IsPrefix("User (" + FormatTs(ts, strftime) + "): ", r)
    ensures IsSuffix(prompt + "\n", r)
    ensures |r| == |"User (" + FormatTs(ts, strftime) + "): "| + |prompt| + 1
  {
    var head := "User (" + FormatTs(ts, strftime) + "): ";
    var r := head + prompt + "\n";
    assert r[|r| - |prompt + "\n"|..] == prompt + "\n";
    r
  }

  /**
   * `f"Assistant ({format_ts(ai_ts)}): {assistant_msg}\n\n"`: the label with
   * the formatted timestamp, then the answer and a blank line.
   */
  function AssistantLine(answer: string, ts: Stamp, strftime: int -> Rendering): (r: string)
    ensures IsPrefix("Assistant (" + FormatTs(ts, strftime) + "): ", r)
    ensures IsSuffix(answer + "\n\n", r)
    ensures |r| == |"Assistant (" + FormatTs(ts, strftime) + "): "| + |answer| + 2
  {
    var head := "Assistant (" + FormatTs(ts, strftime) + "): ";
    var r := head + answer + "\n\n";
    assert r[|r| - |answer + "\n\n"|..] == answer + "\n\n";
    r
  }

  /** The two transcript lines of one turn, user first. */
  function Block(prompt: string, answer: string, stamps: (Stamp, Stamp), strftime: int -> Rendering): (r: string)
    ensures IsPrefix(UserLine(prompt, stamps.0, strftime), r)
    ensures IsSuffix(AssistantLine(answer, stamps.1, strftime), r)
    ensures |r| == |UserLine(prompt, stamps.0, strftime)| + |AssistantLine(answer, stamps.1, strftime)|
    ensures r != ""
  {
    var user := UserLine(prompt, stamps.0, strftime);
    var assistant := AssistantLine(answer, stamps.1, strftime);
    var r := user + assistant;
    assert r[..|user|] == user && r[|r| - |assistant|..] == assistant;
    r
  }

  /** The length of `zip(prompts, answers, stamps)`. */
  function ZipLength<A, B, C>(xs: seq<A>, ys: seq<B>, zs: seq<C>): (n: nat)
    ensures n <= |xs| && n <= |ys| && n <= |zs|
    ensures n == |xs| || n == |ys| || n == |zs|
  {
    if |xs| <= |ys| && |xs| <= |zs| then |xs| else if |ys| <= |zs| then |ys| else |zs|
  }

  /** The blocks of the first `n` turns, in turn order. */
  function TranscriptUpTo(prompts: seq<string>, answers: seq<string>, stamps: seq<(Stamp, Stamp)>,
                          strftime: int -> Rendering, n: nat): (r: string)
    requires n <= |prompts| && n <= |answers| && n <= |stamps|
    ensures r == "" <==> n == 0
  {
    if n == 0 then ""
    else TranscriptUpTo(prompts, answers, stamps, strftime, n - 1)
         + Block(prompts[n - 1], answers[n - 1], stamps[n - 1], strftime)
  }

  /** A non-empty transcript opens with the first turn's block. */
  lemma {:induction false} TranscriptUpToStart(prompts: seq<string>, answers: seq<string>, stamps: seq<(Stamp, Stamp)>,
                                               strftime: int -> Rendering, n: nat)
    requires 0 < n <= |prompts| && n <= |answers| && n <= |stamps|
    ensures IsPrefix(Block(prompts[0], answers[0], stamps[0], strftime),
                     TranscriptUpTo(prompts, answers, stamps, strftime, n))
    decreases n
  {
    if n > 1 {
      TranscriptUpToStart(prompts, answers, stamps, strftime, n - 1);
      var earlier := TranscriptUpTo(prompts, answers, stamps, strftime, n - 1);
      var r := earlier + Block(prompts[n - 1], answers[n - 1], stamps[n - 1], strftime);
      var first := Block(prompts[0], answers[0], stamps[0], strftime);
      assert r[..|first|] == earlier[..|first|];
    }
  }

  /** A non-empty transcript closes with the last turn's block. */
  lemma TranscriptUpToEnd(prompts: seq<string>, answers: seq<string>, stamps: seq<(Stamp, Stamp)>,
                          strftime: int -> Rendering, n: nat)
    requires 0 < n <= |prompts| && n <= |answers| && n <= |stamps|
    ensures IsSuffix(Block(prompts[n - 1], answers[n - 1], stamps[n - 1], strftime),
                     TranscriptUpTo(prompts, answers, stamps, strftime, n))
  {
    var last := Block(prompts[n - 1], answers[n - 1], stamps[n - 1], strftime);
    var r := TranscriptUpTo(prompts, answers, stamps, strftime, n - 1) + last;
    assert r[|r| - |last|..] == last;
  }

  /** One more turn adds its user line and then its assistant line. */
  lemma TranscriptStep(prompts: seq<string>, answers: seq<string>, stamps: seq<(Stamp, Stamp)>,
                       strftime: int -> Rendering, i: nat)
    requires i < |prompts| && i < |answers| && i < |stamps|
    ensures TranscriptUpTo(prompts, answers, stamps, strftime, i + 1)
         == TranscriptUpTo(prompts, answers, stamps, strftime, i)
            + UserLine(prompts[i], stamps[i].0, strftime) + AssistantLine(answers[i], stamps[i].1, strftime)
  {
  }

  /** The downloadable `history_text`: one block per zipped turn, empty exactly when nothing was zipped. */
  function Transcript(prompts: seq<string>, answers: seq<string>, stamps: seq<(Stamp, Stamp)>,
                      strftime: int -> Rendering): (r: string)
    ensures r == "" <==> ZipLength(prompts, answers, stamps) == 0
    ensures ZipLength(prompts, answers, stamps) > 0 ==> IsPrefix(Block(prompts[0], answers[0], stamps[0], strftime), r)
  {
    var n := ZipLength(prompts, answers, stamps);
    if n == 0 then ""
    else
      TranscriptUpToStart(prompts, answers, stamps, strftime, n);
      TranscriptUpTo(prompts, answers, stamps, strftime, n)
  }

  /** The first `n` blocks only look at the first `n` turns. */
  lemma {:induction false} TranscriptUpToPrefix(prompts: seq<string>, answers: seq<string>, stamps: seq<(Stamp, Stamp)>,
                                                prompts': seq<string>, answers': seq<string>, stamps': seq<(Stamp, Stamp)>,
                                                strftime: int -> Rendering, n: nat)
    requires n <= |prompts| && n <= |answers| && n <= |stamps|
    requires n <= |prompts'| && n <= |answers'| && n <= |stamps'|
    requires prompts[..n] == prompts'[..n] && answers[..n] == answers'[..n] && stamps[..n] == stamps'[..n]
    ensures TranscriptUpTo(prompts, answers, stamps, strftime, n)
         == TranscriptUpTo(prompts', answers', stamps', strftime, n)
    decreases n
  {
    if n > 0 {
      assert prompts[..n - 1] == prompts[..n][..n - 1] && prompts'[..n - 1] == prompts'[..n][..n - 1];
      assert answers[..n - 1] == answers[..n][..n - 1] && answers'[..n - 1] == answers'[..n][..n - 1];
      assert stamps[..n - 1] == stamps[..n][..n - 1] && stamps'[..n - 1] == stamps'[..n][..n - 1];
      TranscriptUpToPrefix(prompts, answers, stamps, prompts', answers', stamps', strftime, n - 1);
      assert prompts[n - 1] == prompts[..n][n - 1] == prompts'[n - 1];
      assert answers[n - 1] == answers[..n][n - 1] == answers'[n - 1];
      assert stamps[n - 1] == stamps[..n][n - 1] == stamps'[n - 1];
    }
  }

  /** Recording a turn extends the transcript by exactly that turn's block. */
  lemma TranscriptAppend(prompts: seq<string>, answers: seq<string>, stamps: seq<(Stamp, Stamp)>,
                         prompt: string, answer: string, stamp: (Stamp, Stamp), strftime: int -> Rendering)
    requires |prompts| == |answers| == |stamps|
    ensures Transcript(prompts + [prompt], answers + [answer], stamps + [stamp], strftime)
         == Transcript(prompts, answers, stamps, strftime) + Block(prompt, answer, stamp, strftime)
  {
    var n := |prompts|;
    assert (prompts + [prompt])[..n] == prompts[..n];
    assert (answers + [answer])[..n] == answers[..n];
    assert (stamps + [stamp])[..n] == stamps[..n];
    TranscriptUpToPrefix(prompts + [prompt], answers + [answer], stamps + [stamp],
                         prompts, answers, stamps, strftime, n);
  }

  /** The displayed answer starts with the raw result and the separator. */
  lemma AnswerCitesResult(response: LlmResponse)
    ensures IsPrefix(response.result + Separator, FormattedResponse(response))
  {
    var formatted := FormattedResponse(response);
    var cited := response.result + Separator;
    assert formatted[..|cited|] == cited;
  }

  /**
   * Turn `i` is recorded consistently: `chat_history` holds the prompt as
   * `human` and then the raw result as `ai`, the displayed answer being that
   * raw result followed by the separator and its citations.
   */
  predicate TurnRecorded(prompts: seq<string>, answers: seq<string>, history: seq<Message>, i: nat)
    requires i < |prompts| && i < |answers| && 2 * i + 1 < |history|
  {
    && history[2 * i] == Message(Human, prompts[i])
    && history[2 * i + 1].role == Ai
    && IsPrefix(history[2 * i + 1].text + Separator, answers[i])
  }

  /** The lockstep invariant over `n` turns. */
  predicate AllTurnsRecorded(prompts: seq<string>, answers: seq<string>, history: seq<Message>, n: nat)
  {
    && |prompts| == n && |answers| == n && |history| == 2 * n
    && forall i :: 0 <= i < n ==> TurnRecorded(prompts, answers, history, i)
  }

  /** Appending one turn's five entries keeps the lockstep invariant. */
  lemma RecordKeepsTurns(prompts: seq<string>, answers: seq<string>, history: seq<Message>, n: nat,
                         prompt: string, response: LlmResponse)
    requires AllTurnsRecorded(prompts, answers, history, n)
    ensures AllTurnsRecorded(prompts + [prompt], answers + [FormattedResponse(response)],
                             history + [Message(Human, prompt), Message(Ai, response.result)], n + 1)
  {
    var prompts' := prompts + [prompt];
    var answers' := answers + [FormattedResponse(response)];
    var history' := history + [Message(Human, prompt), Message(Ai, response.result)];
    AnswerCitesResult(response);
    forall i | 0 <= i < n + 1 ensures TurnRecorded(prompts', answers', history', i) {
      if i < n {
        assert TurnRecorded(prompts, answers, history, i);
        assert history'[2 * i] == history[2 * i] && history'[2 * i + 1] == history[2 * i + 1];
        assert prompts'[i] == prompts[i] && answers'[i] == answers[i];
      }
    }
  }

  /** The per-turn lists of `st.session_state`, with the number of turns as ghost state. */
  class Session {
    var userPromptHistory: seq<string>
    var chatAnswersHistory: seq<string>
    var chatHistory: seq<Message>
    var timestamps: seq<(Stamp, Stamp)>
    ghost var turns: nat

    /** One prompt, one answer and one timestamp pair per turn, each turn recorded consistently. */
    ghost predicate Valid()
      reads this
    {
      && AllTurnsRecorded(userPromptHistory, chatAnswersHistory, chatHistory, turns)
      && |timestamps| == turns
    }

    /** The session-state initialisation: four empty lists. */
    constructor ()
      ensures Valid() && turns == 0
      ensures userPromptHistory == [] && chatAnswersHistory == [] && chatHistory == [] && timestamps == []
    {
      userPromptHistory, chatAnswersHistory, chatHistory, timestamps := [], [], [], [];
      turns := 0;
    }

    /** Saving one completed turn: the five appends. */
    method RecordTurn(prompt: string, response: LlmResponse, userTime: Stamp, assistantTime: Stamp)
      requires Valid()
      modifies this
      ensures Valid() && turns == old(turns) + 1
      ensures userPromptHistory == old(userPromptHistory) + [prompt]
      ensures chatAnswersHistory == old(chatAnswersHistory) + [FormattedResponse(response)]
      ensures chatHistory == old(chatHistory) + [Message(Human, prompt), Message(Ai, response.result)]
      ensures timestamps == old(timestamps) + [(userTime, assistantTime)]
    {
      var formatted := FormattedResponse(response);
      RecordKeepsTurns(userPromptHistory, chatAnswersHistory, chatHistory, turns, prompt, response);
      userPromptHistory := userPromptHistory + [prompt];
      chatAnswersHistory := chatAnswersHistory + [formatted];
      chatHistory := chatHistory + [Message(Human, prompt), Message(Ai, response.result)];  // the two `chat_history` appends
      timestamps := timestamps + [(userTime, assistantTime)];
      turns := turns + 1;
    }

    /** The reset button's effect: all four lists empty again. */
    method Reset()
      requires Valid()
      modifies this
      ensures Valid() && turns == 0
      ensures userPromptHistory == [] && chatAnswersHistory == [] && chatHistory == [] && timestamps == []
    {
      chatAnswersHistory := [];
      userPromptHistory := [];
      chatHistory := [];
      timestamps := [];
      turns := 0;
    }

    /** The loop that builds `history_text` for the download. */
    method ExportTranscript(strftime: int -> Rendering) returns (historyText: string)
      requires Valid()
      ensures historyText == Transcript(userPromptHistory, chatAnswersHistory, timestamps, strftime)
      ensures historyText == TranscriptUpTo(userPromptHistory, chatAnswersHistory, timestamps, strftime, turns)
    {
      var n := ZipLength(userPromptHistory, chatAnswersHistory, timestamps);
      historyText := "";
      var i := 0;
      while i < n
        invariant 0 <= i <= n
        invariant historyText == TranscriptUpTo(userPromptHistory, chatAnswersHistory, timestamps, strftime, i)
      {
        TranscriptStep(userPromptHistory, chatAnswersHistory, timestamps, strftime, i);
        historyText := historyText + UserLine(userPromptHistory[i], timestamps[i].0, strftime);
        historyText := historyText + AssistantLine(chatAnswersHistory[i], timestamps[i].1, strftime);
        i := i + 1;
      }
    }
  }
}
