/**
 * The question box (app.py:127-161): when the agent runs, the prompt it is given, and what is
 * shown of its reply. The agent itself, a language-model client with a pandas tool, is an
 * opaque function here.
 */
module Chat {
  import opened Wrappers
  import opened Frames

  const ContextLead := "Context provided by user: "
  const QuestionLead := "\n\nQuestion: "
  const Closing := "\n\nPlease provide a clear and concise answer based on the data and context provided."

  /**
   * `final_prompt`: the lead-in, the context verbatim, the question lead-in, the question
   * verbatim and the closing sentence, in that order and nothing else.
   */
  function FinalPrompt(context: string, question: string): (p: string)
    ensures |p| == |ContextLead| + |context| + |QuestionLead| + |question| + |Closing|
    ensures ContextLead + context + QuestionLead <= p
    ensures p[|ContextLead|..|ContextLead| + |context|] == context
    ensures p[|p| - |question| - |Closing|..] == question + Closing
  {
    var p := ContextLead + context + QuestionLead + question + Closing;
    assert p == (ContextLead + context + QuestionLead) + (question + Closing);
    assert p == ContextLead + (context + (QuestionLead + question + Closing));
    p
  }

  /**
   * The inverse of the template, used to state that the prompt determines its parts: reads a
   * prompt back, given the length of its context. None unless `p` is the template filled in.
   */
  function ParsePrompt(p: string, contextLength: nat): (r: Option<(string, string)>)
    ensures r.Some? ==> |r.value.0| == contextLength
  {
    var a := |ContextLead|;
    var b := a + contextLength;
    var c := b + |QuestionLead|;
    if |p| < c + |Closing| then None
    else if p[..a] == ContextLead && p[b..c] == QuestionLead && p[|p| - |Closing|..] == Closing
    then Some((p[a..b], p[c..|p| - |Closing|]))
    else None
  }

  /** The context and the question can be read back out of the prompt. */
  lemma ParseFinalPrompt(context: string, question: string)
    ensures ParsePrompt(FinalPrompt(context, question), |context|) == Some((context, question))
  {
    var p := FinalPrompt(context, question);
    var a := |ContextLead|;
    var b := a + |context|;
    var c := b + |QuestionLead|;
    assert p[..a] == ContextLead;
    assert p[a..b] == context;
    assert p[b..c] == QuestionLead;
    assert p[c..|p| - |Closing|] == question;
    assert p[|p| - |Closing|..] == Closing;
  }

  /** Whatever parses is the template filled in with what it parses to. */
  lemma ParsedIsFinalPrompt(p: string, contextLength: nat)
    requires ParsePrompt(p, contextLength).Some?
    ensures var (context, question) := ParsePrompt(p, contextLength).value;
      p == FinalPrompt(context, question)
  {
    var a := |ContextLead|;
    var b := a + contextLength;
    var c := b + |QuestionLead|;
    var e := |p| - |Closing|;
    assert p == p[..a] + p[a..b] + p[b..c] + p[c..e] + p[e..];
  }

  /**
   * The template is not injective: a context that itself contains the question lead-in gives
   * the same prompt as a shorter context with a longer question.
   */
  lemma PromptAmbiguous(context: string, middle: string, question: string)
    ensures FinalPrompt(context + QuestionLead + middle, question)
         == FinalPrompt(context, middle + QuestionLead + question)
  {
  }

  /** Which branch of `if question and api_key` / `elif question and not api_key` runs. */
  datatype Gate = NoQuestion | KeyRequired | Invoke

  function GateQuestion(question: string, key: string): (g: Gate)
    ensures g == Invoke <==> question != "" && key != ""
    ensures g == KeyRequired <==> question != "" && key == ""
    ensures g == NoQuestion <==> question == ""
  {
    if question != "" && key != "" then Invoke
    else if question != "" then KeyRequired
    else NoQuestion
  }

  /** The Python value `agent.invoke` returns, as far as the display step looks at it. */
  datatype PyValue = Str(s: string) | Dict(entries: map<string, PyValue>) | Other(repr: string)

  /** `response['output']` for a dict holding `'output'`, the response itself otherwise. */
  function Displayed(response: PyValue): (shown: PyValue)
    ensures response.Dict? && "output" in response.entries ==> shown == response.entries["output"]
    ensures !(response.Dict? && "output" in response.entries) ==> shown == response
  {
    match response
    case Dict(entries) => if "output" in entries then entries["output"] else response
    case _ => response
  }

  /** Whatever else the reply dict holds, the shown value is its `'output'` entry. */
  lemma DisplayedIgnoresOtherEntries(output: PyValue, entries1: map<string, PyValue>, entries2: map<string, PyValue>)
    ensures Displayed(Dict(entries1["output" := output])) == Displayed(Dict(entries2["output" := output])) == output
  {
  }

  /** What building or invoking the agent does: a reply, or an exception with its message. */
  datatype Reply = Returned(response: PyValue) | Raised(message: string)

  /** The agent, given the key, the data frame and the prompt. */
  type Agent = (string, Frame, string) -> Reply

  /** What the question area ends up showing. */
  datatype Outcome = Nothing | AskForKey | Answer(shown: PyValue) | Failed(message: string)

  function Ask(question: string, key: string, context: string, df: Frame, agent: Agent): (o: Outcome)
    ensures o == Nothing <==> question == ""
    ensures o == AskForKey <==> question != "" && key == ""
    ensures GateQuestion(question, key) == Invoke ==>
      match agent(key, df, FinalPrompt(context, question))
      case Returned(r) => o == Answer(Displayed(r))
      case Raised(msg) => o == Failed(msg)
  {
    match GateQuestion(question, key)
    case NoQuestion => Nothing
    case KeyRequired => AskForKey
    case Invoke =>
      match agent(key, df, FinalPrompt(context, question))
      case Returned(r) => Answer(Displayed(r))
      case Raised(msg) => Failed(msg)
  }

  /** Without both a question and a key the agent is never consulted: any agent gives the same outcome. */
  lemma AgentOnlyWhenInvoked(question: string, key: string, context: string, df: Frame, a1: Agent, a2: Agent)
    requires question == "" || key == ""
    ensures Ask(question, key, context, df, a1) == Ask(question, key, context, df, a2)
  {
  }

  /** With both, the outcome depends on the agent only through its reply to the final prompt. */
  lemma AgentSeesFinalPrompt(question: string, key: string, context: string, df: Frame, a1: Agent, a2: Agent)
    requires question != "" && key != ""
    requires a1(key, df, FinalPrompt(context, question)) == a2(key, df, FinalPrompt(context, question))
    ensures Ask(question, key, context, df, a1) == Ask(question, key, context, df, a2)
  {
  }
}
