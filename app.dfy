/**
 * One run of the Streamlit script, top to bottom, as a function of everything it reads: the
 * secrets entry, the widgets' values, the two possible CSV sources and the agent.
 */
module App {
  import opened Wrappers
  import opened Frames
  import opened Config
  import opened Preview
  import opened Chat

  /**
   * The inputs of one run. `editedContext` is None when the user left the context box at its
   * default text; `question` is the question box, "" when empty.
   */
  datatype Inputs = Inputs(
    secret: Option<string>,
    typedKey: string,
    uploaded: Option<Frame>,
    sample: Option<Frame>,
    editedContext: Option<string>,
    question: string)

  /** What the page shows: the script either stops after the data source, or runs to the end. */
  datatype Page =
    | Halted(keyNotice: KeyNotice)
    | Rendered(keyNotice: KeyNotice, source: DataSource, preview: View,
               defaultContext: string, context: string, outcome: Outcome)

  /** The script, with `narrative` the built-in variance text offered for the sample data. */
  function Run(env: Inputs, narrative: string, agent: Agent): (page: Page)
    ensures page.Halted? <==> env.uploaded.None? && env.sample.None?
    ensures page.keyNotice == ResolveKey(env.secret, env.typedKey).notice
    ensures page.Rendered? ==>
      && page.source == SelectSource(env.uploaded, env.sample)
      && page.preview == DataPreview(page.source.df)
      && page.outcome == Ask(env.question, ResolveKey(env.secret, env.typedKey).key,
                             page.context, page.source.df, agent)
    ensures page.Rendered? ==>
      && page.defaultContext == DefaultContext(env.uploaded.Some?, narrative)
      && page.context == (if env.editedContext.Some? then env.editedContext.value else page.defaultContext)
  {
    var keyChoice := ResolveKey(env.secret, env.typedKey);
    var source := SelectSource(env.uploaded, env.sample);
    match source
    case NoData => Halted(keyChoice.notice)
    case _ =>
      var df := source.df;
      var default := DefaultContext(env.uploaded.Some?, narrative);
      var context := if env.editedContext.Some? then env.editedContext.value else default;
      Rendered(keyChoice.notice, source, DataPreview(df), default, context,
               Ask(env.question, keyChoice.key, context, df, agent))
  }

  /**
   * The script stops exactly when there is neither an upload nor a sample file, and then nothing
   * after the data source matters: not the question, not the context, not the agent.
   */
  lemma HaltsWithoutData(env: Inputs, narrative: string, a1: Agent, a2: Agent,
                         question: string, edited: Option<string>)
    ensures Run(env, narrative, a1).Halted? <==> env.uploaded.None? && env.sample.None?
    ensures Run(env, narrative, a1).Halted? ==>
      Run(env, narrative, a1) == Run(env.(question := question, editedContext := edited), narrative, a2)
  {
  }

  /** The preview is of the uploaded frame when there is one, otherwise of the sample. */
  lemma PreviewsChosenFrame(env: Inputs, narrative: string, agent: Agent)
    requires env.uploaded.Some? || env.sample.Some?
    ensures var page := Run(env, narrative, agent);
      && page.Rendered?
      && page.preview == DataPreview(if env.uploaded.Some? then env.uploaded.value else env.sample.value)
  {
  }

  /**
   * The context box starts with the narrative iff nothing was uploaded, and empty otherwise;
   * the context passed on is the user's edit when there is one, the default otherwise.
   */
  lemma DefaultContextFollowsUpload(env: Inputs, narrative: string, agent: Agent)
    requires Run(env, narrative, agent).Rendered?
    ensures Run(env, narrative, agent).defaultContext == (if env.uploaded.None? then narrative else "")
    ensures env.editedContext.None? ==> Run(env, narrative, agent).context == Run(env, narrative, agent).defaultContext
    ensures env.editedContext.Some? ==> Run(env, narrative, agent).context == env.editedContext.value
  {
  }

  /**
   * The secret takes precedence over the typed key: with a secret present, the typed key never
   * changes the page.
   */
  lemma KeyPrecedence(env: Inputs, narrative: string, agent: Agent, typed: string)
    requires env.secret.Some?
    ensures Run(env, narrative, agent) == Run(env.(typedKey := typed), narrative, agent)
  {
  }

  /** Without a key, a question is answered by the error message and the agent never runs. */
  lemma NoKeyNoAgent(env: Inputs, narrative: string, a1: Agent, a2: Agent)
    requires ResolveKey(env.secret, env.typedKey).key == ""
    ensures Run(env, narrative, a1) == Run(env, narrative, a2)
    ensures Run(env, narrative, a1).Rendered? && env.question != "" ==>
      Run(env, narrative, a1).outcome == AskForKey
  {
  }

  /**
   * A question with a key goes to the agent with the final prompt built from the context box,
   * and the agent's reply decides the outcome, whether the preview pivoted or fell back.
   */
  lemma AnswerUsesFinalPrompt(env: Inputs, narrative: string, agent: Agent)
    requires env.uploaded.Some? || env.sample.Some?
    requires env.question != "" && ResolveKey(env.secret, env.typedKey).key != ""
    ensures var page := Run(env, narrative, agent);
      page.Rendered? &&
      match agent(ResolveKey(env.secret, env.typedKey).key, page.source.df,
                  FinalPrompt(page.context, env.question))
      case Returned(r) => page.outcome == Answer(Displayed(r))
      case Raised(msg) => page.outcome == Failed(msg)
  {
  }
}
