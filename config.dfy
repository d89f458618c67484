/**
 * The script's configuration steps: where the API key comes from (app.py:17-26), which CSV is
 * used (app.py:31-40) and which text the context box starts with (app.py:86-88).
 */
module Config {
  import opened Wrappers
  import opened Frames

  /** The sidebar message that accompanies the key. */
  datatype KeyNotice = LoadedFromSecrets | EnterKeyWarning | NoNotice

  datatype KeyChoice = KeyChoice(key: string, notice: KeyNotice)

  /**
   * `secret` is the `GEMINI_API_KEY` entry of the secrets store, None when the lookup raises;
   * `typed` is what the password box would return. The box is only shown when there is no secret.
   */
  function ResolveKey(secret: Option<string>, typed: string): (c: KeyChoice)
    ensures secret.Some? ==> c.key == secret.value && c.notice == LoadedFromSecrets
    ensures secret.None? ==> c.key == typed
    ensures c.notice == EnterKeyWarning <==> secret.None? && typed == ""
    ensures c.notice == LoadedFromSecrets <==> secret.Some?
  {
    match secret
    case Some(k) => KeyChoice(k, LoadedFromSecrets)
    case None => KeyChoice(typed, if typed == "" then EnterKeyWarning else NoNotice)
  }

  /** A secret, even an empty one, makes whatever would be typed irrelevant. */
  lemma SecretShadowsInput(s: string, typed1: string, typed2: string)
    ensures ResolveKey(Some(s), typed1) == ResolveKey(Some(s), typed2)
  {
  }

  /** The frame the rest of the script works on, or the decision to stop. */
  datatype DataSource = Uploaded(df: Frame) | Sample(df: Frame) | NoData

  /**
   * `uploaded` is the parsed upload, None when nothing was uploaded; `sample` is the parsed
   * `sample_data.csv`, None when reading it raises `FileNotFoundError`.
   */
  function SelectSource(uploaded: Option<Frame>, sample: Option<Frame>): (s: DataSource)
    ensures uploaded.Some? ==> s == Uploaded(uploaded.value)
    ensures uploaded.None? && sample.Some? ==> s == Sample(sample.value)
    ensures s.NoData? <==> uploaded.None? && sample.None?
  {
    match uploaded
    case Some(df) => Uploaded(df)
    case None =>
      match sample
      case Some(df) => Sample(df)
      case None => NoData
  }

  /** The initial text of the context box: the built-in `narrative` for the sample data, else empty. */
  function DefaultContext(fileUploaded: bool, narrative: string): (c: string)
    ensures !fileUploaded ==> c == narrative
    ensures fileUploaded ==> c == ""
  {
    if fileUploaded then "" else narrative
  }
}
