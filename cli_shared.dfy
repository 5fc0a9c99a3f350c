/**
 * Two helpers of the command-line client: the message shown for a caught
 * error, and the preset branch of bot selection, which uses a bot id given
 * on the command line without asking the server.
 */
module CliShared {
  import opened Wrappers
  import opened Text
  import opened Json

  const UnknownError: string := "Unknown error"

  /**
   * getErrorMessage: the `message` of an object whose message is a string,
   * and "Unknown error" for anything else. A caught value is a JSON value here.
   */
  function ErrorMessage(err: Value): (r: string)
    ensures (err.Obj? && "message" in err.fields && err.fields["message"].Str?) ==> r == err.fields["message"].s
    ensures !(err.Obj? && "message" in err.fields && err.fields["message"].Str?) ==> r == UnknownError
  {
    if err.Obj? && "message" in err.fields && err.fields["message"].Str? then err.fields["message"].s
    else UnknownError
  }

  /** The message of an error value is always recovered, whatever other fields it has. */
  lemma ErrorMessageOfError(fields: Object, m: string)
    ensures ErrorMessage(Obj(fields["message" := Str(m)])) == m
  {
  }

  /**
   * The preset branch of resolveBotId: a preset that is neither missing, empty
   * nor blank is used, trimmed; otherwise (None) the bots are fetched.
   */
  function PresetBotId(preset: Option<string>): (r: Option<string>)
    ensures r.Some? <==> preset.Some? && JsTrim(preset.value) != ""
    ensures r.Some? ==> r.value == JsTrim(preset.value)
  {
    if preset.Some? && preset.value != "" && JsTrim(preset.value) != "" then Some(JsTrim(preset.value)) else None
  }

  /**
   * A preset is used exactly when it has a non-whitespace character, and the
   * id used is non-empty and has no surrounding whitespace.
   */
  lemma PresetUsedIffNotBlank(preset: string)
    ensures PresetBotId(Some(preset)).Some? <==> !AllSpace(preset, IsJsSpace)
    ensures PresetBotId(Some(preset)).Some? ==>
              var id := PresetBotId(Some(preset)).value;
              id != "" && JsTrim(id) == id && !IsJsSpace(id[0]) && !IsJsSpace(id[|id| - 1])
  {
    TrimEmptyIffAllSpace(preset, IsJsSpace);
    TrimIdempotent(preset, IsJsSpace);
  }
}
