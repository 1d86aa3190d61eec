/**
 * Application settings: constants, environment flags, and the two
 * configuration checks (backend/app/core/config.py).
 */
module Config {
  import opened Base

  const INPUT_SAMPLE_RATE: nat := 16000
  const OUTPUT_SAMPLE_RATE: nat := 24000
  const MAX_BUFFER_SIZE: nat := 5000
  /** BUFFER_TIMEOUT_SECONDS = 3.0, in the model's millisecond clock. */
  const BUFFER_TIMEOUT_MS: nat := 3000
  const DEFAULT_MODEL_NAME: string := "gemini-2.5-flash-live-preview"
  const LANGUAGE_CODE: string := "en-US"
  const VOICE_NAME: string := "Zephyr"

  const VERTEX_ERROR: string :=
    "GOOGLE_CLOUD_PROJECT_ID and GOOGLE_CLOUD_LOCATION must be set when using Vertex AI"
  const API_KEY_ERROR: string := "GEMINI_API_KEY must be set when not using Vertex AI"

  /** The process environment, as read once when the settings load. */
  type Env = map<string, string>

  function Getenv(env: Env, name: string, default: string): string {
    if name in env then env[name] else default
  }

  function LowerChar(c: char): char {
    if 'A' <= c <= 'Z' then (c as int + 32) as char else c
  }

  function Lower(s: string): (r: string)
    ensures |r| == |s| && forall i :: 0 <= i < |s| ==> r[i] == LowerChar(s[i])
  {
    if s == [] then [] else [LowerChar(s[0])] + Lower(s[1..])
  }

  /** Case-insensitive equality with the literal "true", stated letter by letter. */
  predicate SpellsTrue(s: string) {
    && |s| == 4
    && (s[0] == 't' || s[0] == 'T')
    && (s[1] == 'r' || s[1] == 'R')
    && (s[2] == 'u' || s[2] == 'U')
    && (s[3] == 'e' || s[3] == 'E')
  }

  /** A boolean setting: `os.getenv(name, "false").lower() == "true"`. */
  function EnvFlag(env: Env, name: string): (b: bool)
    ensures b <==> name in env && SpellsTrue(env[name])
  {
    var v := Getenv(env, name, "false");
    var l := Lower(v);
    assert l == "true" ==> SpellsTrue(v) by {
      if l == "true" {
        assert LowerChar(v[0]) == 't' && LowerChar(v[1]) == 'r';
        assert LowerChar(v[2]) == 'u' && LowerChar(v[3]) == 'e';
      }
    }
    l == "true"
  }

  datatype Settings = Settings(
    geminiApiKey: string,
    geminiModelName: string,
    useVertexAi: bool,
    projectId: string,
    location: string,
    disableVad: bool)

  function LoadSettings(env: Env): (s: Settings)
    ensures s.useVertexAi <==> "GOOGLE_GENAI_USE_VERTEXAI" in env && SpellsTrue(env["GOOGLE_GENAI_USE_VERTEXAI"])
    ensures s.disableVad <==> "DISABLE_VAD" in env && SpellsTrue(env["DISABLE_VAD"])
    ensures "GEMINI_API_KEY" !in env ==> s.geminiApiKey == ""
    ensures "GEMINI_MODEL_NAME" !in env ==> s.geminiModelName == DEFAULT_MODEL_NAME
  {
    Settings(
      Getenv(env, "GEMINI_API_KEY", ""),
      Getenv(env, "GEMINI_MODEL_NAME", DEFAULT_MODEL_NAME),
      EnvFlag(env, "GOOGLE_GENAI_USE_VERTEXAI"),
      Getenv(env, "GOOGLE_CLOUD_PROJECT_ID", ""),
      Getenv(env, "GOOGLE_CLOUD_LOCATION", ""),
      EnvFlag(env, "DISABLE_VAD"))
  }

  function IsVertexAiConfigured(s: Settings): (r: bool)
    ensures !s.useVertexAi ==> !r
    ensures s.useVertexAi ==> (r <==> s.projectId != "" && s.location != "")
  {
    if !s.useVertexAi then false else s.projectId != "" && s.location != ""
  }

  /** `validate_configuration`: Pass, or the ValueError it raises. */
  datatype Validation = Valid | Invalid(message: string)

  function ValidateConfiguration(s: Settings): (r: Validation)
    ensures s.useVertexAi ==> (r.Invalid? <==> s.projectId == "" || s.location == "")
    ensures !s.useVertexAi ==> (r.Invalid? <==> s.geminiApiKey == "")
    ensures r.Invalid? ==> r.message == (if s.useVertexAi then VERTEX_ERROR else API_KEY_ERROR)
  {
    if s.useVertexAi then
      if s.projectId == "" || s.location == "" then Invalid(VERTEX_ERROR) else Valid
    else if s.geminiApiKey == "" then Invalid(API_KEY_ERROR)
    else Valid
  }

  /** In Vertex mode, validation passes exactly when Vertex is reported configured. */
  lemma VertexValidIffConfigured(s: Settings)
    requires s.useVertexAi
    ensures ValidateConfiguration(s).Valid? <==> IsVertexAiConfigured(s)
  {
  }

  /** Vertex mode never looks at the API key. */
  lemma VertexIgnoresApiKey(s: Settings, key: string)
    requires s.useVertexAi
    ensures ValidateConfiguration(s.(geminiApiKey := key)) == ValidateConfiguration(s)
  {
  }

  /** Flags default to False and accept any capitalisation of "true" and nothing else. */
  lemma EnvFlagExamples()
    ensures !EnvFlag(map[], "DISABLE_VAD")
    ensures EnvFlag(map["DISABLE_VAD" := "TRUE"], "DISABLE_VAD")
    ensures EnvFlag(map["DISABLE_VAD" := "True"], "DISABLE_VAD")
    ensures !EnvFlag(map["DISABLE_VAD" := "1"], "DISABLE_VAD")
    ensures !EnvFlag(map["DISABLE_VAD" := "true "], "DISABLE_VAD")
  {
  }
}
