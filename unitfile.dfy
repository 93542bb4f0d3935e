/**
 * The systemd unit `install_systemd_service` writes: fixed text with the
 * notebooks directory, the API key (twice), the base URL (twice) and the
 * image name filled in. `ParseUnit` reads those settings back, which shows
 * that the text determines them.
 */
module UnitFile {
  import opened Values

  /** The configuration values the unit text is rendered from. */
  datatype UnitSettings = UnitSettings(notebooksDir: string, apiKey: string, baseUrl: string, imageName: string)

  const NotebooksPrefix := "Environment=\"JUPYTER_NOTEBOOKS_DIR="
  const OpenAiKeyPrefix := "Environment=\"OPENAI_API_KEY="
  const OpenAiUrlPrefix := "Environment=\"OPENAI_BASE_URL="
  const AnthropicKeyPrefix := "Environment=\"ANTHROPIC_API_KEY="
  const AnthropicUrlPrefix := "Environment=\"ANTHROPIC_BASE_URL="
  const ImageIndent := "  "

  /** The `[Unit]` section and the start of the `[Service]` section. */
  const HeadLines: seq<string> := [
    "[Unit]",
    "Description=Jupyter Lab Container",
    "After=network-online.target",
    "Wants=network-online.target",
    "",
    "[Service]",
    "Type=simple",
    "Restart=always",
    "RestartSec=5"]

  /** The `Environment=` lines, the only ones that carry the notebooks directory, the key and the URL. */
  function EnvironmentLines(u: UnitSettings): seq<string>
  {
    [ NotebooksPrefix + u.notebooksDir + "\"",
      OpenAiKeyPrefix + u.apiKey + "\"",
      OpenAiUrlPrefix + u.baseUrl + "\"",
      AnthropicKeyPrefix + u.apiKey + "\"",
      AnthropicUrlPrefix + u.baseUrl + "\"" ]
  }

  const Podman := "/usr/bin/podman"
  /** The end of a command line that the next line continues. */
  const Continued := " \\"

  /** The container command line up to the image name. */
  const ExecLines: seq<string> := [
    "",
    "ExecStartPre=-" + Podman + " stop jupyter-lab",
    "ExecStart=" + Podman + " run --rm --name jupyter-lab" + Continued,
    "  --net=host" + Continued,
    "  -e OPENAI_API_KEY" + Continued,
    "  -e OPENAI_BASE_URL" + Continued,
    "  -e ANTHROPIC_API_KEY" + Continued,
    "  -e ANTHROPIC_BASE_URL" + Continued,
    "  -v ${JUPYTER_NOTEBOOKS_DIR}" + ":/workspace/notebooks:Z" + Continued,
    "  -v %h/.local/share/jupyter-lab/.uv-cache" + ":/workspace/.uv-cache:Z" + Continued,
    "  -v %h/.config/jupyter-lab" + ":/workspace/.jupyter:Z" + Continued]

  /** `ExecStop=` and the `[Install]` section. */
  const TailLines: seq<string> := [
    "",
    "ExecStop=" + Podman + " stop -t 10 jupyter-lab",
    "",
    "[Install]",
    "WantedBy=default.target"]

  /** The lines of the unit, without their line terminators. */
  function UnitLines(u: UnitSettings): seq<string>
  {
    HeadLines + EnvironmentLines(u) + ExecLines + [ImageIndent + u.imageName] + TailLines
  }

  /** Each line followed by a newline. */
  function Terminated(lines: seq<string>): string
  {
    if lines == [] then "" else lines[0] + "\n" + Terminated(lines[1..])
  }

  /**
   * The text of the unit file, each line ended by a newline. Rendered from
   * settings that hold no newline, it reads back as exactly those settings.
   */
  function UnitText(u: UnitSettings): (t: string)
    ensures SingleLineSettings(u) ==> ParseUnit(t) == Some(u)
  {
    var t := Terminated(UnitLines(u));
    if SingleLineSettings(u) then UnitLinesParse(u); t else t
  }

  /**
   * The settings as `install_systemd_service` reads them from the
   * configuration, in the order the f-string reads them; the first key that
   * is absent raises KeyError.
   */
  function SettingsFrom(c: Config): (r: Result<UnitSettings, Fault>)
    ensures r.Ok? <==> Lookup(c, "paths", "notebooks_dir").Some? && Lookup(c, "ai", "api_key").Some? &&
                       Lookup(c, "ai", "base_url").Some? && Lookup(c, "container", "image_name").Some?
    ensures r.Ok? ==> r.value == UnitSettings(Render(Lookup(c, "paths", "notebooks_dir").value),
                                              Render(Lookup(c, "ai", "api_key").value),
                                              Render(Lookup(c, "ai", "base_url").value),
                                              Render(Lookup(c, "container", "image_name").value))
    ensures r.Err? ==> r.error.MissingKey?
  {
    match Lookup(c, "paths", "notebooks_dir")
    case None => Err(MissingKey("paths", "notebooks_dir"))
    case Some(dir) =>
      match Lookup(c, "ai", "api_key")
      case None => Err(MissingKey("ai", "api_key"))
      case Some(key) =>
        match Lookup(c, "ai", "base_url")
        case None => Err(MissingKey("ai", "base_url"))
        case Some(url) =>
          match Lookup(c, "container", "image_name")
          case None => Err(MissingKey("container", "image_name"))
          case Some(image) => Ok(UnitSettings(Render(dir), Render(key), Render(url), Render(image)))
  }

  predicate SingleLine(s: string)
  {
    '\n' !in s
  }

  predicate SingleLineSettings(u: UnitSettings)
  {
    SingleLine(u.notebooksDir) && SingleLine(u.apiKey) && SingleLine(u.baseUrl) && SingleLine(u.imageName)
  }

  /** The index of the first newline of `s`, or `|s|` when there is none. */
  function NewlineIndex(s: string): (i: nat)
    ensures i <= |s|
    ensures forall k :: 0 <= k < i ==> s[k] != '\n'
    ensures i < |s| ==> s[i] == '\n'
  {
    if s == [] || s[0] == '\n' then 0 else 1 + NewlineIndex(s[1..])
  }

  /** The lines of a text, each ended by a newline (the last one possibly not). */
  function SplitTerminated(s: string): seq<string>
    decreases |s|
  {
    if s == [] then []
    else
      var i := NewlineIndex(s);
      if i == |s| then [s] else [s[..i]] + SplitTerminated(s[i + 1..])
  }

  /** Splitting a text of newline-terminated lines gives the lines back. */
  lemma {:induction false} SplitTerminatedInverts(lines: seq<string>)
    requires forall i :: 0 <= i < |lines| ==> SingleLine(lines[i])
    ensures SplitTerminated(Terminated(lines)) == lines
  {
    if lines != [] {
      var l, rest := lines[0], Terminated(lines[1..]);
      var s := Terminated(lines);
      assert s == l + "\n" + rest;
      assert SingleLine(lines[0]);
      var i := NewlineIndex(s);
      assert s[|l|] == '\n';
      assert i == |l|;
      assert s[..i] == l;
      assert s[i + 1..] == rest;
      SplitTerminatedInverts(lines[1..]);
    }
  }

  /** The text between `prefix` and `suffix` when `line` starts and ends with them. */
  function Between(line: string, prefix: string, suffix: string): Option<string>
  {
    if |prefix| + |suffix| <= |line| && line[..|prefix|] == prefix && line[|line| - |suffix|..] == suffix
    then Some(line[|prefix|..|line| - |suffix|])
    else None
  }

  lemma BetweenInverts(prefix: string, x: string, suffix: string)
    ensures Between(prefix + x + suffix, prefix, suffix) == Some(x)
  {
    var line := prefix + x + suffix;
    assert line[..|prefix|] == prefix;
    assert line[|line| - |suffix|..] == suffix;
    assert line[|prefix|..|line| - |suffix|] == x;
  }

  /** Reads the settings back from a unit text. */
  function ParseUnit(text: string): Option<UnitSettings>
  {
    var lines := SplitTerminated(text);
    if |lines| != 31 then None
    else
      match (Between(lines[9], NotebooksPrefix, "\""), Between(lines[10], OpenAiKeyPrefix, "\""),
             Between(lines[11], OpenAiUrlPrefix, "\""), Between(lines[12], AnthropicKeyPrefix, "\""),
             Between(lines[13], AnthropicUrlPrefix, "\""), Between(lines[25], ImageIndent, ""))
      case (Some(dir), Some(key), Some(url), Some(key2), Some(url2), Some(image)) =>
        if key2 == key && url2 == url then Some(UnitSettings(dir, key, url, image)) else None
      case _ => None
  }

  lemma HeadLinesAreSingle()
    ensures forall i :: 0 <= i < |HeadLines| ==> SingleLine(HeadLines[i])
  {
  }

  // The command lines are long literals, split to keep each proof obligation small.
  lemma CommandLinesAreSingle()
    ensures forall i :: 0 <= i < 8 ==> SingleLine(ExecLines[i])
  {
    assert SingleLine(Podman) && SingleLine(Continued);
  }

  lemma NotebooksMountIsSingle()
    ensures SingleLine(ExecLines[8])
  {
    assert SingleLine(Continued);
  }

  lemma CacheMountIsSingle()
    ensures SingleLine(ExecLines[9])
  {
    assert SingleLine(Continued);
  }

  lemma ConfigMountIsSingle()
    ensures SingleLine(ExecLines[10])
  {
    assert SingleLine(Continued);
  }

  lemma ExecLinesAreSingle()
    ensures forall i :: 0 <= i < |ExecLines| ==> SingleLine(ExecLines[i])
  {
    CommandLinesAreSingle();
    NotebooksMountIsSingle();
    CacheMountIsSingle();
    ConfigMountIsSingle();
  }

  lemma TailLinesAreSingle()
    ensures forall i :: 0 <= i < |TailLines| ==> SingleLine(TailLines[i])
  {
    assert SingleLine(Podman);
  }

  lemma EnvironmentPrefixesAreSingle()
    ensures SingleLine(NotebooksPrefix) && SingleLine(OpenAiKeyPrefix) && SingleLine(OpenAiUrlPrefix)
    ensures SingleLine(AnthropicKeyPrefix) && SingleLine(AnthropicUrlPrefix)
  {
  }

  lemma DelimitersAreSingle()
    ensures SingleLine(ImageIndent) && SingleLine("\"")
  {
  }

  /** Each `Environment=` line reads back as the setting it was rendered from. */
  lemma EnvironmentLinesParse(u: UnitSettings)
    ensures var env := EnvironmentLines(u);
            Between(env[0], NotebooksPrefix, "\"") == Some(u.notebooksDir) &&
            Between(env[1], OpenAiKeyPrefix, "\"") == Some(u.apiKey) &&
            Between(env[2], OpenAiUrlPrefix, "\"") == Some(u.baseUrl) &&
            Between(env[3], AnthropicKeyPrefix, "\"") == Some(u.apiKey) &&
            Between(env[4], AnthropicUrlPrefix, "\"") == Some(u.baseUrl)
  {
    BetweenInverts(NotebooksPrefix, u.notebooksDir, "\"");
    BetweenInverts(OpenAiKeyPrefix, u.apiKey, "\"");
    BetweenInverts(OpenAiUrlPrefix, u.baseUrl, "\"");
    BetweenInverts(AnthropicKeyPrefix, u.apiKey, "\"");
    BetweenInverts(AnthropicUrlPrefix, u.baseUrl, "\"");
  }

  /** The lines rendered from single-line settings read back as those settings. */
  lemma UnitLinesParse(u: UnitSettings)
    requires SingleLineSettings(u)
    ensures ParseUnit(Terminated(UnitLines(u))) == Some(u)
  {
    var lines := UnitLines(u);
    HeadLinesAreSingle();
    ExecLinesAreSingle();
    TailLinesAreSingle();
    EnvironmentPrefixesAreSingle();
    DelimitersAreSingle();
    var env := EnvironmentLines(u);
    assert forall i :: 0 <= i < |env| ==> SingleLine(env[i]);
    assert forall i :: 0 <= i < |lines| ==> SingleLine(lines[i]);
    SplitTerminatedInverts(lines);
    assert lines[9..14] == env;
    EnvironmentLinesParse(u);
    assert lines[25] == ImageIndent + u.imageName;
    BetweenInverts(ImageIndent, u.imageName, "");
    assert ImageIndent + u.imageName + "" == lines[25];
    assert |lines| == 31;
  }

  /** Different single-line settings never render to the same unit text. */
  lemma UnitTextDeterminesSettings(u: UnitSettings, v: UnitSettings)
    requires SingleLineSettings(u) && SingleLineSettings(v)
    requires UnitText(u) == UnitText(v)
    ensures u == v
  {
  }
}
