/**
 * A research request and the two values derived from it before the remote
 * operation is created: the prompt actually sent (`final_prompt`) and the
 * tool list (`tools_config`).
 */
module Request {
  import opened Wrappers

  /** `ResearchRequest`: a prompt, optional file-search store names, the
      stream flag and optional formatting instructions. */
  datatype ResearchRequest = ResearchRequest(
    prompt: string,
    stores: Option<seq<string>>,
    stream: bool,
    outputFormat: Option<string>)

  /** Text placed between the prompt and the formatting instructions. */
  const FormatSeparator: string := "\n\nFormat the output as follows: "

  /** The `type` entry of the one tool a request can ask for. */
  const FileSearchType: string := "file_search"

  /** One entry of the tool list: its `type` and its
      `file_search_store_names`. */
  datatype Tool = Tool(toolType: string, fileSearchStoreNames: seq<string>)

  /** The formatting instructions that take effect: Python treats both
      `None` and the empty string as false. */
  function EffectiveFormat(r: ResearchRequest): (f: Option<string>)
    ensures f.Some? ==> r.outputFormat == f && f.value != ""
    ensures f.None? <==> r.outputFormat.None? || r.outputFormat.value == ""
  {
    if r.outputFormat.Some? && r.outputFormat.value != "" then r.outputFormat else None
  }

  /** The prompt sent to the remote agent. */
  function FinalPrompt(r: ResearchRequest): (p: string)
    ensures r.prompt <= p
    ensures p == r.prompt <==> EffectiveFormat(r).None?
    ensures EffectiveFormat(r).Some? ==>
      p[|r.prompt|..] == FormatSeparator + EffectiveFormat(r).value
  {
    if r.outputFormat.Some? && r.outputFormat.value != "" then
      r.prompt + FormatSeparator + r.outputFormat.value
    else
      r.prompt
  }

  /** Reads the formatting instructions back out of a final prompt built
      on `prompt`: the inverse of `FinalPrompt`. */
  function FormatOf(prompt: string, p: string): (f: Option<string>)
    requires prompt <= p
  {
    var n := |prompt| + |FormatSeparator|;
    if |p| <= n || p[|prompt|..n] != FormatSeparator then None
    else Some(p[n..])
  }

  /** The final prompt loses nothing: the formatting instructions in effect
      can be recovered from it. */
  lemma FormatRoundTrip(r: ResearchRequest)
    ensures FormatOf(r.prompt, FinalPrompt(r)) == EffectiveFormat(r)
  {
  }

  /** For one prompt, two requests send the same text exactly when the
      formatting instructions in effect are the same. */
  lemma FinalPromptDeterminesFormat(r1: ResearchRequest, r2: ResearchRequest)
    requires r1.prompt == r2.prompt
    ensures FinalPrompt(r1) == FinalPrompt(r2) <==> EffectiveFormat(r1) == EffectiveFormat(r2)
  {
    FormatRoundTrip(r1);
    FormatRoundTrip(r2);
  }

  /** The tool list sent with the request: `None` when no stores are given
      (absent or empty), otherwise one file-search tool over the stores. */
  function ToolsConfig(r: ResearchRequest): (t: Option<seq<Tool>>)
    ensures t.None? <==> r.stores.None? || r.stores.value == []
    ensures t.Some? ==> |t.value| == 1 && t.value[0].toolType == FileSearchType
    ensures t.Some? ==> t.value[0].fileSearchStoreNames == r.stores.value
  {
    if r.stores.Some? && r.stores.value != [] then
      Some([Tool(FileSearchType, r.stores.value)])
    else
      None
  }

  /** Every store name a tool list asks the remote agent to search, in
      order. */
  function SearchedStores(tools: seq<Tool>): (names: seq<string>)
  {
    if tools == [] then []
    else
      (if tools[0].toolType == FileSearchType then tools[0].fileSearchStoreNames else [])
      + SearchedStores(tools[1..])
  }

  /** The tool list searches exactly the stores the request names, in the
      order given, and no others. */
  lemma StoresRoundTrip(r: ResearchRequest)
    ensures SearchedStores(ToolsConfig(r).GetOr([])) == r.stores.GetOr([])
  {
  }
}
