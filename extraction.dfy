/**
 * The extraction pipeline of the task extractor agent: build the prompts, call
 * the preferred model, parse its reply into tasks, enrich them from memory,
 * and validate them against the agent's constraints.
 *
 * The agent's collaborators are given at construction and never change: the
 * agent definition, the model client, the memory system when one could be
 * initialized, the loaded context files, and the JSON decoder.
 */
module Extraction {
  import opened Wrappers
  import opened Text
  import opened TaskModel
  import opened AiModels
  import opened Prompts
  import opened Parsing
  import opened Enrichment
  import opened Constraints

  /** The entries of the agent definition the extractor reads. */
  datatype AgentDefinition = AgentDefinition(
    primaryModel: Option<string>,
    decisions: seq<Decision>,
    confirmationRules: seq<string>)

  /** The agent, as its constructor leaves it. */
  datatype Agent = Agent(
    definition: AgentDefinition,
    ai: ModelClient,
    memory: Option<MemorySearch>,
    context: map<string, string>,
    decode: Decoder)

  const DEFAULT_MODEL := "gpt-4o-mini"
  const EXTRACTION_MAX_TOKENS := 1500
  const DEFAULT_TEXT := "Sample morning pages text for testing"
  const DEFAULT_SOURCE := "unknown"
  const NO_INPUT_TEXT := "Sample text for testing"

  /** The keys that may carry the text, in the order they are tried. */
  const TEXT_KEYS := ["text", "content", "input"]

  datatype Params = Params(text: string, source: string)

  /** The value of the first of `keys` present in `data`: the reference meaning of the key chain. */
  function FirstPresent(data: map<string, string>, keys: seq<string>): (v: Option<string>)
    ensures v.None? <==> forall k | k in keys :: k !in data
    ensures v.Some? ==> exists k | k in keys :: k in data && data[k] == v.value
    decreases |keys|
  {
    if keys == [] then None
    else if keys[0] in data then Some(data[keys[0]])
    else FirstPresent(data, keys[1..])
  }

  /** `_extract_params_from_dict`: the text from `text`, `content` or `input`, in that order, and the source. */
  function ExtractParams(data: map<string, string>): (p: Params)
    ensures p.source == if "source" in data then data["source"] else DEFAULT_SOURCE
  {
    var text :=
      if "text" in data then data["text"]
      else if "content" in data then data["content"]
      else if "input" in data then data["input"]
      else DEFAULT_TEXT;
    var source := if "source" in data then data["source"] else DEFAULT_SOURCE;
    Params(text, source)
  }

  /**
   * The text is the first present of the three text keys, else the sample
   * text; and nothing but the four keys the function reads decides the result.
   */
  lemma ExtractParamsReadsFourKeys(data: map<string, string>, other: map<string, string>)
    ensures ExtractParams(data).text == FirstPresent(data, TEXT_KEYS).GetOr(DEFAULT_TEXT)
    ensures (forall k | k in TEXT_KEYS + ["source"] :: (k in data <==> k in other) && (k in data ==> data[k] == other[k]))
      ==> ExtractParams(data) == ExtractParams(other)
  {
    assert TEXT_KEYS[1..][1..][1..] == [];
    assert "text" in TEXT_KEYS + ["source"] && "content" in TEXT_KEYS + ["source"];
    assert "input" in TEXT_KEYS + ["source"] && "source" in TEXT_KEYS + ["source"];
  }

  /** The inputs `extract_tasks_from_text` accepts. */
  datatype Input =
    | DictInput(data: map<string, string>)
    | TextInput(text: string)
    | NoInput
    | ObjectInput(fields: map<string, string>)
    | OtherInput(shown: string)

  /** The text and source each kind of input asks for: a dictionary or an object's fields by key, a string as the text. */
  function InputParams(input: Input): (p: Params)
    ensures !input.DictInput? && !input.ObjectInput? ==> p.source == DEFAULT_SOURCE
    ensures input.DictInput? ==> p == ExtractParams(input.data)
    ensures input.ObjectInput? ==> p == ExtractParams(input.fields)
    ensures input.TextInput? ==> p.text == input.text
    ensures input.NoInput? ==> p.text == NO_INPUT_TEXT
    ensures input.OtherInput? ==> p.text == input.shown
  {
    match input
    case DictInput(data) => ExtractParams(data)
    case TextInput(text) => Params(text, DEFAULT_SOURCE)
    case NoInput => Params(NO_INPUT_TEXT, DEFAULT_SOURCE)
    case ObjectInput(fields) => ExtractParams(fields)
    case OtherInput(shown) => Params(shown, DEFAULT_SOURCE)
  }

  /** The model the agent definition prefers. */
  function PrimaryModel(agent: Agent): string {
    agent.definition.primaryModel.GetOr(DEFAULT_MODEL)
  }

  /** The model's reply to the extraction request. */
  function Reply(agent: Agent, text: string, source: string): ModelResponse {
    CallModel(agent.ai, PrimaryModel(agent), ExtractionPrompt(text, source),
              Some(SystemPrompt(agent.context, agent.definition.decisions)), EXTRACTION_MAX_TOKENS)
  }

  /** What becomes of the model's reply: nothing when the call failed, otherwise the reply parsed, enriched and validated. */
  function ExtractedFromReply(agent: Agent, reply: ModelResponse): (rs: seq<TaskRecord>)
    ensures !reply.success ==> rs == []
  {
    if !reply.success then []
    else
      ValidateRecords(EnrichRecords(ParsedRecords(reply.content, agent.decode), agent.memory),
                      agent.definition.confirmationRules)
  }

  /** `extract_tasks_from_text_original` on records: the fate of the reply to the extraction request. */
  function ExtractedRecords(agent: Agent, text: string, source: string): seq<TaskRecord> {
    ExtractedFromReply(agent, Reply(agent, text, source))
  }

  /** Every extracted task is confident enough and below P1, whatever the model answered. */
  lemma ExtractedAreValid(agent: Agent, reply: ModelResponse)
    ensures forall r | r in ExtractedFromReply(agent, reply) :: r.priority != "P1" && r.confidence >= MIN_CONFIDENCE
  {
    if reply.success {
      ValidatedAreConfident(EnrichRecords(ParsedRecords(reply.content, agent.decode), agent.memory),
                            agent.definition.confirmationRules);
    }
  }

  /**
   * A preferred model no provider serves, or whose provider has no client,
   * extracts nothing, whatever the prompts.
   */
  lemma UnservedModelExtractsNothing(agent: Agent, prompt: string, systemPrompt: string)
    requires || Route(PrimaryModel(agent)) == Unrecognized
             || (Route(PrimaryModel(agent)) == OpenAi && agent.ai.openai.None?)
             || (Route(PrimaryModel(agent)) == Anthropic && agent.ai.anthropic.None?)
    ensures ExtractedFromReply(agent, CallModel(agent.ai, PrimaryModel(agent), prompt, Some(systemPrompt), EXTRACTION_MAX_TOKENS)) == []
  {
  }

  /**
   * Enrichment never changes which tasks survive validation: the same number
   * survive, and with the same contents, as without it.
   */
  lemma EnrichmentKeepsSurvivors(rs: seq<TaskRecord>, memory: Option<MemorySearch>, rules: seq<string>)
    ensures |ValidateRecords(EnrichRecords(rs, memory), rules)| == |ValidateRecords(rs, rules)|
    ensures forall m | 0 <= m < |ValidateRecords(rs, rules)| ::
      ValidateRecords(EnrichRecords(rs, memory), rules)[m].content == ValidateRecords(rs, rules)[m].content
  {
    var es := EnrichRecords(rs, memory);
    forall k | 0 <= k < |rs| ensures es[k].confidence == rs[k].confidence && es[k].content == rs[k].content {
      EnrichmentOnlyAddsContext(rs, memory, k);
    }
    ValidateIsFilterThenConstrain(es, rules);
    ValidateIsFilterThenConstrain(rs, rules);
    ConfidentAtPositions(rs, es);
    ConfidentAtPositions(rs, rs);
    var ps := KeptPositions(rs, |rs|);
    forall m | 0 <= m < |ps|
      ensures ValidateRecords(es, rules)[m].content == ValidateRecords(rs, rules)[m].content
    {
      ConstrainKeepsConfidence(Confident(es)[m], rules);
      ConstrainKeepsConfidence(Confident(rs)[m], rules);
    }
  }

  /** With no task confident enough, the filter keeps nothing. */
  lemma {:induction false} NoneConfident(rs: seq<TaskRecord>)
    requires forall k | 0 <= k < |rs| :: rs[k].confidence < MIN_CONFIDENCE
    ensures Confident(rs) == []
    decreases |rs|
  {
    if rs != [] {
      NoneConfident(rs[..|rs| - 1]);
    }
  }

  /** Tasks at the fallback confidence never pass validation, enriched or not. */
  lemma FallbackConfidenceNeverSurvives(rs: seq<TaskRecord>, memory: Option<MemorySearch>, rules: seq<string>)
    requires forall r | r in rs :: r.confidence == FALLBACK_CONFIDENCE
    ensures ValidateRecords(EnrichRecords(rs, memory), rules) == []
  {
    var es := EnrichRecords(rs, memory);
    forall k | 0 <= k < |rs| ensures es[k].confidence == FALLBACK_CONFIDENCE {
      EnrichmentOnlyAddsContext(rs, memory, k);
      assert rs[k] in rs;
    }
    ValidateIsFilterThenConstrain(es, rules);
    NoneConfident(es);
  }

  /**
   * A reply the decoder rejects, or one without a bracketed span, yields no
   * task at all: the line-scan fallback runs on a decoding error, but its tasks
   * carry confidence 0.5 and validation keeps only 0.6 and above.
   */
  lemma UndecodedReplyExtractsNothing(agent: Agent, reply: ModelResponse)
    requires JsonSpan(reply.content).None? || agent.decode(JsonSpan(reply.content).value).DecodeError?
    ensures ExtractedFromReply(agent, reply) == []
  {
    if reply.success {
      var parsed := ParsedRecords(reply.content, agent.decode);
      if JsonSpan(reply.content).Some? {
        FallbackRecordsShape(reply.content);
      }
      assert forall r | r in parsed :: r.confidence == FALLBACK_CONFIDENCE;
      FallbackConfidenceNeverSurvives(parsed, agent.memory, agent.definition.confirmationRules);
    }
  }

  /** The steps after a successful call: parse the reply, enrich the tasks, validate them. */
  method RunPipeline(agent: Agent, reply: ModelResponse) returns (tasks: seq<ExtractedTask>)
    ensures Records(tasks) == ExtractedFromReply(agent, reply)
  {
    if !reply.success {
      return [];
    }
    var parsed := ParseAiResponse(reply.content, agent.decode);
    ghost var decoded := Records(parsed);
    assert fresh(set t | t in parsed);
    var enriched := EnrichTasksWithContext(parsed, agent.memory);
    ghost var briefed := Records(enriched);
    assert briefed == EnrichRecords(decoded, agent.memory);
    tasks := ValidateAndConstrainTasks(enriched, agent.definition.confirmationRules);
    assert Records(tasks) == ValidateRecords(briefed, agent.definition.confirmationRules);
  }

  /**
   * `extract_tasks_from_text_original`: prompt, call with at most 1500 tokens,
   * and on success parse, enrich and validate; a failed call gives no tasks.
   */
  method ExtractTasksFromTextOriginal(agent: Agent, text: string, source: string)
    returns (tasks: seq<ExtractedTask>)
    ensures Records(tasks) == ExtractedRecords(agent, text, source)
  {
    var systemPrompt := SystemPrompt(agent.context, agent.definition.decisions);
    var userPrompt := ExtractionPrompt(text, source);
    var primaryModel := agent.definition.primaryModel.GetOr(DEFAULT_MODEL);
    var response := CallModel(agent.ai, primaryModel, userPrompt, Some(systemPrompt), EXTRACTION_MAX_TOKENS);
    tasks := RunPipeline(agent, response);
  }

  /** `extract_tasks_from_text`: the text and source the input asks for, then the pipeline. */
  method ExtractTasksFromText(agent: Agent, input: Input) returns (tasks: seq<ExtractedTask>)
    ensures Records(tasks) == ExtractedRecords(agent, InputParams(input).text, InputParams(input).source)
  {
    var params := InputParams(input);
    tasks := ExtractTasksFromTextOriginal(agent, params.text, params.source);
  }
}
