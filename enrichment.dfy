/**
 * The pre-flight brief: each extracted task's context is extended with short
 * excerpts of the memories most relevant to its content.
 *
 * The memory system is an oracle: `MemorySearch` gives, for a query, a result
 * limit and a relevance threshold, either the hits (their source tag, their
 * timestamp already formatted as a date, their content) or a failure, which
 * stands for any exception raised while searching or reading the hits.
 */
module Enrichment {
  import opened Wrappers
  import opened Text
  import opened TaskModel

  /** One search result: the `source` metadata entry if present, the entry's date, and its content. */
  datatype MemoryHit = MemoryHit(source: Option<string>, date: string, content: string)

  datatype SearchOutcome = Hits(hits: seq<MemoryHit>) | SearchFailed(error: string)

  /** `search_memories(query, limit, threshold)`. */
  type MemorySearch = (string, nat, real) -> SearchOutcome

  const SEARCH_LIMIT: nat := 2
  const SEARCH_THRESHOLD: real := 0.6
  const SNIPPET_LENGTH: nat := 150
  const ELLIPSIS := "..."
  const UNKNOWN_SOURCE := "unknown"
  const BRIEF_HEADER := "\nPRE-FLIGHT CONTEXT:\n"

  /** A memory's content, cut to 150 characters and marked with an ellipsis when longer. */
  function Snippet(content: string): (s: string)
    ensures |s| <= SNIPPET_LENGTH + |ELLIPSIS|
    ensures |content| <= SNIPPET_LENGTH ==> s == content
    ensures |content| > SNIPPET_LENGTH ==>
      |s| == SNIPPET_LENGTH + |ELLIPSIS| && s[..SNIPPET_LENGTH] <= content && EndsWith(s, ELLIPSIS)
  {
    if |content| > SNIPPET_LENGTH then content[..SNIPPET_LENGTH] + ELLIPSIS else content
  }

  /** The line a hit contributes to the brief: its source, its date, its snippet. */
  function HitLine(hit: MemoryHit): string {
    "• From " + hit.source.GetOr(UNKNOWN_SOURCE) + " (" + hit.date + "): " + Snippet(hit.content)
  }

  /** The text appended to a task's context: the header, then one line per hit. */
  function Brief(hits: seq<MemoryHit>): string {
    BRIEF_HEADER + Join("\n", seq(|hits|, i requires 0 <= i < |hits| => HitLine(hits[i])))
  }

  /** The brief names every hit, in a line of its own making. */
  lemma BriefListsEveryHit(hits: seq<MemoryHit>)
    ensures BRIEF_HEADER <= Brief(hits)
    ensures forall k | 0 <= k < |hits| :: Contains(Brief(hits), HitLine(hits[k]))
  {
    var lines := seq(|hits|, i requires 0 <= i < |hits| => HitLine(hits[i]));
    forall k | 0 <= k < |hits| ensures Contains(Brief(hits), HitLine(hits[k])) {
      JoinContainsPart("\n", lines, k);
      ContainsWithin(BRIEF_HEADER, Join("\n", lines), "", lines[k]);
      assert BRIEF_HEADER + Join("\n", lines) + "" == Brief(hits);
    }
  }

  /** A hit's line ends with its snippet, so a memory's content is quoted from its start. */
  lemma HitLineEndsWithSnippet(hit: MemoryHit)
    ensures EndsWith(HitLine(hit), Snippet(hit.content))
    ensures hit.source.None? ==> Contains(HitLine(hit), UNKNOWN_SOURCE)
  {
    var head := "• From " + hit.source.GetOr(UNKNOWN_SOURCE) + " (" + hit.date + "): ";
    assert HitLine(hit) == head + Snippet(hit.content);
    if hit.source.None? {
      ContainsInfix("• From ", UNKNOWN_SOURCE, " (" + hit.date + "): " + Snippet(hit.content));
      assert "• From " + UNKNOWN_SOURCE + (" (" + hit.date + "): " + Snippet(hit.content)) == HitLine(hit);
    }
  }

  /** Whether a search outcome leads to a brief: a search that succeeded with at least one hit. */
  predicate Relevant(outcome: SearchOutcome) {
    outcome.Hits? && outcome.hits != []
  }

  /** The search issued for a task: its content, at most two hits, relevance at least 0.6. */
  function SearchFor(r: TaskRecord, search: MemorySearch): SearchOutcome {
    search(r.content, SEARCH_LIMIT, SEARCH_THRESHOLD)
  }

  /** The context a brief gives a task: appended on a new line to a non-empty context, else the brief alone. */
  function ExtendContext(context: Option<string>, brief: string): (c: Option<string>)
    ensures c.Some? && EndsWith(c.value, brief)
    ensures Truthy(context) ==> context.value + "\n" <= c.value
    ensures !Truthy(context) ==> c.value == brief
  {
    if Truthy(context) then Some(context.value + "\n" + brief) else Some(brief)
  }

  /** One task enriched: only its context changes, and only when the search found something. */
  function EnrichRecord(r: TaskRecord, search: MemorySearch): (e: TaskRecord)
    ensures e.(context := r.context) == r
    ensures !Relevant(SearchFor(r, search)) ==> e == r
    ensures Relevant(SearchFor(r, search)) ==> e.context == ExtendContext(r.context, Brief(SearchFor(r, search).hits))
  {
    var outcome := SearchFor(r, search);
    if Relevant(outcome) then r.(context := ExtendContext(r.context, Brief(outcome.hits))) else r
  }

  /**
   * `_enrich_tasks_with_context` on the tasks' fields: unchanged without a
   * memory system, otherwise each task enriched on its own.
   */
  function EnrichRecords(rs: seq<TaskRecord>, memory: Option<MemorySearch>): (es: seq<TaskRecord>)
    ensures |es| == |rs|
    ensures memory.None? ==> es == rs
    ensures memory.Some? ==> forall i | 0 <= i < |rs| :: es[i] == EnrichRecord(rs[i], memory.value)
  {
    if memory.None? then rs else seq(|rs|, i requires 0 <= i < |rs| => EnrichRecord(rs[i], memory.value))
  }

  /**
   * Enrichment only ever adds to a context: an enriched task keeps its content,
   * priority, confidence and flags, its earlier non-empty context is kept as a
   * prefix, and a changed context holds the brief's header.
   */
  lemma EnrichmentOnlyAddsContext(rs: seq<TaskRecord>, memory: Option<MemorySearch>, k: nat)
    requires k < |rs|
    ensures var e := EnrichRecords(rs, memory)[k];
      && e.content == rs[k].content && e.priority == rs[k].priority
      && e.confidence == rs[k].confidence && e.dueDate == rs[k].dueDate && e.project == rs[k].project
      && e.requiresConfirmation == rs[k].requiresConfirmation
      && e.confirmationReason == rs[k].confirmationReason
      && (e.context != rs[k].context ==> e.context.Some? && Contains(e.context.value, BRIEF_HEADER))
      && (Truthy(rs[k].context) ==> e.context.Some? && rs[k].context.value <= e.context.value)
  {
    var e := EnrichRecords(rs, memory)[k];
    if memory.Some? && Relevant(SearchFor(rs[k], memory.value)) {
      var brief := Brief(SearchFor(rs[k], memory.value).hits);
      var c := e.context.value;
      assert c[|c| - |brief|..] == brief;
      BriefListsEveryHit(SearchFor(rs[k], memory.value).hits);
      ContainsInfix("", BRIEF_HEADER, brief[|BRIEF_HEADER|..]);
      assert "" + BRIEF_HEADER + brief[|BRIEF_HEADER|..] == brief;
      ContainsWithin(c[..|c| - |brief|], brief, "", BRIEF_HEADER);
      assert c[..|c| - |brief|] + brief + "" == c;
      if Truthy(rs[k].context) {
        assert rs[k].context.value <= rs[k].context.value + "\n";
      }
    }
  }

  /**
   * A task whose search failed, or found nothing, is left exactly as it was,
   * whatever the searches for the other tasks gave.
   */
  lemma FailedSearchLeavesTask(rs: seq<TaskRecord>, search: MemorySearch, k: nat)
    requires k < |rs| && !Relevant(SearchFor(rs[k], search))
    ensures EnrichRecords(rs, Some(search))[k] == rs[k]
  {
  }

  /** The body of the enrichment loop for one task. */
  method EnrichTask(task: ExtractedTask, search: MemorySearch)
    modifies task
    ensures task.Record() == EnrichRecord(old(task.Record()), search)
  {
    var results := search(task.content, SEARCH_LIMIT, SEARCH_THRESHOLD);
    if results.Hits? && results.hits != [] {
      var enrichment := Brief(results.hits);
      if task.context.Some? && task.context.value != "" {
        task.context := Some(task.context.value + "\n" + enrichment);
      } else {
        task.context := Some(enrichment);
      }
    }
  }

  /** The task at position `i` enriched in place; every other task is left as it was. */
  method EnrichAt(tasks: seq<ExtractedTask>, i: nat, search: MemorySearch)
    requires i < |tasks| && Distinct(tasks)
    modifies tasks[i]
    ensures tasks[i].Record() == EnrichRecord(old(tasks[i].Record()), search)
    ensures forall k | 0 <= k < |tasks| && k != i :: tasks[k].Record() == old(tasks[k].Record())
  {
    EnrichTask(tasks[i], search);
    forall k | 0 <= k < |tasks| && k != i ensures tasks[k].Record() == old(tasks[k].Record()) {
      assert tasks[k] != tasks[i];
    }
  }

  /**
   * `_enrich_tasks_with_context`: without a memory system the same list comes
   * back; otherwise every task is enriched in place and the same tasks are
   * returned in the same order.
   */
  method EnrichTasksWithContext(tasks: seq<ExtractedTask>, memory: Option<MemorySearch>)
    returns (enriched: seq<ExtractedTask>)
    requires Distinct(tasks)
    modifies tasks
    ensures enriched == tasks
    ensures Records(tasks) == EnrichRecords(old(Records(tasks)), memory)
  {
    if memory.None? {
      return tasks;
    }
    var search := memory.value;
    ghost var before := Records(tasks);
    enriched := [];
    for i := 0 to |tasks|
      invariant enriched == tasks[..i]
      invariant forall k | 0 <= k < i :: tasks[k].Record() == EnrichRecord(before[k], search)
      invariant forall k | i <= k < |tasks| :: tasks[k].Record() == before[k]
    {
      EnrichAt(tasks, i, search);
      enriched := enriched + [tasks[i]];
    }
  }
}
