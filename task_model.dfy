/**
 * The extracted task. The pipeline creates task objects and then updates them in
 * place (enrichment appends to the context, validation rewrites the priority and
 * the confirmation flag), so a task is a class; `TaskRecord` is the value of its
 * fields at one moment, the abstraction every specification function works on.
 */
module TaskModel {
  import opened Wrappers

  /** The fields of one extracted task. */
  datatype TaskRecord = TaskRecord(
    content: string,
    project: Option<string>,
    priority: string,
    dueDate: Option<string>,
    context: Option<string>,
    confidence: real,
    requiresConfirmation: bool,
    confirmationReason: Option<string>)

  const DEFAULT_PRIORITY := "P3"

  /** A task built from its content alone: the dataclass defaults for every other field. */
  function DefaultRecord(content: string): (r: TaskRecord)
    ensures r.content == content && r.priority == DEFAULT_PRIORITY && r.confidence == 0.0
    ensures r.project.None? && r.dueDate.None? && r.context.None?
    ensures !r.requiresConfirmation && r.confirmationReason.None?
  {
    TaskRecord(content, None, DEFAULT_PRIORITY, None, None, 0.0, false, None)
  }

  class ExtractedTask {
    var content: string
    var project: Option<string>
    var priority: string
    var dueDate: Option<string>
    var context: Option<string>
    var confidence: real
    var requiresConfirmation: bool
    var confirmationReason: Option<string>

    /** The current value of every field. */
    function Record(): TaskRecord
      reads this
    {
      TaskRecord(content, project, priority, dueDate, context, confidence, requiresConfirmation, confirmationReason)
    }

    constructor (r: TaskRecord)
      ensures Record() == r
    {
      content := r.content;
      project := r.project;
      priority := r.priority;
      dueDate := r.dueDate;
      context := r.context;
      confidence := r.confidence;
      requiresConfirmation := r.requiresConfirmation;
      confirmationReason := r.confirmationReason;
    }
  }

  /** The records of a list of tasks, position by position. */
  function Records(ts: seq<ExtractedTask>): (rs: seq<TaskRecord>)
    reads ts
    ensures |rs| == |ts|
    ensures forall i | 0 <= i < |ts| :: rs[i] == ts[i].Record()
  {
    seq(|ts|, i reads ts requires 0 <= i < |ts| => ts[i].Record())
  }

  /** Appending a task appends its record. */
  lemma RecordsAppend(ts: seq<ExtractedTask>, t: ExtractedTask)
    ensures Records(ts + [t]) == Records(ts) + [t.Record()]
    ensures forall u | u in ts + [t] :: u in ts || u == t
  {
    assert (ts + [t])[..|ts|] == ts;
  }

  /** No task object occurs twice in the list. */
  predicate Distinct(ts: seq<ExtractedTask>) {
    forall i, j | 0 <= i < j < |ts| :: ts[i] != ts[j]
  }

  /** Appending an object not in a duplicate-free list keeps it duplicate-free. */
  lemma DistinctAppend(ts: seq<ExtractedTask>, t: ExtractedTask)
    requires Distinct(ts) && t !in ts
    ensures Distinct(ts + [t])
  {
  }

  /** Two duplicate-free lists with no object in common join into a duplicate-free list. */
  lemma DistinctConcat(ts: seq<ExtractedTask>, us: seq<ExtractedTask>)
    requires Distinct(ts) && Distinct(us) && forall u | u in us :: u !in ts
    ensures Distinct(ts + us)
  {
    forall i, j | 0 <= i < j < |ts + us| ensures (ts + us)[i] != (ts + us)[j] {
      if j >= |ts| && i < |ts| {
        assert (ts + us)[j] in us;
      }
    }
  }

  /** The records of a concatenation are the concatenated records. */
  lemma RecordsConcat(ts: seq<ExtractedTask>, us: seq<ExtractedTask>)
    ensures Records(ts + us) == Records(ts) + Records(us)
  {
  }

  /** A prefix of the tasks has the prefix of the records, and stays duplicate-free. */
  lemma PrefixRecords(ts: seq<ExtractedTask>, n: nat)
    requires n <= |ts|
    ensures Records(ts[..n]) == Records(ts)[..n]
    ensures Distinct(ts) ==> Distinct(ts[..n])
    ensures forall t | t in ts[..n] :: t in ts
  {
  }
}
