/**
 * The two prompts of the extraction call: the system prompt, which names the
 * active projects (the first five `### ` headings of the projects context file)
 * and the allowed project categories (from the first `project_assignment`
 * decision of the agent definition), and the user prompt around the text.
 */
module Prompts {
  import opened Text

  /** The context file, relative to the data root, whose headings name the active projects. */
  const PROJECTS_FILE := "personal/context/current_projects.md"
  const MAX_ACTIVE_PROJECTS := 5
  const NO_ACTIVE_PROJECTS := "None specified"
  const DEFAULT_CATEGORIES := "Work, Personal, Learning"

  const SYSTEM_PROMPT_INTRO :=
    "You are a task extraction agent. Your job is to identify actionable tasks from text.\n"
    + "\n"
    + "CURRENT CONTEXT:\n"

  const SYSTEM_PROMPT_RULES :=
    "\n"
    + "EXTRACTION RULES:\n"
    + "1. Only extract clearly actionable items (verbs like: call, email, write, research, book, schedule, etc.)\n"
    + "2. Ignore vague thoughts, reflections, or general notes\n"
    + "3. Each task should be specific and achievable\n"
    + "4. Assign appropriate project category from allowed list\n"
    + "5. Set priority levels: P1 (urgent), P2 (high), P3 (normal), P4 (low)\n"
    + "\n"
    + "CONSTRAINTS:\n"
    + "- Maximum priority assignable: P2 (cannot create P1 without confirmation)\n"
    + "- Flag tasks over 4 hours for confirmation\n"
    + "- Flag tasks with financial impact for confirmation\n"
    + "- Flag tasks affecting family schedule for confirmation\n"
    + "\n"
    + "RESPONSE FORMAT:\n"
    + "Return a JSON array of tasks with this structure:\n"
    + "[\n"
    + "  {\n"
    + "    \"content\": \"Clear, actionable task description\",\n"
    + "    \"project\": \"Project category from allowed list\",\n"
    + "    \"priority\": \"P2|P3|P4\",\n"
    + "    \"due_date\": \"relative date if mentioned (e.g., 'today', 'tomorrow', 'this week')\",\n"
    + "    \"context\": \"Brief context or notes\",\n"
    + "    \"confidence\": 0.9,\n"
    + "    \"requires_confirmation\": false,\n"
    + "    \"confirmation_reason\": null\n"
    + "  }\n"
    + "]\n"
    + "\n"
    + "Be conservative - it's better to miss a vague item than create unclear tasks."

  const EXTRACTION_PROMPT_HEAD :=
    "Please extract actionable tasks from the following text:\n"
    + "\n"
  const EXTRACTION_PROMPT_MIDDLE := "\nTEXT:\n"
  const EXTRACTION_PROMPT_TAIL :=
    "\n"
    + "Extract only clear, actionable items that can be completed. "
    + "Ignore general thoughts, reflections, or vague ideas. "
    + "Focus on specific actions with verbs like: call, email, write, research, book, schedule, buy, fix, etc.\n"
    + "\n"
    + "Return the tasks as a JSON array following the specified format."

  /** One entry of the agent definition's `decisions` list. */
  datatype Decision = ProjectAssignment(categories: seq<string>) | OtherDecision

  /** A line the pattern `^### (.+)$` matches: `### ` followed by at least one character. */
  predicate IsHeading(line: string) {
    |line| > 4 && line[..4] == "### "
  }

  /** The captured names of the heading lines, in order. */
  function HeadingsOf(lines: seq<string>): (hs: seq<string>)
    ensures |hs| <= |lines|
    ensures forall h | h in hs :: h != [] && "### " + h in lines
    decreases |lines|
  {
    if lines == [] then []
    else
      var rest := HeadingsOf(lines[1..]);
      if IsHeading(lines[0]) then
        assert "### " + lines[0][4..] == lines[0];
        [lines[0][4..]] + rest
      else rest
  }

  /** The headings of two runs of lines are those of the first run, then those of the second. */
  lemma {:induction false} HeadingsOfConcat(a: seq<string>, b: seq<string>)
    ensures HeadingsOf(a + b) == HeadingsOf(a) + HeadingsOf(b)
    decreases |a|
  {
    if a == [] {
      assert a + b == b;
    } else {
      assert (a + b)[0] == a[0] && (a + b)[1..] == a[1..] + b;
      HeadingsOfConcat(a[1..], b);
    }
  }

  /** A single line gives its name exactly when it is a heading line. */
  lemma HeadingsOfSingle(line: string)
    ensures HeadingsOf([line]) == if IsHeading(line) then [line[4..]] else []
  {
    assert [line][1..] == [];
  }

  /** Every heading line is captured, in the order of the lines. */
  lemma {:induction false} HeadingsOfCaptures(lines: seq<string>, k: nat)
    requires k < |lines| && IsHeading(lines[k])
    ensures var before := HeadingsOf(lines[..k]);
      |before| < |HeadingsOf(lines)| && HeadingsOf(lines)[|before|] == lines[k][4..]
  {
    assert lines == lines[..k] + ([lines[k]] + lines[k + 1..]);
    HeadingsOfConcat(lines[..k], [lines[k]] + lines[k + 1..]);
    HeadingsOfConcat([lines[k]], lines[k + 1..]);
    HeadingsOfSingle(lines[k]);
  }

  /** `re.findall(r'^### (.+)$', text, re.MULTILINE)`: line by line, since `.` never crosses a newline. */
  function Headings(text: string): (hs: seq<string>)
    ensures forall h | h in hs :: h != [] && '\n' !in h && "### " + h in Lines(text)
  {
    HeadingsOf(Lines(text))
  }

  /** The active projects: the first five headings of the projects file, or none when it was not loaded. */
  function ActiveProjects(context: map<string, string>): (ps: seq<string>)
    ensures |ps| <= MAX_ACTIVE_PROJECTS
    ensures PROJECTS_FILE !in context ==> ps == []
    ensures PROJECTS_FILE in context ==> ps <= Headings(context[PROJECTS_FILE])
    ensures PROJECTS_FILE in context && |Headings(context[PROJECTS_FILE])| <= MAX_ACTIVE_PROJECTS
      ==> ps == Headings(context[PROJECTS_FILE])
    ensures PROJECTS_FILE in context && |Headings(context[PROJECTS_FILE])| > MAX_ACTIVE_PROJECTS
      ==> |ps| == MAX_ACTIVE_PROJECTS
  {
    if PROJECTS_FILE !in context then []
    else
      var hs := Headings(context[PROJECTS_FILE]);
      if |hs| <= MAX_ACTIVE_PROJECTS then hs else hs[..MAX_ACTIVE_PROJECTS]
  }

  /** The categories of the first `project_assignment` decision, or none when there is no such decision. */
  function AllowedCategories(decisions: seq<Decision>): (cs: seq<string>)
    ensures (forall d | d in decisions :: d.OtherDecision?) ==> cs == []
    ensures forall k | 0 <= k < |decisions| && decisions[k].ProjectAssignment?
                      && (forall j | 0 <= j < k :: decisions[j].OtherDecision?)
              :: cs == decisions[k].categories
    decreases |decisions|
  {
    if decisions == [] then []
    else if decisions[0].ProjectAssignment? then
      assert decisions[0] in decisions;
      decisions[0].categories
    else
      var cs := AllowedCategories(decisions[1..]);
      assert forall k | 1 <= k < |decisions| :: decisions[1..][k - 1] == decisions[k];
      cs
  }

  /** A list joined with `, `, or the stated default when the list is empty. */
  function ListOr(items: seq<string>, default: string): (s: string)
    ensures items == [] ==> s == default
    ensures items != [] ==> s == Join(", ", items)
  {
    if items == [] then default else Join(", ", items)
  }

  /** The context line naming the active projects. */
  function ActiveLine(projects: seq<string>): string {
    "- Active Projects: " + ListOr(projects, NO_ACTIVE_PROJECTS)
  }

  /** The context line naming the allowed categories. */
  function AllowedLine(categories: seq<string>): string {
    "- Allowed Project Categories: " + ListOr(categories, DEFAULT_CATEGORIES)
  }

  /**
   * `_build_system_prompt`: the fixed instructions, with one line naming the
   * active projects and the next naming the allowed categories.
   */
  function SystemPrompt(context: map<string, string>, decisions: seq<Decision>): (p: string)
    ensures Contains(p, ActiveLine(ActiveProjects(context)) + "\n" + AllowedLine(AllowedCategories(decisions)) + "\n")
  {
    var active := ActiveLine(ActiveProjects(context));
    var allowed := AllowedLine(AllowedCategories(decisions));
    ContainsInfix(SYSTEM_PROMPT_INTRO, active + "\n" + allowed + "\n", SYSTEM_PROMPT_RULES);
    SYSTEM_PROMPT_INTRO + (active + "\n" + allowed + "\n") + SYSTEM_PROMPT_RULES
  }

  /** `_build_extraction_prompt`: the fixed request around the source name and the text, each on its own line. */
  function ExtractionPrompt(text: string, source: string): (p: string)
    ensures Contains(p, "SOURCE: " + source + "\nTEXT:\n" + text + "\n")
  {
    var request := "SOURCE: " + source + EXTRACTION_PROMPT_MIDDLE + text + "\n";
    ContainsInfix(EXTRACTION_PROMPT_HEAD, request, EXTRACTION_PROMPT_TAIL);
    EXTRACTION_PROMPT_HEAD + request + EXTRACTION_PROMPT_TAIL
  }
}
