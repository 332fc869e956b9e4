/**
 * The agent's guardrails on extracted tasks: a P1 priority is downgraded to P2
 * and flagged; each configured confirmation rule flags the tasks its keyword
 * test recognises, the last rule that fires naming the reason; and only tasks
 * with confidence of at least 0.6 are kept.
 */
module Constraints {
  import opened Wrappers
  import opened Text
  import opened TaskModel

  const LONG_TASK_KEYWORDS: seq<string> := [
    "project", "complete", "finish", "implement", "build", "create system",
    "redesign", "overhaul", "research extensively", "deep dive"]

  const FINANCIAL_KEYWORDS: seq<string> := [
    "buy", "purchase", "pay", "invoice", "bill", "cost", "price",
    "budget", "expense", "money", "$", "invest", "subscribe"]

  const FAMILY_KEYWORDS: seq<string> := [
    "family", "wife", "husband", "kids", "children", "school",
    "vacation", "weekend", "evening", "dinner", "appointment"]

  const RULE_LONG_TASKS := "tasks_over_4_hours"
  const RULE_FINANCIAL := "tasks_with_financial_impact"
  const RULE_FAMILY := "tasks_affecting_family_schedule"

  const LONG_TASK_REASON := "Task appears to take over 4 hours"
  const FINANCIAL_REASON := "Task has potential financial impact"
  const FAMILY_REASON := "Task affects family schedule"
  const DOWNGRADE_REASON := "Priority downgraded from P1 to P2 (agent constraint)"

  const MIN_CONFIDENCE: real := 0.6

  /** `any(keyword in text for keyword in keywords)`, trying the keywords in order. */
  function AnyKeywordIn(keywords: seq<string>, text: string): (found: bool)
    ensures found <==> exists i | 0 <= i < |keywords| :: Contains(text, keywords[i])
    decreases |keywords|
  {
    if keywords == [] then false
    else if Contains(text, keywords[0]) then true
    else
      var rest := AnyKeywordIn(keywords[1..], text);
      assert forall i | 1 <= i < |keywords| :: keywords[1..][i - 1] == keywords[i];
      rest
  }

  /** `_looks_like_long_task`: some long-task keyword occurs in the lower-cased content. */
  predicate LooksLikeLongTask(content: string) {
    AnyKeywordIn(LONG_TASK_KEYWORDS, Lower(content))
  }

  /** `_has_financial_impact`: some money keyword occurs in the lower-cased content. */
  predicate HasFinancialImpact(content: string) {
    AnyKeywordIn(FINANCIAL_KEYWORDS, Lower(content))
  }

  /** `_affects_family`: some family keyword occurs in the lower-cased content. */
  predicate AffectsFamily(content: string) {
    AnyKeywordIn(FAMILY_KEYWORDS, Lower(content))
  }

  /** Lower-casing twice is lower-casing once. */
  lemma LowerIdempotent(s: string)
    ensures Lower(Lower(s)) == Lower(s)
  {
    forall i | 0 <= i < |s| ensures Lower(Lower(s))[i] == Lower(s)[i] {
      assert Lower(s)[i] == LowerChar(s[i]);
    }
  }

  /** The keyword tests ignore case: content and its lower-cased form are judged alike. */
  lemma KeywordTestsIgnoreCase(content: string)
    ensures LooksLikeLongTask(Lower(content)) == LooksLikeLongTask(content)
    ensures HasFinancialImpact(Lower(content)) == HasFinancialImpact(content)
    ensures AffectsFamily(Lower(content)) == AffectsFamily(content)
  {
    LowerIdempotent(content);
  }

  /** Lower-casing commutes with concatenation. */
  lemma LowerConcat(a: string, b: string)
    ensures Lower(a + b) == Lower(a) + Lower(b)
  {
    assert forall i | 0 <= i < |a + b| :: Lower(a + b)[i] == (Lower(a) + Lower(b))[i];
  }

  /** Whenever a keyword of a list, already lower-case, appears in the content, the content is recognised. */
  lemma KeywordRecognised(keywords: seq<string>, i: nat, before: string, after: string)
    requires i < |keywords| && Lower(keywords[i]) == keywords[i]
    ensures AnyKeywordIn(keywords, Lower(before + keywords[i] + after))
  {
    LowerConcat(before + keywords[i], after);
    LowerConcat(before, keywords[i]);
    ContainsInfix(Lower(before), keywords[i], Lower(after));
  }

  /** The confirmation rules the agent knows, and every other rule name. */
  datatype RuleKind = LongTasks | FinancialImpact | FamilySchedule | UnknownRule

  /** Which rule a configured name stands for. */
  function RuleOf(rule: string): (k: RuleKind)
    ensures k == LongTasks <==> rule == RULE_LONG_TASKS
    ensures k == FinancialImpact <==> rule == RULE_FINANCIAL
    ensures k == FamilySchedule <==> rule == RULE_FAMILY
  {
    if rule == RULE_LONG_TASKS then LongTasks
    else if rule == RULE_FINANCIAL then FinancialImpact
    else if rule == RULE_FAMILY then FamilySchedule
    else UnknownRule
  }

  /** The keywords a known rule looks for. */
  function KeywordsOf(k: RuleKind): seq<string> {
    match k
    case LongTasks => LONG_TASK_KEYWORDS
    case FinancialImpact => FINANCIAL_KEYWORDS
    case FamilySchedule => FAMILY_KEYWORDS
    case UnknownRule => []
  }

  /** Whether a known rule's keyword test recognises the content. */
  predicate Recognises(k: RuleKind, content: string) {
    AnyKeywordIn(KeywordsOf(k), Lower(content))
  }

  /** Each known rule runs its own keyword test; an unknown rule recognises nothing. */
  lemma RecognisesByRule(content: string)
    ensures Recognises(LongTasks, content) == LooksLikeLongTask(content)
    ensures Recognises(FinancialImpact, content) == HasFinancialImpact(content)
    ensures Recognises(FamilySchedule, content) == AffectsFamily(content)
    ensures !Recognises(UnknownRule, content)
  {
  }

  /** The message of a known rule. */
  function ReasonOf(k: RuleKind): string {
    match k
    case LongTasks => LONG_TASK_REASON
    case FinancialImpact => FINANCIAL_REASON
    case FamilySchedule => FAMILY_REASON
    case UnknownRule => ""
  }

  /**
   * The message a confirmation rule gives for the content: the rule's own message
   * exactly when the rule is known and its keyword test recognises the content.
   */
  function RuleReason(rule: string, content: string): (reason: Option<string>)
    ensures reason.Some? <==> Recognises(RuleOf(rule), content)
    ensures reason.Some? ==> reason.value == ReasonOf(RuleOf(rule))
    ensures reason.Some? ==> reason.value in {LONG_TASK_REASON, FINANCIAL_REASON, FAMILY_REASON}
  {
    var k := RuleOf(rule);
    if Recognises(k, content) then Some(ReasonOf(k)) else None
  }

  /** One rule of the loop: a rule that fires flags the task and overwrites the reason. */
  function ApplyRule(r: TaskRecord, rule: string): TaskRecord {
    match RuleReason(rule, r.content)
    case Some(reason) => r.(requiresConfirmation := true, confirmationReason := Some(reason))
    case None => r
  }

  /** Each rule's verdict on the content, in order: the message it gives, or none. */
  function Verdicts(rules: seq<string>, content: string): seq<Option<string>> {
    seq(|rules|, i requires 0 <= i < |rules| => RuleReason(rules[i], content))
  }

  /** The verdicts applied in order: each that fires flags the task and overwrites the reason. */
  function ApplyVerdicts(r: TaskRecord, vs: seq<Option<string>>): TaskRecord
    decreases |vs|
  {
    if vs == [] then r
    else
      var a := ApplyVerdicts(r, vs[..|vs| - 1]);
      match vs[|vs| - 1]
      case Some(reason) => a.(requiresConfirmation := true, confirmationReason := Some(reason))
      case None => a
  }

  /**
   * The rules applied in order; the last rule is applied last. No rule changes the
   * content, so every rule judges the content the task came in with.
   */
  function ApplyRules(r: TaskRecord, rules: seq<string>): TaskRecord {
    ApplyVerdicts(r, Verdicts(rules, r.content))
  }

  /** Some rule fires on the content. */
  predicate SomeRuleFires(rules: seq<string>, content: string) {
    exists i | 0 <= i < |rules| :: RuleReason(rules[i], content).Some?
  }

  /** The verdicts touch nothing but the confirmation fields. */
  lemma {:induction false} ApplyVerdictsFrame(r: TaskRecord, vs: seq<Option<string>>)
    ensures var a := ApplyVerdicts(r, vs);
      a.(requiresConfirmation := r.requiresConfirmation, confirmationReason := r.confirmationReason) == r
    decreases |vs|
  {
    if vs != [] {
      ApplyVerdictsFrame(r, vs[..|vs| - 1]);
    }
  }

  /** The verdicts raise the flag exactly when it was up or some verdict fires; they never lower it. */
  lemma {:induction false} ApplyVerdictsFlag(r: TaskRecord, vs: seq<Option<string>>)
    ensures ApplyVerdicts(r, vs).requiresConfirmation <==> r.requiresConfirmation || exists i | 0 <= i < |vs| :: vs[i].Some?
    decreases |vs|
  {
    if vs != [] {
      var init := vs[..|vs| - 1];
      ApplyVerdictsFlag(r, init);
      if exists i | 0 <= i < |init| :: init[i].Some? {
        var i :| 0 <= i < |init| && init[i].Some?;
        assert vs[i].Some?;
      }
    }
  }

  /** The reason left is that of the last verdict that fires, or the original one when none fires. */
  lemma {:induction false} LastVerdictWins(r: TaskRecord, vs: seq<Option<string>>)
    ensures (forall i | 0 <= i < |vs| :: vs[i].None?) ==> ApplyVerdicts(r, vs).confirmationReason == r.confirmationReason
    ensures forall k | 0 <= k < |vs| && vs[k].Some? && (forall j | k < j < |vs| :: vs[j].None?)
              :: ApplyVerdicts(r, vs).confirmationReason == vs[k]
    decreases |vs|
  {
    if vs != [] {
      var init := vs[..|vs| - 1];
      LastVerdictWins(r, init);
      if forall i | 0 <= i < |vs| :: vs[i].None? {
        assert forall i | 0 <= i < |init| :: init[i].None?;
      }
      forall k | 0 <= k < |vs| && vs[k].Some? && (forall j | k < j < |vs| :: vs[j].None?)
        ensures ApplyVerdicts(r, vs).confirmationReason == vs[k]
      {
        if k < |init| {
          assert vs[|vs| - 1].None?;
          assert init[k] == vs[k];
          assert forall j | k < j < |init| :: init[j].None?;
        }
      }
    }
  }

  /** Verdicts that never fire change nothing. */
  lemma {:induction false} SilentVerdicts(r: TaskRecord, vs: seq<Option<string>>)
    requires forall i | 0 <= i < |vs| :: vs[i].None?
    ensures ApplyVerdicts(r, vs) == r
    decreases |vs|
  {
    if vs != [] {
      SilentVerdicts(r, vs[..|vs| - 1]);
    }
  }

  /** Running one more rule is applying it to the task the earlier rules left. */
  lemma ApplyRulesSnoc(r: TaskRecord, rules: seq<string>, rule: string)
    ensures ApplyRules(r, rules + [rule]) == ApplyRule(ApplyRules(r, rules), rule)
  {
    var vs := Verdicts(rules + [rule], r.content);
    assert vs[..|rules|] == Verdicts(rules, r.content);
    ApplyVerdictsFrame(r, Verdicts(rules, r.content));
  }

  /** The rules touch nothing but the confirmation fields. */
  lemma ApplyRulesFrame(r: TaskRecord, rules: seq<string>)
    ensures var a := ApplyRules(r, rules);
      && a.content == r.content && a.project == r.project && a.priority == r.priority
      && a.dueDate == r.dueDate && a.context == r.context && a.confidence == r.confidence
  {
    ApplyVerdictsFrame(r, Verdicts(rules, r.content));
  }

  /** The rules raise the flag exactly when it was up or some rule fires; they never lower it. */
  lemma ApplyRulesFlag(r: TaskRecord, rules: seq<string>)
    ensures ApplyRules(r, rules).requiresConfirmation <==> r.requiresConfirmation || SomeRuleFires(rules, r.content)
  {
    var vs := Verdicts(rules, r.content);
    ApplyVerdictsFlag(r, vs);
    if exists i | 0 <= i < |vs| :: vs[i].Some? {
      var i :| 0 <= i < |vs| && vs[i].Some?;
      assert RuleReason(rules[i], r.content).Some?;
    }
    if SomeRuleFires(rules, r.content) {
      var i :| 0 <= i < |rules| && RuleReason(rules[i], r.content).Some?;
      assert vs[i].Some?;
    }
  }

  /**
   * The reason left by the rules is the message of the last rule that fires, or
   * the original reason when none fires.
   */
  lemma LastFiringRuleWins(r: TaskRecord, rules: seq<string>)
    ensures !SomeRuleFires(rules, r.content) ==> ApplyRules(r, rules).confirmationReason == r.confirmationReason
    ensures forall k | 0 <= k < |rules| && RuleReason(rules[k], r.content).Some?
                       && (forall j | k < j < |rules| :: RuleReason(rules[j], r.content).None?)
              :: ApplyRules(r, rules).confirmationReason == RuleReason(rules[k], r.content)
  {
    var vs := Verdicts(rules, r.content);
    LastVerdictWins(r, vs);
    if !SomeRuleFires(rules, r.content) {
      assert forall i | 0 <= i < |vs| :: vs[i].None?;
    }
    forall k | 0 <= k < |rules| && RuleReason(rules[k], r.content).Some?
               && (forall j | k < j < |rules| :: RuleReason(rules[j], r.content).None?)
      ensures ApplyRules(r, rules).confirmationReason == RuleReason(rules[k], r.content)
    {
      assert vs[k] == RuleReason(rules[k], r.content);
      assert forall j | k < j < |vs| :: vs[j].None?;
    }
  }

  /** Rules with names the agent does not know change nothing. */
  lemma UnknownRulesIgnored(r: TaskRecord, rules: seq<string>)
    requires forall rule | rule in rules :: RuleOf(rule) == UnknownRule
    ensures ApplyRules(r, rules) == r
  {
    var vs := Verdicts(rules, r.content);
    forall i | 0 <= i < |vs| ensures vs[i].None? {
      assert rules[i] in rules;
    }
    SilentVerdicts(r, vs);
  }

  /** The priority constraint: P1 becomes P2, flagged with the downgrade reason. */
  function Downgrade(r: TaskRecord): (d: TaskRecord)
    ensures d.priority != "P1"
    ensures r.priority == "P1" ==> d.priority == "P2" && d.requiresConfirmation && d.confirmationReason == Some(DOWNGRADE_REASON)
    ensures r.priority != "P1" ==> d == r
    ensures d.(priority := r.priority, requiresConfirmation := r.requiresConfirmation,
               confirmationReason := r.confirmationReason) == r
  {
    if r.priority == "P1" then
      r.(priority := "P2", requiresConfirmation := true, confirmationReason := Some(DOWNGRADE_REASON))
    else r
  }

  /** One task through `_validate_and_constrain_tasks`: the priority constraint, then the rules. */
  function Constrain(r: TaskRecord, rules: seq<string>): TaskRecord {
    ApplyRules(Downgrade(r), rules)
  }

  /**
   * After the constraints a task is never P1, only the priority and the
   * confirmation fields have changed, and the flag is up exactly when it was
   * already, the priority was P1, or some rule fires.
   */
  lemma ConstrainShape(r: TaskRecord, rules: seq<string>)
    ensures var c := Constrain(r, rules);
      && c.priority != "P1"
      && c.priority == (if r.priority == "P1" then "P2" else r.priority)
      && c.content == r.content && c.project == r.project && c.dueDate == r.dueDate
      && c.context == r.context && c.confidence == r.confidence
      && (c.requiresConfirmation <==> r.requiresConfirmation || r.priority == "P1" || SomeRuleFires(rules, r.content))
  {
    ApplyRulesFrame(Downgrade(r), rules);
    ApplyRulesFlag(Downgrade(r), rules);
  }

  /** The constraints never change a task's confidence or content, and leave no P1. */
  lemma ConstrainKeepsConfidence(r: TaskRecord, rules: seq<string>)
    ensures Constrain(r, rules).confidence == r.confidence && Constrain(r, rules).content == r.content
    ensures Constrain(r, rules).priority != "P1"
  {
    ApplyRulesFrame(Downgrade(r), rules);
  }

  /** A task whose flag the constraints raise always carries one of the known reasons. */
  lemma RaisedFlagHasReason(r: TaskRecord, rules: seq<string>)
    requires !r.requiresConfirmation && Constrain(r, rules).requiresConfirmation
    ensures Constrain(r, rules).confirmationReason.Some?
    ensures Constrain(r, rules).confirmationReason.value
         in {DOWNGRADE_REASON, LONG_TASK_REASON, FINANCIAL_REASON, FAMILY_REASON}
  {
    var d := Downgrade(r);
    ConstrainShape(r, rules);
    LastFiringRuleWins(d, rules);
    if SomeRuleFires(rules, r.content) {
      var k :| 0 <= k < |rules| && RuleReason(rules[k], r.content).Some?;
      var last := LastFiring(rules, r.content, k);
    }
  }

  /** The last index at or after `k` whose rule fires, given that rule `k` fires. */
  lemma LastFiring(rules: seq<string>, content: string, k: nat) returns (last: nat)
    requires k < |rules| && RuleReason(rules[k], content).Some?
    ensures k <= last < |rules| && RuleReason(rules[last], content).Some?
    ensures forall j | last < j < |rules| :: RuleReason(rules[j], content).None?
    decreases |rules| - k
  {
    if exists j | k < j < |rules| :: RuleReason(rules[j], content).Some? {
      var j :| k < j < |rules| && RuleReason(rules[j], content).Some?;
      last := LastFiring(rules, content, j);
    } else {
      last := k;
    }
  }

  /** A flag that arrives without a reason, and that no constraint touches, leaves with none. */
  lemma FlagWithoutReasonSurvives(content: string)
    ensures var r := DefaultRecord(content).(requiresConfirmation := true);
      Constrain(r, []).requiresConfirmation && Constrain(r, []).confirmationReason.None?
  {
  }

  /** Every task constrained, in order. */
  function ConstrainAll(rs: seq<TaskRecord>, rules: seq<string>): seq<TaskRecord> {
    seq(|rs|, i requires 0 <= i < |rs| => Constrain(rs[i], rules))
  }

  /** The positions, among the first `i` tasks, of those confident enough to be kept. */
  function KeptPositions(rs: seq<TaskRecord>, i: nat): (ps: seq<int>)
    requires i <= |rs|
    ensures |ps| <= i
    ensures forall m | 0 <= m < |ps| :: 0 <= ps[m] < i
  {
    if i == 0 then []
    else KeptPositions(rs, i - 1) + (if rs[i - 1].confidence >= MIN_CONFIDENCE then [i - 1] else [])
  }

  /** The kept positions increase, and are exactly the positions whose confidence is at least 0.6. */
  lemma {:induction false} KeptPositionsExact(rs: seq<TaskRecord>, i: nat)
    requires i <= |rs|
    ensures var ps := KeptPositions(rs, i);
      && (forall m, n | 0 <= m < n < |ps| :: ps[m] < ps[n])
      && (forall j | 0 <= j < i :: j in ps <==> rs[j].confidence >= MIN_CONFIDENCE)
    decreases i
  {
    if i > 0 {
      KeptPositionsExact(rs, i - 1);
      var prev := KeptPositions(rs, i - 1);
      assert i - 1 !in prev;
    }
  }

  /**
   * Filtering tasks whose confidences are those of `rs` keeps the tasks at the
   * positions the filter keeps in `rs`, in order.
   */
  lemma {:induction false} ConfidentAtPositions(rs: seq<TaskRecord>, cs: seq<TaskRecord>)
    requires |cs| == |rs| && forall i | 0 <= i < |rs| :: cs[i].confidence == rs[i].confidence
    ensures var ps := KeptPositions(rs, |rs|);
      && |Confident(cs)| == |ps|
      && forall m | 0 <= m < |ps| :: Confident(cs)[m] == cs[ps[m]]
    decreases |rs|
  {
    if rs != [] {
      var n := |rs| - 1;
      ConfidentAtPositions(rs[..n], cs[..n]);
      PositionsOfPrefix(rs, n);
    }
  }

  /** The constraints keep every task's confidence. */
  lemma ConstrainAllKeepsConfidence(rs: seq<TaskRecord>, rules: seq<string>)
    ensures forall i | 0 <= i < |rs| :: ConstrainAll(rs, rules)[i].confidence == rs[i].confidence
  {
    forall i | 0 <= i < |rs| ensures ConstrainAll(rs, rules)[i].confidence == rs[i].confidence {
      ConstrainKeepsConfidence(rs[i], rules);
    }
  }

  /** The kept positions among the first `i` tasks depend only on those tasks. */
  lemma {:induction false} PositionsOfPrefix(rs: seq<TaskRecord>, i: nat)
    requires i <= |rs|
    ensures KeptPositions(rs[..i], i) == KeptPositions(rs, i)
    decreases i
  {
    if i > 0 {
      PositionsOfPrefix(rs[..i], i - 1);
      assert rs[..i][..i - 1] == rs[..i - 1];
      PositionsOfPrefix(rs, i - 1);
    }
  }

  /** The tasks with confidence of at least 0.6, in order. */
  function Confident(rs: seq<TaskRecord>): (cs: seq<TaskRecord>)
    ensures |cs| <= |rs|
    decreases |rs|
  {
    if rs == [] then []
    else
      var last := rs[|rs| - 1];
      Confident(rs[..|rs| - 1]) + (if last.confidence >= MIN_CONFIDENCE then [last] else [])
  }

  /** The filter keeps exactly the confident tasks, and nothing else. */
  lemma {:induction false} ConfidentMembers(rs: seq<TaskRecord>)
    ensures forall r | r in Confident(rs) :: r in rs && r.confidence >= MIN_CONFIDENCE
    ensures forall r | r in rs && r.confidence >= MIN_CONFIDENCE :: r in Confident(rs)
    decreases |rs|
  {
    if rs != [] {
      var init := rs[..|rs| - 1];
      ConfidentMembers(init);
      assert rs == init + [rs[|rs| - 1]];
    }
  }

  /** `_validate_and_constrain_tasks` on records: every task constrained, the confident ones kept, in order. */
  function ValidateRecords(rs: seq<TaskRecord>, rules: seq<string>): seq<TaskRecord> {
    Confident(ConstrainAll(rs, rules))
  }

  /** Every validated task is confident enough and not P1. */
  lemma ValidatedAreConfident(rs: seq<TaskRecord>, rules: seq<string>)
    ensures forall v | v in ValidateRecords(rs, rules) :: v.priority != "P1" && v.confidence >= MIN_CONFIDENCE
  {
    ConfidentMembers(ConstrainAll(rs, rules));
    forall v | v in ValidateRecords(rs, rules) ensures v.priority != "P1" {
      var i :| 0 <= i < |rs| && ConstrainAll(rs, rules)[i] == v;
      ConstrainKeepsConfidence(rs[i], rules);
    }
  }

  /**
   * Validation keeps, in their original order and each exactly once, the
   * constrained tasks at the positions whose confidence is at least 0.6.
   */
  lemma ValidatedInOrder(rs: seq<TaskRecord>, rules: seq<string>)
    ensures var ps := KeptPositions(rs, |rs|);
      && |ValidateRecords(rs, rules)| == |ps|
      && (forall m | 0 <= m < |ps| :: ValidateRecords(rs, rules)[m] == Constrain(rs[ps[m]], rules))
      && (forall m, n | 0 <= m < n < |ps| :: ps[m] < ps[n])
      && (forall j | 0 <= j < |rs| :: j in ps <==> rs[j].confidence >= MIN_CONFIDENCE)
  {
    ConstrainAllKeepsConfidence(rs, rules);
    ConfidentAtPositions(rs, ConstrainAll(rs, rules));
    KeptPositionsExact(rs, |rs|);
  }

  /**
   * Constraining every task and keeping the confident ones, as the source does,
   * is constraining only the tasks that pass the confidence filter: the
   * constraints never change a task's confidence.
   */
  lemma ValidateIsFilterThenConstrain(rs: seq<TaskRecord>, rules: seq<string>)
    ensures ValidateRecords(rs, rules) == ConstrainAll(Confident(rs), rules)
  {
    ConstrainAllKeepsConfidence(rs, rules);
    ConfidentAtPositions(rs, ConstrainAll(rs, rules));
    ConfidentAtPositions(rs, rs);
  }

  /** The loop over the rules for one task, as the source runs it. */
  method ApplyConfirmationRules(task: ExtractedTask, rules: seq<string>)
    modifies task
    ensures task.Record() == ApplyRules(old(task.Record()), rules)
  {
    ghost var start := task.Record();
    for j := 0 to |rules|
      invariant task.Record() == ApplyRules(start, rules[..j])
    {
      ApplyRulesSnoc(start, rules[..j], rules[j]);
      assert rules[..j + 1] == rules[..j] + [rules[j]];
      var rule := rules[j];
      if rule == RULE_LONG_TASKS && LooksLikeLongTask(task.content) {
        task.requiresConfirmation := true;
        task.confirmationReason := Some(LONG_TASK_REASON);
      } else if rule == RULE_FINANCIAL && HasFinancialImpact(task.content) {
        task.requiresConfirmation := true;
        task.confirmationReason := Some(FINANCIAL_REASON);
      } else if rule == RULE_FAMILY && AffectsFamily(task.content) {
        task.requiresConfirmation := true;
        task.confirmationReason := Some(FAMILY_REASON);
      }
    }
    assert rules[..|rules|] == rules;
  }

  /** The body of the validation loop for one task: the priority constraint, then the rules. */
  method ConstrainTask(task: ExtractedTask, rules: seq<string>)
    modifies task
    ensures task.Record() == Constrain(old(task.Record()), rules)
  {
    if task.priority == "P1" {
      task.priority := "P2";
      task.requiresConfirmation := true;
      task.confirmationReason := Some(DOWNGRADE_REASON);
    }
    ApplyConfirmationRules(task, rules);
  }

  /** The task at position `i` constrained in place; every other task is left as it was. */
  method ConstrainAt(tasks: seq<ExtractedTask>, i: nat, rules: seq<string>)
    requires i < |tasks| && Distinct(tasks)
    modifies tasks[i]
    ensures tasks[i].Record() == Constrain(old(tasks[i].Record()), rules)
    ensures forall k | 0 <= k < |tasks| && k != i :: tasks[k].Record() == old(tasks[k].Record())
  {
    ConstrainTask(tasks[i], rules);
    forall k | 0 <= k < |tasks| && k != i ensures tasks[k].Record() == old(tasks[k].Record()) {
      assert tasks[k] != tasks[i];
    }
  }

  /** Position `k` of `after` holds the task at `k` of `before`, constrained. */
  ghost predicate ConstrainedAt(after: seq<TaskRecord>, before: seq<TaskRecord>, rules: seq<string>, k: int) {
    0 <= k < |after| && k < |before| && after[k] == Constrain(before[k], rules)
  }

  /**
   * `after` is `before` constrained, position by position; a position is only
   * looked at where a proof asks about it.
   */
  ghost predicate ConstrainedView(after: seq<TaskRecord>, before: seq<TaskRecord>, rules: seq<string>) {
    && |after| == |before|
    && forall k {:trigger ConstrainedAt(after, before, rules, k)} | 0 <= k < |before| :: ConstrainedAt(after, before, rules, k)
  }

  /** The constrained list is a constrained view of the tasks. */
  lemma ConstrainAllView(rs: seq<TaskRecord>, rules: seq<string>)
    ensures ConstrainedView(ConstrainAll(rs, rules), rs, rules)
  {
    forall k | 0 <= k < |rs| ensures ConstrainedAt(ConstrainAll(rs, rules), rs, rules, k) {
    }
  }

  /**
   * `_validate_and_constrain_tasks`: every task is constrained in place (the
   * dropped ones too), and the confident ones are returned in order.
   */
  method ValidateAndConstrainTasks(tasks: seq<ExtractedTask>, rules: seq<string>)
    returns (validated: seq<ExtractedTask>)
    requires Distinct(tasks)
    modifies tasks
    ensures Records(validated) == ValidateRecords(old(Records(tasks)), rules)
    ensures Records(tasks) == ConstrainAll(old(Records(tasks)), rules)
    ensures forall t | t in validated :: t in tasks
  {
    ghost var before := Records(tasks);
    ghost var after := ConstrainAll(before, rules);
    ConstrainAllKeepsConfidence(before, rules);
    ConstrainAllView(before, rules);
    ghost var from;
    validated, from := ConstrainEach(tasks, rules, before, after);
    ConfidentAtPositions(before, after);
    forall m | 0 <= m < |validated| ensures Records(validated)[m] == Confident(after)[m] {
      assert validated[m] == tasks[from[m]];
    }
  }

  /** The loop of `_validate_and_constrain_tasks`: each task constrained in turn, the confident ones collected. */
  method ConstrainEach(tasks: seq<ExtractedTask>, rules: seq<string>, ghost before: seq<TaskRecord>, ghost after: seq<TaskRecord>)
    returns (validated: seq<ExtractedTask>, ghost from: seq<int>)
    requires Distinct(tasks) && Records(tasks) == before && ConstrainedView(after, before, rules)
    modifies tasks
    ensures forall k | 0 <= k < |tasks| :: tasks[k].Record() == after[k]
    ensures from == KeptPositions(before, |tasks|)
    ensures |from| == |validated|
    ensures forall m | 0 <= m < |validated| :: validated[m] == tasks[from[m]]
  {
    from := [];
    validated := [];
    for i := 0 to |tasks|
      invariant forall k | 0 <= k < i :: tasks[k].Record() == after[k]
      invariant forall k | i <= k < |tasks| :: tasks[k].Record() == before[k]
      invariant from == KeptPositions(before, i)
      invariant |from| == |validated|
      invariant forall m | 0 <= m < |validated| :: validated[m] == tasks[from[m]]
    {
      validated, from := ValidateTaskAt(tasks, rules, i, validated, before, after, from);
    }
  }

  /** One turn of the validation loop: the task at `i` constrained, and kept when confident. */
  method ValidateTaskAt(tasks: seq<ExtractedTask>, rules: seq<string>, i: nat, validated: seq<ExtractedTask>,
                        ghost before: seq<TaskRecord>, ghost after: seq<TaskRecord>, ghost from: seq<int>)
    returns (validated': seq<ExtractedTask>, ghost from': seq<int>)
    requires Distinct(tasks) && i < |tasks| == |before|
    requires ConstrainedView(after, before, rules)
    requires forall k | 0 <= k < i :: tasks[k].Record() == after[k]
    requires forall k | i <= k < |tasks| :: tasks[k].Record() == before[k]
    requires from == KeptPositions(before, i)
    requires |from| == |validated|
    requires forall m | 0 <= m < |validated| :: validated[m] == tasks[from[m]]
    modifies tasks[i]
    ensures forall k | 0 <= k < i + 1 :: tasks[k].Record() == after[k]
    ensures forall k | i + 1 <= k < |tasks| :: tasks[k].Record() == before[k]
    ensures from' == KeptPositions(before, i + 1)
    ensures |from'| == |validated'|
    ensures forall m | 0 <= m < |validated'| :: validated'[m] == tasks[from'[m]]
  {
    var task := tasks[i];
    assert ConstrainedAt(after, before, rules, i);
    ConstrainKeepsConfidence(before[i], rules);
    ConstrainAt(tasks, i, rules);
    validated', from' := validated, from;
    if task.confidence >= MIN_CONFIDENCE {
      validated' := validated + [task];
      from' := from + [i];
    }
  }
}
