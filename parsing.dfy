/**
 * Turning the model's reply into tasks: the JSON array is located as the span
 * from the first `[` to the last `]`, decoded, and each object becomes a task
 * with the dataclass defaults for its missing keys. Only when the span fails to
 * decode are bullet and numbered lines scanned for instead; a reply with no span
 * at all yields no tasks.
 *
 * JSON decoding itself is not modelled: a `Decoder` gives, for a span, either its
 * objects (one `RawTask` per array element) or a decoding error.
 */
module Parsing {
  import opened Wrappers
  import opened Text
  import opened TaskModel

  /** One decoded JSON object; `None` for a key the object does not have. */
  datatype RawTask = RawTask(
    content: Option<string>,
    project: Option<string>,
    priority: Option<string>,
    dueDate: Option<string>,
    context: Option<string>,
    confidence: Option<real>,
    requiresConfirmation: Option<bool>,
    confirmationReason: Option<string>)

  datatype DecodeOutcome = Decoded(items: seq<RawTask>) | DecodeError(message: string)

  type Decoder = string -> DecodeOutcome

  /** The task for one decoded object: each missing key takes the dataclass default. */
  function FromRaw(raw: RawTask): TaskRecord {
    TaskRecord(
      raw.content.GetOr(""),
      raw.project,
      raw.priority.GetOr(DEFAULT_PRIORITY),
      raw.dueDate,
      raw.context,
      raw.confidence.GetOr(0.0),
      raw.requiresConfirmation.GetOr(false),
      raw.confirmationReason)
  }

  /** An object with no keys at all becomes the default task with empty content. */
  lemma FromRawEmpty()
    ensures FromRaw(RawTask(None, None, None, None, None, None, None, None)) == DefaultRecord("")
  {
  }

  /** The position of the first `c` in `s`, if any. */
  function FirstIndexOf(s: string, c: char): (i: Option<nat>)
    ensures i.None? <==> c !in s
    ensures i.Some? ==> i.value < |s| && s[i.value] == c && forall k | 0 <= k < i.value :: s[k] != c
    decreases |s|
  {
    if s == [] then None
    else if s[0] == c then Some(0)
    else
      match FirstIndexOf(s[1..], c)
      case None => None
      case Some(k) => Some(k + 1)
  }

  /** The position of the last `c` in `s`, if any. */
  function LastIndexOf(s: string, c: char): (i: Option<nat>)
    ensures i.None? <==> c !in s
    ensures i.Some? ==> i.value < |s| && s[i.value] == c && forall k | i.value < k < |s| :: s[k] != c
    decreases |s|
  {
    if s == [] then None
    else if s[|s| - 1] == c then Some(|s| - 1)
    else
      var init := s[..|s| - 1];
      match LastIndexOf(init, c)
      case None =>
        assert s == init + [s[|s| - 1]];
        None
      case Some(k) => Some(k)
  }

  /** A `[` before a `]` exists exactly when the first `[` comes before the last `]`. */
  lemma BracketPairIff(s: string)
    ensures (FirstIndexOf(s, '[').Some? && LastIndexOf(s, ']').Some?
             && FirstIndexOf(s, '[').value < LastIndexOf(s, ']').value)
        <==> exists i, j | 0 <= i < j < |s| :: s[i] == '[' && s[j] == ']'
  {
    var first := FirstIndexOf(s, '[');
    var last := LastIndexOf(s, ']');
    if exists i, j | 0 <= i < j < |s| :: s[i] == '[' && s[j] == ']' {
      var i, j :| 0 <= i < j < |s| && s[i] == '[' && s[j] == ']';
      assert s[i] in s && s[j] in s;
    }
  }

  /**
   * `re.search(r'\[.*\]', s, re.DOTALL)`: the leftmost `[` that some `]` follows,
   * through the last `]`, there being such a pair exactly when a match exists.
   */
  function JsonSpan(s: string): (r: Option<string>)
    ensures r.None? <==> !exists i, j | 0 <= i < j < |s| :: s[i] == '[' && s[j] == ']'
    ensures r.Some? ==> exists i, j | 0 <= i < j < |s| ::
      && r.value == s[i..j + 1]
      && s[i] == '[' && s[j] == ']'
      && (forall k | 0 <= k < i :: s[k] != '[')
      && (forall k | j < k < |s| :: s[k] != ']')
  {
    BracketPairIff(s);
    var first := FirstIndexOf(s, '[');
    var last := LastIndexOf(s, ']');
    if first.Some? && last.Some? && first.value < last.value then
      Some(s[first.value..last.value + 1])
    else
      None
  }

  /** The two line-item patterns the fallback scan tries, in order. */
  datatype ItemPattern =
    | Bullet    // [-•*]\s*(.+)
    | Numbered  // \d+\.\s*(.+)

  const FALLBACK_PATTERNS: seq<ItemPattern> := [Bullet, Numbered]

  predicate IsBulletMark(c: char) {
    c == '-' || c == '\U{2022}' || c == '*'
  }

  predicate IsDigit(c: char) {
    '0' <= c <= '9'
  }

  /** The end of the run of digits starting at `i`. */
  function DigitRunEnd(s: string, i: nat): (e: nat)
    requires i <= |s|
    ensures i <= e <= |s|
    ensures forall k | i <= k < e :: IsDigit(s[k])
    ensures e == |s| || !IsDigit(s[e])
    decreases |s| - i
  {
    if i < |s| && IsDigit(s[i]) then DigitRunEnd(s, i + 1) else i
  }

  /** The end of the run of whitespace starting at `i` (what a greedy `\s*` first takes). */
  function SpaceRunEnd(s: string, i: nat): (e: nat)
    requires i <= |s|
    ensures i <= e <= |s|
    ensures forall k | i <= k < e :: IsSpace(s[k])
    ensures e == |s| || !IsSpace(s[e])
    decreases |s| - i
  {
    if i < |s| && IsSpace(s[i]) then SpaceRunEnd(s, i + 1) else i
  }

  /** The first newline at or after `i`, or the end of `s` (where a greedy `.+` stops). */
  function LineEnd(s: string, i: nat): (e: nat)
    requires i <= |s|
    ensures i <= e <= |s|
    ensures forall k | i <= k < e :: s[k] != '\n'
    ensures e == |s| || s[e] == '\n'
    decreases |s| - i
  {
    if i < |s| && s[i] != '\n' then LineEnd(s, i + 1) else i
  }

  /** Where the pattern's marker (`[-•*]`, or `\d+\.`) ends when one starts at `i`. */
  function MarkEnd(p: ItemPattern, s: string, i: nat): (m: Option<nat>)
    requires i <= |s|
    ensures m.Some? ==> i < m.value <= |s|
  {
    match p
    case Bullet => if i < |s| && IsBulletMark(s[i]) then Some(i + 1) else None
    case Numbered =>
      var d := DigitRunEnd(s, i);
      if i < d < |s| && s[d] == '.' then Some(d + 1) else None
  }

  /**
   * Where `(.+)` starts after `\s*` matched `s[m..k]`: the greedy choice `k` when a
   * non-newline follows, else backtracking to the last non-newline at or before `k`
   * but not before `m`; `None` when there is none, and the match fails.
   */
  function GroupStart(s: string, m: nat, k: nat): (g: Option<nat>)
    requires m <= k <= |s|
    ensures g.Some? ==> m <= g.value <= k && g.value < |s| && s[g.value] != '\n'
    ensures g.Some? ==> forall q | g.value < q <= k && q < |s| :: s[q] == '\n'
    ensures g.None? ==> forall q | m <= q <= k && q < |s| :: s[q] == '\n'
    decreases k - m
  {
    if k < |s| && s[k] != '\n' then Some(k)
    else if k == m then None
    else GroupStart(s, m, k - 1)
  }

  /** The captured group of a match of `p` starting exactly at `i`, as a start and an end. */
  function MatchAt(p: ItemPattern, s: string, i: nat): (r: Option<(nat, nat)>)
    requires i <= |s|
    ensures r.Some? ==> i < r.value.0 < r.value.1 <= |s|
    ensures r.Some? ==> forall k | r.value.0 <= k < r.value.1 :: s[k] != '\n'
  {
    match MarkEnd(p, s, i)
    case None => None
    case Some(m) =>
      match GroupStart(s, m, SpaceRunEnd(s, m))
      case None => None
      case Some(g) => Some((g, LineEnd(s, g)))
  }

  /** `item` is a fragment of one line of `text`. */
  predicate ItemIn(text: string, item: string) {
    '\n' !in item && exists k | 0 <= k <= |text| :: OccursAt(text, item, k)
  }

  /**
   * `re.findall(pattern, s)` from position `pos`: try a match at each position in
   * turn, collect its group and go on from where the match ended.
   */
  function FindAll(p: ItemPattern, s: string, pos: nat): (gs: seq<string>)
    requires pos <= |s|
    ensures forall g | g in gs :: g != [] && ItemIn(s, g)
    decreases |s| - pos
  {
    if pos == |s| then []
    else
      match MatchAt(p, s, pos)
      case None => FindAll(p, s, pos + 1)
      case Some((g, e)) =>
        assert OccursAt(s, s[g..e], g);
        [s[g..e]] + FindAll(p, s, e)
  }

  /** A bullet line is found: `- ` and then a one-line item that does not start with whitespace gives that item. */
  lemma BulletItemFound(item: string)
    requires item != [] && '\n' !in item && !IsSpace(item[0])
    ensures FindAll(Bullet, "- " + item, 0) == [item]
  {
    var s := "- " + item;
    assert forall k | 2 <= k < |s| :: s[k] == item[k - 2];
    assert MarkEnd(Bullet, s, 0) == Some(1);
    assert SpaceRunEnd(s, 2) == 2;
    assert SpaceRunEnd(s, 1) == 2;
    assert GroupStart(s, 1, 2) == Some(2);
    assert LineEnd(s, 2) == |s|;
    assert MatchAt(Bullet, s, 0) == Some((2, |s|));
    assert FindAll(Bullet, s, |s|) == [];
    assert FindAll(Bullet, s, 0) == [s[2..|s|]] + FindAll(Bullet, s, |s|);
    assert s[2..|s|] == item;
  }

  /** A numbered line is found: `1. ` and then a one-line item that does not start with whitespace gives that item. */
  lemma NumberedItemFound(item: string)
    requires item != [] && '\n' !in item && !IsSpace(item[0])
    ensures FindAll(Numbered, "1. " + item, 0) == [item]
  {
    var s := "1. " + item;
    assert forall k | 3 <= k < |s| :: s[k] == item[k - 3];
    assert DigitRunEnd(s, 1) == 1;
    assert DigitRunEnd(s, 0) == 1;
    assert MarkEnd(Numbered, s, 0) == Some(2);
    assert SpaceRunEnd(s, 3) == 3;
    assert SpaceRunEnd(s, 2) == 3;
    assert GroupStart(s, 2, 3) == Some(3);
    assert LineEnd(s, 3) == |s|;
    assert MatchAt(Numbered, s, 0) == Some((3, |s|));
    assert FindAll(Numbered, s, |s|) == [];
    assert FindAll(Numbered, s, 0) == [s[3..|s|]] + FindAll(Numbered, s, |s|);
    assert s[3..|s|] == item;
  }

  /** `\s*` crosses line ends: a bullet alone on its line captures the next non-blank line. */
  lemma FindAllCrossesLines()
    ensures FindAll(Bullet, "-\n\n  book", 0) == ["book"]
  {
    var s := "-\n\n  book";
    assert SpaceRunEnd(s, 5) == 5;
    assert SpaceRunEnd(s, 4) == 5;
    assert SpaceRunEnd(s, 3) == 5;
    assert SpaceRunEnd(s, 2) == 5;
    assert SpaceRunEnd(s, 1) == 5;
    assert LineEnd(s, 9) == 9;
    assert LineEnd(s, 8) == 9;
    assert LineEnd(s, 7) == 9;
    assert LineEnd(s, 6) == 9;
    assert LineEnd(s, 5) == 9;
    assert MatchAt(Bullet, s, 0) == Some((5, 9));
    assert FindAll(Bullet, s, 9) == [];
    assert s[5..9] == "book";
    assert FindAll(Bullet, s, 0) == [s[5..9]] + FindAll(Bullet, s, 9);
  }

  /** When only whitespace follows the marker, `\s*` gives back its last non-newline: a lone space is captured. */
  lemma FindAllBacktracks()
    ensures FindAll(Bullet, "- \n", 0) == [" "]
  {
    var s := "- \n";
    assert SpaceRunEnd(s, 1) == 3;
    assert GroupStart(s, 1, 3) == Some(1);
    assert LineEnd(s, 1) == 2;
    assert MatchAt(Bullet, s, 0) == Some((1, 2));
    assert FindAll(Bullet, s, 2) == [];
    assert s[1..2] == " ";
    assert FindAll(Bullet, s, 0) == [s[1..2]] + FindAll(Bullet, s, 2);
  }

  const MIN_FALLBACK_LENGTH := 10
  const MAX_FALLBACK_TASKS := 10
  const FALLBACK_CONFIDENCE: real := 0.5

  /** Whether the fallback keeps a matched item: longer than ten characters once stripped. */
  predicate LongEnough(item: string) {
    |Strip(item)| > MIN_FALLBACK_LENGTH
  }

  /** The task the fallback makes of an item: its stripped text, priority P3, confidence 0.5. */
  function FallbackRecord(item: string): TaskRecord {
    TaskRecord(Strip(item), None, "P3", None, None, FALLBACK_CONFIDENCE, false, None)
  }

  /** The tasks made of the long-enough items, in order. */
  function KeptItems(items: seq<string>): (rs: seq<TaskRecord>)
    ensures |rs| <= |items|
    decreases |items|
  {
    if items == [] then []
    else
      var last := items[|items| - 1];
      KeptItems(items[..|items| - 1]) + (if LongEnough(last) then [FallbackRecord(last)] else [])
  }

  /** The tasks kept from each pattern's matches, pattern after pattern. */
  function PatternsKept(text: string, patterns: seq<ItemPattern>): seq<TaskRecord>
    decreases |patterns|
  {
    if patterns == [] then []
    else
      var last := patterns[|patterns| - 1];
      PatternsKept(text, patterns[..|patterns| - 1]) + KeptItems(FindAll(last, text, 0))
  }

  /** Keeping from one more item keeps from the earlier ones and then maybe that item. */
  lemma KeptItemsAppend(items: seq<string>, item: string)
    ensures KeptItems(items + [item]) == KeptItems(items) + (if LongEnough(item) then [FallbackRecord(item)] else [])
  {
    assert (items + [item])[..|items|] == items;
  }

  /** Exactly the long-enough items become tasks: each of them gives its task, and every task comes from one. */
  lemma {:induction false} KeptItemsExact(items: seq<string>)
    ensures forall x | x in items && LongEnough(x) :: FallbackRecord(x) in KeptItems(items)
    ensures forall r | r in KeptItems(items) :: exists x | x in items :: LongEnough(x) && r == FallbackRecord(x)
    decreases |items|
  {
    if items != [] {
      var init := items[..|items| - 1];
      var last := items[|items| - 1];
      KeptItemsExact(init);
      assert items == init + [last];
      forall r | r in KeptItems(items) ensures exists x | x in items :: LongEnough(x) && r == FallbackRecord(x) {
        if r in KeptItems(init) {
          var x :| x in init && LongEnough(x) && r == FallbackRecord(x);
          assert x in items;
        } else {
          assert LongEnough(last) && r == FallbackRecord(last);
        }
      }
    }
  }

  /** At most the first `n` elements. */
  function Take<T>(xs: seq<T>, n: nat): (ys: seq<T>)
    ensures |ys| <= n && ys <= xs
    ensures |xs| <= n ==> ys == xs
    ensures |ys| == if |xs| <= n then |xs| else n
  {
    if |xs| <= n then xs else xs[..n]
  }

  /**
   * What every fallback task looks like: its content a fragment of one line of the
   * text, stripped and longer than ten characters; priority P3, confidence 0.5,
   * and no other field set.
   */
  predicate FallbackShape(text: string, r: TaskRecord) {
    && |r.content| > MIN_FALLBACK_LENGTH
    && !IsSpace(r.content[0]) && !IsSpace(r.content[|r.content| - 1])
    && '\n' !in r.content
    && Contains(text, r.content)
    && r.priority == "P3" && r.confidence == FALLBACK_CONFIDENCE
    && r.project.None? && r.dueDate.None? && r.context.None?
    && !r.requiresConfirmation && r.confirmationReason.None?
  }

  /** A slice of a needle occurring at `k` occurs `a` places further on. */
  lemma OccursSlice(text: string, item: string, k: int, a: nat, b: nat)
    requires OccursAt(text, item, k) && a <= b <= |item|
    ensures OccursAt(text, item[a..b], k + a)
  {
    forall q | 0 <= q < b - a ensures text[k + a + q] == item[a..b][q] {
      assert text[k + a + q] == text[k..k + |item|][a + q];
    }
  }

  /** The stripped text of a line fragment of `text` is again one. */
  lemma StripItemIn(text: string, item: string)
    requires ItemIn(text, item)
    ensures '\n' !in Strip(item) && Contains(text, Strip(item))
  {
    var k :| 0 <= k <= |text| && OccursAt(text, item, k);
    var a, b := StripIsSlice(item);
    OccursSlice(text, item, k, a, b);
    OccursContains(text, Strip(item), k + a);
    assert forall c | c in item[a..b] :: c in item;
  }

  /** The task the fallback makes of a long-enough line fragment has the fallback shape. */
  lemma FallbackRecordShape(text: string, item: string)
    requires ItemIn(text, item) && LongEnough(item)
    ensures FallbackShape(text, FallbackRecord(item))
  {
    StripItemIn(text, item);
    var a, b := StripIsSlice(item);
  }

  /** Every task kept from line fragments of `text` has the fallback shape. */
  lemma {:induction false} KeptItemsShape(text: string, items: seq<string>)
    requires forall item | item in items :: ItemIn(text, item)
    ensures forall r | r in KeptItems(items) :: FallbackShape(text, r)
    decreases |items|
  {
    if items != [] {
      var init := items[..|items| - 1];
      var last := items[|items| - 1];
      assert forall item | item in init :: item in items;
      KeptItemsShape(text, init);
      if LongEnough(last) {
        FallbackRecordShape(text, last);
      }
      forall r | r in KeptItems(items) ensures FallbackShape(text, r) {
        if r !in KeptItems(init) {
          assert r == FallbackRecord(last);
        }
      }
    }
  }

  /** Every task the pattern scans keep has the fallback shape. */
  lemma {:induction false} PatternsKeptShape(text: string, patterns: seq<ItemPattern>)
    ensures forall r | r in PatternsKept(text, patterns) :: FallbackShape(text, r)
    decreases |patterns|
  {
    if patterns != [] {
      PatternsKeptShape(text, patterns[..|patterns| - 1]);
      KeptItemsShape(text, FindAll(patterns[|patterns| - 1], text, 0));
    }
  }

  /**
   * `_fallback_text_parsing`: at most ten tasks, bullet items before numbered
   * ones, each of the fallback shape.
   */
  function FallbackRecords(text: string): (rs: seq<TaskRecord>)
    ensures |rs| <= MAX_FALLBACK_TASKS
    ensures rs <= PatternsKept(text, FALLBACK_PATTERNS)
    ensures |rs| == if |PatternsKept(text, FALLBACK_PATTERNS)| <= MAX_FALLBACK_TASKS
                    then |PatternsKept(text, FALLBACK_PATTERNS)| else MAX_FALLBACK_TASKS
  {
    Take(PatternsKept(text, FALLBACK_PATTERNS), MAX_FALLBACK_TASKS)
  }

  /**
   * A bullet item longer than ten characters becomes a task: a reply made of one
   * such line gives, first of all, that item's fallback task.
   */
  lemma BulletLineBecomesTask(item: string)
    requires item != [] && '\n' !in item && !IsSpace(item[0]) && LongEnough(item)
    ensures FallbackRecords("- " + item) != [] && FallbackRecords("- " + item)[0] == FallbackRecord(item)
  {
    var s := "- " + item;
    BulletItemFound(item);
    assert KeptItems([item]) == [FallbackRecord(item)] by {
      assert [item][..0] == [];
    }
    assert FALLBACK_PATTERNS[..1] == [Bullet] && [Bullet][..0] == [];
    assert PatternsKept(s, [Bullet]) == [FallbackRecord(item)];
    assert PatternsKept(s, FALLBACK_PATTERNS) == [FallbackRecord(item)] + KeptItems(FindAll(Numbered, s, 0));
  }

  /** Every fallback task has the fallback shape. */
  lemma FallbackRecordsShape(text: string)
    ensures forall r | r in FallbackRecords(text) :: FallbackShape(text, r)
  {
    var rs := FallbackRecords(text);
    PatternsKeptShape(text, FALLBACK_PATTERNS);
    forall r | r in rs ensures FallbackShape(text, r) {
      var i :| 0 <= i < |rs| && rs[i] == r;
      assert r in PatternsKept(text, FALLBACK_PATTERNS);
    }
  }

  /** The records of the tasks decoded from an array. */
  function DecodedRecords(items: seq<RawTask>): (rs: seq<TaskRecord>)
    ensures |rs| == |items|
    ensures forall i | 0 <= i < |items| :: rs[i] == FromRaw(items[i])
  {
    seq(|items|, i requires 0 <= i < |items| => FromRaw(items[i]))
  }

  /**
   * `_parse_ai_response`: no span, no tasks; a span that decodes, one task per
   * object; a span that does not decode, the fallback scan of the whole reply.
   */
  function ParsedRecords(reply: string, decode: Decoder): (rs: seq<TaskRecord>)
    ensures JsonSpan(reply).None? ==> rs == []
    ensures JsonSpan(reply).Some? && decode(JsonSpan(reply).value).Decoded? ==>
      rs == DecodedRecords(decode(JsonSpan(reply).value).items)
    ensures JsonSpan(reply).Some? && decode(JsonSpan(reply).value).DecodeError? ==>
      rs == FallbackRecords(reply)
  {
    match JsonSpan(reply)
    case None => []
    case Some(span) =>
      match decode(span)
      case Decoded(items) => DecodedRecords(items)
      case DecodeError(_) => FallbackRecords(reply)
  }

  /** A reply without a `[` that some `]` follows yields no tasks, whatever bullet lines it holds. */
  lemma NoSpanNoTasks(reply: string, decode: Decoder)
    requires '[' !in reply
    ensures ParsedRecords(reply, decode) == []
  {
    assert forall i | 0 <= i < |reply| :: reply[i] != '[' by {
      forall i | 0 <= i < |reply| ensures reply[i] != '[' {
        assert reply[i] in reply;
      }
    }
  }

  /** One step of the inner loop: a new task for `item` when it is long enough. */
  method KeepItem(kept: seq<ExtractedTask>, item: string) returns (kept': seq<ExtractedTask>)
    requires Distinct(kept)
    ensures Records(kept') == Records(kept) + (if LongEnough(item) then [FallbackRecord(item)] else [])
    ensures Distinct(kept') && forall t | t in kept' :: t in kept || fresh(t)
  {
    kept' := kept;
    if LongEnough(item) {
      var task := new ExtractedTask(FallbackRecord(item));
      RecordsAppend(kept, task);
      DistinctAppend(kept, task);
      kept' := kept + [task];
    }
  }

  /** The inner loop of `_fallback_text_parsing`: a new task for each long-enough item, in order. */
  method KeepItems(items: seq<string>) returns (kept: seq<ExtractedTask>)
    ensures Records(kept) == KeptItems(items)
    ensures Distinct(kept) && forall t | t in kept :: fresh(t)
  {
    kept := [];
    for j := 0 to |items|
      invariant Records(kept) == KeptItems(items[..j])
      invariant Distinct(kept) && forall t | t in kept :: fresh(t)
    {
      KeptItemsAppend(items[..j], items[j]);
      assert items[..j + 1] == items[..j] + [items[j]];
      kept := KeepItem(kept, items[j]);
    }
    assert items[..|items|] == items;
  }

  /** `_fallback_text_parsing`: scans for each pattern in turn, keeps the long-enough items, then keeps the first ten. */
  method FallbackTextParsing(text: string) returns (tasks: seq<ExtractedTask>)
    ensures Records(tasks) == FallbackRecords(text)
    ensures Distinct(tasks) && forall t | t in tasks :: fresh(t)
  {
    tasks := [];
    for pi := 0 to |FALLBACK_PATTERNS|
      invariant Records(tasks) == PatternsKept(text, FALLBACK_PATTERNS[..pi])
      invariant Distinct(tasks) && forall t | t in tasks :: fresh(t)
    {
      var matches := FindAll(FALLBACK_PATTERNS[pi], text, 0);
      var kept := KeepItems(matches);
      RecordsConcat(tasks, kept);
      DistinctConcat(tasks, kept);
      tasks := tasks + kept;
      assert FALLBACK_PATTERNS[..pi + 1][..pi] == FALLBACK_PATTERNS[..pi];
    }
    assert FALLBACK_PATTERNS[..|FALLBACK_PATTERNS|] == FALLBACK_PATTERNS;
    if |tasks| > MAX_FALLBACK_TASKS {
      PrefixRecords(tasks, MAX_FALLBACK_TASKS);
      tasks := tasks[..MAX_FALLBACK_TASKS];
    }
  }

  /** `_parse_ai_response`: locate the span, decode it, and fall back to the line scan only on a decoding error. */
  method ParseAiResponse(reply: string, decode: Decoder) returns (tasks: seq<ExtractedTask>)
    ensures Records(tasks) == ParsedRecords(reply, decode)
    ensures Distinct(tasks) && forall t | t in tasks :: fresh(t)
  {
    tasks := [];
    var span := JsonSpan(reply);
    if span.Some? {
      match decode(span.value)
      case Decoded(items) =>
        for i := 0 to |items|
          invariant |tasks| == i
          invariant forall k | 0 <= k < i :: tasks[k].Record() == FromRaw(items[k])
          invariant Distinct(tasks) && forall t | t in tasks :: fresh(t)
        {
          var task := new ExtractedTask(FromRaw(items[i]));
          RecordsAppend(tasks, task);
          DistinctAppend(tasks, task);
          tasks := tasks + [task];
        }
        assert Records(tasks) == DecodedRecords(items);
      case DecodeError(_) =>
        tasks := FallbackTextParsing(reply);
    }
  }
}
