/** The rendering of the planner's steps as Markdown (utlis/format_plan.py):
    each plan is normalised, its reasoning and its step are extracted with the
    two case-insensitive searches, and the blocks are joined by blank lines. */
module FormatPlan {
  import opened PyStr

  /** `\w` on ASCII text. */
  predicate IsWordChar(c: char) {
    'a' <= c <= 'z' || 'A' <= c <= 'Z' || '0' <= c <= '9' || c == '_'
  }

  /** The first index at or after `j` that does not hold whitespace (`\s*`). */
  function SkipSpace(s: string, j: nat): (k: nat)
    requires j <= |s|
    ensures j <= k <= |s|
    ensures forall m :: j <= m < k ==> IsSpace(s[m])
    ensures k == |s| || !IsSpace(s[k])
    decreases |s| - j
  {
    if j == |s| || !IsSpace(s[j]) then j else SkipSpace(s, j + 1)
  }

  /** `key\s*:` matched case-insensitively at index `i`: the index after the
      colon. `key` is lower-case. */
  function KeyColon(s: string, key: string, i: nat): (r: Option<nat>)
    ensures r.Some? ==> i + |key| < r.value <= |s| && Lower(s[i..i + |key|]) == key
    ensures r.Some? ==> s[r.value - 1] == ':' && forall m :: i + |key| <= m < r.value - 1 ==> IsSpace(s[m])
  {
    if i + |key| <= |s| && Lower(s[i..i + |key|]) == key then
      var k := SkipSpace(s, i + |key|);
      if k < |s| && s[k] == ':' then Some(k + 1) else None
    else None
  }

  /** `key`, then whitespace, then ':' occupy `s[i..k]`, the key compared
      case-insensitively. */
  predicate IsKeyColon(s: string, key: string, i: nat, k: nat) {
    && i + |key| < k <= |s|
    && Lower(s[i..i + |key|]) == key
    && s[k - 1] == ':'
    && forall m :: i + |key| <= m < k - 1 ==> IsSpace(s[m])
  }

  /** `KeyColon` finds a match at `i` exactly when there is one, and the match
      is unique: the greedy `\s*` cannot stop at a different colon. */
  lemma {:induction false} KeyColonExactly(s: string, key: string, i: nat)
    ensures forall k: nat :: IsKeyColon(s, key, i, k) <==> KeyColon(s, key, i) == Some(k)
  {
    forall k: nat | IsKeyColon(s, key, i, k)
      ensures KeyColon(s, key, i) == Some(k)
    {
      var j := SkipSpace(s, i + |key|);
      assert !IsSpace(':');
      assert j == k - 1;
    }
  }

  /** `re.search` for `key\s*:` from index `from` on: the leftmost match, as
      the index of the key and the index after the colon. */
  function SearchKey(s: string, key: string, from: nat): (r: Option<(nat, nat)>)
    requires from <= |s|
    ensures r.Some? ==> from <= r.value.0 && KeyColon(s, key, r.value.0) == Some(r.value.1)
    ensures r.Some? ==> forall i :: from <= i < r.value.0 ==> KeyColon(s, key, i).None?
    ensures r.None? ==> forall i :: from <= i ==> KeyColon(s, key, i).None?
    decreases |s| - from
  {
    match KeyColon(s, key, from)
    case Some(k) => Some((from, k))
    case None => if from == |s| then None else SearchKey(s, key, from + 1)
  }

  /** The lookahead `(?=\n|\bstep\s*:|$)` succeeds at index `p`. */
  predicate ReasoningStops(s: string, p: nat)
    requires p <= |s|
  {
    p == |s| || s[p] == '\n' || ((p == 0 || !IsWordChar(s[p - 1])) && KeyColon(s, "step", p).Some?)
  }

  /** Where the lazy `(.*?)` of the reasoning stops: the first index at or
      after `j` at which the lookahead succeeds. */
  function ReasoningEnd(s: string, j: nat): (p: nat)
    requires j <= |s|
    ensures j <= p <= |s| && ReasoningStops(s, p)
    ensures forall m :: j <= m < p ==> !ReasoningStops(s, m)
    ensures forall m :: j <= m < p ==> s[m] != '\n'
    decreases |s| - j
  {
    if ReasoningStops(s, j) then j else ReasoningEnd(s, j + 1)
  }

  /** Where the greedy `(.*)` of the step stops: the end of the line. */
  function LineStop(s: string, j: nat): (p: nat)
    requires j <= |s|
    ensures j <= p <= |s| && (p == |s| || s[p] == '\n')
    ensures forall m :: j <= m < p ==> s[m] != '\n'
    decreases |s| - j
  {
    if j == |s| || s[j] == '\n' then j else LineStop(s, j + 1)
  }

  /** Group 1 of `reasoning\s*:\s*(.*?)(?=\n|\bstep\s*:|$)`. */
  function ReasoningGroup(s: string): Option<string> {
    match SearchKey(s, "reasoning", 0)
    case None => None
    case Some((_, k)) =>
      var j := SkipSpace(s, k);
      Some(s[j..ReasoningEnd(s, j)])
  }

  /** Group 1 of `step\s*:\s*(.*)`. */
  function StepGroup(s: string): Option<string> {
    match SearchKey(s, "step", 0)
    case None => None
    case Some((_, k)) =>
      var j := SkipSpace(s, k);
      Some(s[j..LineStop(s, j)])
  }

  /** The plan stripped, with every literal backslash-n turned into a newline
      and every carriage return dropped. */
  function Normalize(plan: string): string {
    Replace(Replace(Strip(plan), "\\n", "\n"), "\r", "")
  }

  function StrippedOrNA(g: Option<string>): string {
    match g
    case Some(t) => Strip(t)
    case None => "N/A"
  }

  /** The Markdown block of one plan. */
  function FormatBlock(plan: string): string {
    var s := Normalize(plan);
    "**Reasoning**: " + StrippedOrNA(ReasoningGroup(s)) + "\n**Step**: " + StrippedOrNA(StepGroup(s))
  }

  /** The blocks of the plans, in order. */
  function Blocks(plans: seq<string>): (r: seq<string>)
    ensures |r| == |plans|
  {
    if plans == [] then [] else Blocks(plans[..|plans| - 1]) + [FormatBlock(plans[|plans| - 1])]
  }

  /** `f` applied to each element. */
  function MapEach<T, U>(f: T -> U, xs: seq<T>): (r: seq<U>)
    ensures |r| == |xs|
  {
    if xs == [] then [] else MapEach(f, xs[..|xs| - 1]) + [f(xs[|xs| - 1])]
  }

  lemma {:induction false} MapEachAt<T, U>(f: T -> U, xs: seq<T>, i: nat)
    requires i < |xs|
    ensures MapEach(f, xs)[i] == f(xs[i])
    decreases |xs|
  {
    if i < |xs| - 1 {
      MapEachAt(f, xs[..|xs| - 1], i);
    }
  }

  lemma {:induction false} BlocksAreMapped(plans: seq<string>)
    ensures Blocks(plans) == MapEach(FormatBlock, plans)
    decreases |plans|
  {
    if plans != [] {
      BlocksAreMapped(plans[..|plans| - 1]);
    }
  }

  /** Block `i` is the block of plan `i`. */
  lemma BlocksAt(plans: seq<string>, i: nat)
    requires i < |plans|
    ensures Blocks(plans)[i] == FormatBlock(plans[i])
  {
    BlocksAreMapped(plans);
    MapEachAt(FormatBlock, plans, i);
  }

  /** `format_plans_to_markdown` */
  method FormatPlansToMarkdown(plans: seq<string>) returns (markdown: string)
    ensures markdown == Join("\n\n", Blocks(plans))
  {
    var output: seq<string> := [];
    for i := 0 to |plans|
      invariant output == Blocks(plans[..i])
    {
      assert plans[..i + 1][..i] == plans[..i];
      output := output + [FormatBlock(plans[i])];
    }
    assert plans[..|plans|] == plans;
    markdown := Join("\n\n", output);
  }

  // ---------------------------------------------------------------------------
  // Properties

  lemma SliceNoNewline(s: string, a: nat, b: nat)
    requires a <= b <= |s| && forall m :: a <= m < b ==> s[m] != '\n'
    ensures '\n' !in Strip(s[a..b])
  {
    var p, q := StripDecomposition(s[a..b]);
    assert forall c :: c in Strip(s[a..b]) ==> c in s[a..b];
  }

  lemma ReasoningOneLine(s: string)
    ensures '\n' !in StrippedOrNA(ReasoningGroup(s))
  {
    match SearchKey(s, "reasoning", 0) {
      case None =>
      case Some((_, k)) =>
        var j := SkipSpace(s, k);
        SliceNoNewline(s, j, ReasoningEnd(s, j));
    }
  }

  lemma StepOneLine(s: string)
    ensures '\n' !in StrippedOrNA(StepGroup(s))
  {
    match SearchKey(s, "step", 0) {
      case None =>
      case Some((_, k)) =>
        var j := SkipSpace(s, k);
        SliceNoNewline(s, j, LineStop(s, j));
    }
  }

  /** The number of occurrences of `c` in `s`. */
  function CountChar(s: string, c: char): nat {
    if s == [] then 0 else (if s[0] == c then 1 else 0) + CountChar(s[1..], c)
  }

  lemma {:induction false} CountAppend(a: string, b: string, c: char)
    ensures CountChar(a + b, c) == CountChar(a, c) + CountChar(b, c)
  {
    if a != [] {
      assert (a + b)[1..] == a[1..] + b;
      CountAppend(a[1..], b, c);
    } else {
      assert a + b == b;
    }
  }

  lemma {:induction false} CountAbsent(a: string, c: char)
    requires c !in a
    ensures CountChar(a, c) == 0
  {
    if a != [] {
      assert forall x :: x in a[1..] ==> x in a;
      CountAbsent(a[1..], c);
    }
  }

  lemma OneNewline(h: string, a: string, m: string, b: string)
    requires '\n' !in h && '\n' !in a && '\n' !in b && |m| >= 1 && m[0] == '\n' && '\n' !in m[1..]
    ensures CountChar(h + a + m + b, '\n') == 1
  {
    CountAbsent(h, '\n');
    CountAbsent(a, '\n');
    CountAbsent(b, '\n');
    CountAbsent(m[1..], '\n');
    assert m == [m[0]] + m[1..];
    CountAppend([m[0]], m[1..], '\n');
    CountAppend(h, a, '\n');
    CountAppend(h + a, m, '\n');
    CountAppend(h + a + m, b, '\n');
  }

  lemma LabelsLayout()
    ensures '\n' !in "**Reasoning**: "
    ensures "\n**Step**: "[0] == '\n' && '\n' !in "\n**Step**: "[1..]
  {
  }

  /** Neither extracted field can span lines, so every block is exactly two
      lines: the reasoning line and the step line. */
  lemma BlockIsTwoLines(plan: string)
    ensures CountChar(FormatBlock(plan), '\n') == 1
  {
    var s := Normalize(plan);
    ReasoningOneLine(s);
    StepOneLine(s);
    LabelsLayout();
    OneNewline("**Reasoning**: ", StrippedOrNA(ReasoningGroup(s)), "\n**Step**: ", StrippedOrNA(StepGroup(s)));
  }

  /** No carriage return survives normalisation. */
  lemma NormalizeDropsCarriageReturns(plan: string)
    ensures '\r' !in Normalize(plan)
  {
    ReplaceRemoves(Replace(Strip(plan), "\\n", "\n"), '\r', "");
  }

  lemma StripKeepsOut(s: string, c: char)
    requires c !in s
    ensures c !in Strip(s)
  {
    var p, q := StripDecomposition(s);
    assert forall x :: x in Strip(s) ==> x in s;
  }

  /** Normalisation adds no character other than the newline. */
  lemma NormalizeKeepsOut(plan: string, c: char)
    requires c !in plan && c != '\n'
    ensures c !in Normalize(plan)
  {
    StripKeepsOut(plan, c);
    ReplaceKeepsOut(Strip(plan), "\\n", "\n", c);
    ReplaceKeepsOut(Replace(Strip(plan), "\\n", "\n"), "\r", "", c);
  }

  lemma ColonlessNoKey(s: string, key: string, i: nat)
    requires ':' !in s
    ensures KeyColon(s, key, i).None?
  {
    if i + |key| <= |s| {
      var k := SkipSpace(s, i + |key|);
      assert k < |s| ==> s[k] in s;
    }
  }

  lemma ColonlessNoMatch(s: string, key: string)
    requires ':' !in s
    ensures SearchKey(s, key, 0).None?
  {
    forall i ensures KeyColon(s, key, i).None? {
      ColonlessNoKey(s, key, i);
    }
  }

  /** A plan without a colon has neither field: both read "N/A". */
  lemma NoColonMeansNA(plan: string)
    requires ':' !in plan
    ensures FormatBlock(plan) == "**Reasoning**: N/A\n**Step**: N/A"
  {
    var s := Normalize(plan);
    NormalizeKeepsOut(plan, ':');
    ColonlessNoMatch(s, "reasoning");
    ColonlessNoMatch(s, "step");
    assert ReasoningGroup(s) == None && StepGroup(s) == None;
    NeitherGroup();
  }

  lemma NeitherGroup()
    ensures "**Reasoning**: " + StrippedOrNA(None) + "\n**Step**: " + StrippedOrNA(None)
            == "**Reasoning**: N/A\n**Step**: N/A"
  {
  }

  // A plan of the shape the planner is asked to produce,
  // "Reasoning: <r> Step: <t>", renders as its two parts.

  /** The characters a field of a well-formed plan may hold. */
  predicate PlainField(x: string, colonsAllowed: bool) {
    && (forall c :: c in x ==> c != '\n' && c != '\r' && c != '\\')
    && (colonsAllowed || ':' !in x)
    && (x == [] || (!IsSpace(x[0]) && !IsSpace(x[|x| - 1])))
  }

  function WellFormedPlan(r: string, t: string): string {
    "Reasoning: " + r + " Step: " + t
  }

  lemma PlanLayout(r: string, t: string, s: string)
    requires s == WellFormedPlan(r, t)
    ensures |s| == 18 + |r| + |t|
    ensures s[..10] == "Reasoning:" && s[10] == ' ' && s[11 + |r|] == ' '
    ensures s[12 + |r|..16 + |r|] == "Step" && s[16 + |r|] == ':' && s[17 + |r|] == ' '
    ensures forall m :: 0 <= m < |r| ==> s[11 + m] == r[m]
    ensures forall m :: 0 <= m < |t| ==> s[18 + |r| + m] == t[m]
    ensures s[18 + |r|..] == t
  {
    assert s == ("Reasoning: " + r + " Step: ") + t;
  }

  lemma SkipSpaceAt(s: string, j: nat, k: nat)
    requires j <= k <= |s| && (forall m :: j <= m < k ==> IsSpace(s[m])) && (k == |s| || !IsSpace(s[k]))
    ensures SkipSpace(s, j) == k
  {
  }

  /** No `step\s*:` starts before the real "Step:" of a well-formed plan. */
  lemma NoEarlyStepKey(r: string, t: string, i: nat)
    requires PlainField(r, false)
    requires i < 12 + |r|
    ensures KeyColon(WellFormedPlan(r, t), "step", i).None?
  {
    var s := WellFormedPlan(r, t);
    var n := |r|;
    PlanLayout(r, t, s);
    if i <= 5 {
      NoStepInHeader(s, i);
    } else if i <= 7 + n {
      NoStepColonInField(s, r, i);
    } else {
      NoKeyOverSpace(s, "step", i, 11 + n);
    }
  }

  /** "step" does not start within "Reasoning:" (its fourth letter would be
      one of "soning"). */
  lemma NoStepInHeader(s: string, i: nat)
    requires |s| >= 10 && s[..10] == "Reasoning:" && i <= 5
    ensures KeyColon(s, "step", i).None?
  {
    assert s[i + 3] == s[..10][i + 3];
    if i + 4 <= |s| {
      assert Lower(s[i..i + 4])[3] == LowerChar(s[i + 3]) != 'p';
    }
  }

  /** A key that would cover a space does not match there. */
  lemma NoKeyOverSpace(s: string, key: string, i: nat, p: nat)
    requires i <= p < i + |key| && p < |s| && s[p] == ' ' && ' ' !in key
    ensures KeyColon(s, key, i).None?
  {
    if i + |key| <= |s| {
      assert Lower(s[i..i + |key|])[p - i] == ' ';
      assert key[p - i] in key;
    }
  }

  /** Within the reasoning field, whatever matches "step" is followed by
      spaces and then a character other than ':'. */
  lemma NoStepColonInField(s: string, r: string, i: nat)
    requires |s| > 12 + |r| && s[10] == ' ' && s[11 + |r|] == ' ' && s[12 + |r|] == 'S'
    requires forall m :: 0 <= m < |r| ==> s[11 + m] == r[m]
    requires ':' !in r && 6 <= i <= 7 + |r|
    ensures KeyColon(s, "step", i).None?
  {
    var n := |r|;
    var k := SkipSpace(s, i + 4);
    assert !IsSpace(s[12 + n]);
    assert k <= 12 + n;
    assert s[k] != ':' by {
      if 11 <= k < 11 + n {
        assert s[k] == r[k - 11] && r[k - 11] in r;
      }
    }
    NoColonAfterKey(s, "step", i);
  }

  lemma NoColonAfterKey(s: string, key: string, i: nat)
    requires i + |key| <= |s|
    requires var k := SkipSpace(s, i + |key|); k == |s| || s[k] != ':'
    ensures KeyColon(s, key, i).None?
  {
  }

  /** No line break comes before "Step:" in a well-formed plan. */
  lemma NoBreakBeforeStep(s: string, r: string)
    requires |s| >= 12 + |r| && s[..10] == "Reasoning:" && s[10] == ' ' && s[11 + |r|] == ' '
    requires forall m :: 0 <= m < |r| ==> s[11 + m] == r[m]
    requires PlainField(r, false)
    ensures forall m :: 0 <= m < 12 + |r| ==> s[m] != '\n'
  {
    forall m | 0 <= m < 12 + |r| ensures s[m] != '\n' {
      if m < 10 {
        assert s[m] == s[..10][m];
      } else if 11 <= m < 11 + |r| {
        assert s[m] == r[m - 11] && r[m - 11] in r;
      }
    }
  }

  lemma StepKeyAt(r: string, t: string)
    requires PlainField(r, false)
    ensures SearchKey(WellFormedPlan(r, t), "step", 0) == Some((12 + |r|, 17 + |r|))
    ensures ReasoningStops(WellFormedPlan(r, t), 12 + |r|)
  {
    var s := WellFormedPlan(r, t);
    var n := |r|;
    PlanLayout(r, t, s);
    assert Lower(s[12 + n..16 + n]) == "step";
    SkipSpaceAt(s, 16 + n, 16 + n);
    assert KeyColon(s, "step", 12 + n) == Some(17 + n);
    forall i | 0 <= i < 12 + n ensures KeyColon(s, "step", i).None? {
      NoEarlyStepKey(r, t, i);
    }
    SearchFrom(s, "step", 0, 12 + n);
  }

  /** The search finds the first match. */
  lemma {:induction false} SearchFrom(s: string, key: string, from: nat, i: nat)
    requires from <= i <= |s| && KeyColon(s, key, i).Some?
    requires forall m :: from <= m < i ==> KeyColon(s, key, m).None?
    ensures SearchKey(s, key, from) == Some((i, KeyColon(s, key, i).value))
    decreases i - from
  {
    if from < i {
      SearchFrom(s, key, from + 1, i);
    }
  }

  lemma ReasoningKeyAt(r: string, t: string)
    ensures SearchKey(WellFormedPlan(r, t), "reasoning", 0) == Some((0, 10))
  {
    var s := WellFormedPlan(r, t);
    PlanLayout(r, t, s);
    assert s[..9] == "Reasoning";
    assert Lower(s[0..9]) == "reasoning";
    SkipSpaceAt(s, 9, 9);
    assert KeyColon(s, "reasoning", 0) == Some(10);
  }

  lemma ReasoningStartAt(r: string, t: string)
    requires PlainField(r, false)
    ensures SkipSpace(WellFormedPlan(r, t), 10) == if r == [] then 12 else 11
  {
    var s := WellFormedPlan(r, t);
    PlanLayout(r, t, s);
    if r == [] {
      assert s[12..16] == "Step";
      SkipSpaceAt(s, 10, 12);
    } else {
      assert s[11] == r[0];
      SkipSpaceAt(s, 10, 11);
    }
  }

  lemma ReasoningStopsAt(r: string, t: string, j: nat)
    requires PlainField(r, false) && j <= 12 + |r|
    ensures ReasoningEnd(WellFormedPlan(r, t), j) == 12 + |r|
  {
    var s := WellFormedPlan(r, t);
    var n := |r|;
    PlanLayout(r, t, s);
    StepKeyAt(r, t);
    NoBreakBeforeStep(s, r);
    forall m | j <= m < 12 + n ensures !ReasoningStops(s, m) {
      NoEarlyStepKey(r, t, m);
    }
    ReasoningEndAt(s, j, 12 + n);
  }

  lemma ReasoningSlice(r: string, t: string)
    ensures WellFormedPlan(r, t)[11..12 + |r|] == r + " "
  {
    var s := WellFormedPlan(r, t);
    PlanLayout(r, t, s);
    assert s[11..12 + |r|] == ("Reasoning: " + r + " ")[11..];
  }

  /** The reasoning of a well-formed plan runs from its first character up to
      the space before "Step:". */
  lemma ReasoningOfWellFormed(r: string, t: string)
    requires PlainField(r, false)
    ensures ReasoningGroup(WellFormedPlan(r, t)) == Some(if r == [] then [] else r + " ")
  {
    var n := |r|;
    ReasoningKeyAt(r, t);
    ReasoningStartAt(r, t);
    var j := if n == 0 then 12 else 11;
    ReasoningStopsAt(r, t, j);
    var s := WellFormedPlan(r, t);
    assert ReasoningGroup(s) == Some(s[j..12 + n]);
    if n > 0 {
      ReasoningSlice(r, t);
      assert s[j..12 + n] == r + " ";
    } else {
      assert s[j..12 + n] == [];
    }
  }

  lemma {:induction false} ReasoningEndAt(s: string, j: nat, p: nat)
    requires j <= p <= |s| && ReasoningStops(s, p)
    requires forall m :: j <= m < p ==> !ReasoningStops(s, m)
    ensures ReasoningEnd(s, j) == p
    decreases p - j
  {
    if j < p {
      ReasoningEndAt(s, j + 1, p);
    }
  }

  lemma StepOfWellFormed(r: string, t: string)
    requires PlainField(r, false) && PlainField(t, true) && t != []
    ensures StepGroup(WellFormedPlan(r, t)) == Some(t)
  {
    var s := WellFormedPlan(r, t);
    var n := |r|;
    PlanLayout(r, t, s);
    StepKeyAt(r, t);
    StepRest(s, 17 + n, t);
  }

  /** What the step group captures after the colon at `k`: one space, then a
      last line that starts with a non-space. */
  lemma StepRest(s: string, k: nat, t: string)
    requires k < |s| && s[k] == ' ' && s[k + 1..] == t
    requires t != [] && !IsSpace(t[0]) && forall c :: c in t ==> c != '\n'
    ensures SkipSpace(s, k) == k + 1 && s[k + 1..LineStop(s, k + 1)] == t
  {
    assert s[k + 1] == t[0];
    SkipSpaceAt(s, k, k + 1);
    TailField(s, t, k + 1);
  }

  /** A field that ends the text and holds no line break is read to its end. */
  lemma TailField(s: string, t: string, p: nat)
    requires p <= |s| && s[p..] == t && forall c :: c in t ==> c != '\n'
    ensures LineStop(s, p) == |s|
  {
    forall m | p <= m < |s| ensures s[m] != '\n' {
      assert s[m] == t[m - p] && t[m - p] in t;
    }
    LineStopAt(s, p);
  }

  lemma {:induction false} LineStopAt(s: string, j: nat)
    requires j <= |s| && forall m :: j <= m < |s| ==> s[m] != '\n'
    ensures LineStop(s, j) == |s|
    decreases |s| - j
  {
    if j < |s| {
      LineStopAt(s, j + 1);
    }
  }

  lemma WellFormedStripped(r: string, t: string)
    requires PlainField(t, true) && t != []
    ensures Strip(WellFormedPlan(r, t)) == WellFormedPlan(r, t)
  {
    var s := WellFormedPlan(r, t);
    PlanLayout(r, t, s);
    assert s[|s| - 1] == t[|t| - 1];
    assert s[0] == 'R';
    assert s == "" + s + "";
    StripUnique(s, "", s, "");
  }

  lemma WellFormedCharacters(r: string, t: string, c: char)
    requires PlainField(r, false) && PlainField(t, true)
    requires c == '\\' || c == '\r'
    ensures c !in WellFormedPlan(r, t)
  {
    assert c !in "Reasoning: " && c !in " Step: ";
  }

  lemma NormalizeWellFormed(r: string, t: string)
    requires PlainField(r, false) && PlainField(t, true) && t != []
    ensures Normalize(WellFormedPlan(r, t)) == WellFormedPlan(r, t)
  {
    var s := WellFormedPlan(r, t);
    WellFormedStripped(r, t);
    WellFormedCharacters(r, t, '\\');
    WellFormedCharacters(r, t, '\r');
    NotContains(s, "\\n");
    NotContains(s, "\r");
  }

  lemma StrippedStep(t: string)
    requires PlainField(t, true) && t != []
    ensures Strip(t) == t
  {
    assert t == "" + t + "";
    StripUnique(t, "", t, "");
  }

  lemma StrippedReasoning(r: string)
    requires PlainField(r, false)
    ensures Strip(if r == [] then [] else r + " ") == r
  {
    if r == [] {
      StripUnique([], "", [], "");
    } else {
      assert r + " " == "" + r + " ";
      StripUnique(r + " ", "", r, " ");
    }
  }

  /** A plan of the form "Reasoning: <r> Step: <t>" renders as exactly its
      reasoning and its step, when the reasoning holds no colon, neither part
      holds a line break or a backslash, and the step is not empty. */
  lemma WellFormedPlanRenders(r: string, t: string)
    requires PlainField(r, false) && PlainField(t, true) && t != []
    ensures FormatBlock(WellFormedPlan(r, t)) == "**Reasoning**: " + r + "\n**Step**: " + t
  {
    NormalizeWellFormed(r, t);
    ReasoningOfWellFormed(r, t);
    StepOfWellFormed(r, t);
    StrippedReasoning(r);
    StrippedStep(t);
  }
}
