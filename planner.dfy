/** The planner: turning the model's numbered or bulleted reply into a list
    of steps, and rendering a plan for display. The chat call itself is
    supplied by the caller as its reply. */
module Planner {
  import opened Wrappers
  import opened Text

  /** A stripped line that becomes a step: not empty, and starting with a
      digit or with "- ". */
  predicate Qualifies(line: string) {
    line != [] && (IsDigit(line[0]) || StartsWith(line, "- "))
  }

  /** The step a qualifying stripped line gives: after the first '.' of a
      numbered line (or after its first character when it has none), after
      the "- " of a bullet, stripped. */
  function StepText(line: string): string
    requires Qualifies(line)
  {
    if IsDigit(line[0]) then
      var i := Find(line, ".");
      if i == -1 then Strip(line[1..]) else Strip(line[i + 1..])
    else Strip(line[2..])
  }

  /** The steps the lines give, in order: the parsing loop's result. */
  function Steps(lines: seq<string>): (r: seq<string>)
    ensures |r| <= |lines|
  {
    if lines == [] then []
    else
      var n := |lines| - 1;
      var line := Strip(lines[n]);
      Steps(lines[..n]) + (if Qualifies(line) then [StepText(line)] else [])
  }

  /** What `create_plan` returns for a reply text: the steps of its stripped
      lines, or the stripped text as the only step when no line qualifies. */
  function PlanOf(reply: string): (r: seq<string>)
    ensures r != []
  {
    var planText := Strip(reply);
    var steps := Steps(Split(planText, "\n"));
    if steps != [] then steps else [planText]
  }

  /** `create_plan`'s loop over the lines of the stripped reply. */
  method ParsePlan(planText: string) returns (steps: seq<string>)
    ensures steps == Steps(Split(planText, "\n"))
  {
    var lines := Split(planText, "\n");
    steps := [];
    for i := 0 to |lines|
      invariant steps == Steps(lines[..i])
    {
      assert lines[..i + 1][..i] == lines[..i];
      var line := Strip(lines[i]);
      if line != [] && (IsDigit(line[0]) || StartsWith(line, "- ")) {
        var step;
        if IsDigit(line[0]) {
          step := if Contains(line, ".") then Strip(line[Find(line, ".") + 1..]) else Strip(line[1..]);
        } else {
          step := Strip(line[2..]);
        }
        steps := steps + [step];
      }
    }
    assert lines[..|lines|] == lines;
  }

  /** `create_plan`: the chat reply's content, or the error the call (or a
      missing content) raised. */
  method CreatePlan(reply: Result<Option<string>>) returns (r: Result<seq<string>>)
    ensures reply.Err? ==> r == Err(reply.error)
    ensures reply.Ok? && reply.value.None? ==> r.Err?
    ensures reply.Ok? && reply.value.Some? ==> r == Ok(PlanOf(reply.value.value))
  {
    if reply.Err? {
      return Err(reply.error);
    }
    if reply.value.None? {
      return Err("'NoneType' object has no attribute 'strip'");
    }
    var planText := Strip(reply.value.value);
    var steps := ParsePlan(planText);
    r := Ok(if steps != [] then steps else [planText]);
  }

  /** Lines are parsed one by one: the steps of a concatenation are the
      steps of each part. */
  lemma {:induction false} StepsAppend(a: seq<string>, b: seq<string>)
    ensures Steps(a + b) == Steps(a) + Steps(b)
    decreases |b|
  {
    if b == [] {
      assert a + b == a;
    } else {
      var n := |b| - 1;
      assert (a + b)[..|a + b| - 1] == a + b[..n];
      StepsAppend(a, b[..n]);
    }
  }

  /** One line gives one step exactly when its stripped form qualifies. */
  lemma StepsSingle(line: string)
    ensures Steps([line]) == if Qualifies(Strip(line)) then [StepText(Strip(line))] else []
  {
    assert [line][..0] == [];
  }

  /** Each step is the text of some qualifying line, and the steps keep the
      order of their lines. */
  lemma {:induction false} StepsFromLines(lines: seq<string>, k: nat)
    requires k < |Steps(lines)|
    ensures exists i :: 0 <= i < |lines| && Qualifies(Strip(lines[i])) && Steps(lines)[k] == StepText(Strip(lines[i]))
  {
    var n := |lines| - 1;
    var prefix := Steps(lines[..n]);
    if k < |prefix| {
      StepsFromLines(lines[..n], k);
      var i :| 0 <= i < n && Qualifies(Strip(lines[..n][i])) && prefix[k] == StepText(Strip(lines[..n][i]));
      assert lines[..n][i] == lines[i];
    } else {
      assert Steps(lines)[k] == StepText(Strip(lines[n]));
    }
  }

  /** When no line qualifies there is no step, so the whole text is the
      plan. */
  lemma {:induction false} NoQualifyingLine(lines: seq<string>)
    requires forall i :: 0 <= i < |lines| ==> !Qualifies(Strip(lines[i]))
    ensures Steps(lines) == []
  {
    if lines != [] {
      var n := |lines| - 1;
      assert forall i :: 0 <= i < n ==> lines[..n][i] == lines[i];
      NoQualifyingLine(lines[..n]);
    }
  }

  /** A numbered line keeps what follows its first '.', stripped. */
  lemma NumberedStep(number: string, body: string)
    requires number != [] && IsDigit(number[0]) && !Contains(number, ".")
    ensures Qualifies(number + "." + body)
    ensures StepText(number + "." + body) == Strip(body)
  {
    var line := number + "." + body;
    FindSpec(line, ".");
    FindSpec(number, ".");
    assert OccursAt(line, ".", |number|);
    if Find(line, ".") < |number| {
      var j := Find(line, ".");
      assert line[j..j + 1] == number[j..j + 1];
      assert OccursAt(number, ".", j);
    }
    assert line[|number| + 1..] == body;
  }

  /** A numbered line with no '.' loses only its first character. */
  lemma NumberedWithoutDot(line: string)
    requires line != [] && IsDigit(line[0]) && !Contains(line, ".")
    ensures StepText(line) == Strip(line[1..])
  {
  }

  /** A bullet keeps what follows "- ", stripped. */
  lemma BulletStep(body: string)
    ensures Qualifies("- " + body)
    ensures StepText("- " + body) == Strip(body)
  {
    assert ("- " + body)[..2] == "- ";
    assert ("- " + body)[2..] == body;
  }

  const PlanHeader: string := "📋 PLAN GENERATED:\n"

  /** The display line of step number `k`. */
  function Entry(k: nat, step: string): string {
    "  " + NatToString(k) + ". " + step + "\n"
  }

  /** The display lines of the steps, numbered from 1 in order. */
  function Listing(steps: seq<string>): string {
    if steps == [] then ""
    else Listing(steps[..|steps| - 1]) + Entry(|steps|, steps[|steps| - 1])
  }

  /** `format_plan_for_display`: the header, then one line per step added
      by the loop. */
  method FormatPlanForDisplay(steps: seq<string>) returns (formatted: string)
    ensures formatted == PlanHeader + Listing(steps)
  {
    formatted := PlanHeader;
    for i := 0 to |steps|
      invariant formatted == PlanHeader + Listing(steps[..i])
    {
      assert steps[..i + 1][..i] == steps[..i];
      formatted := formatted + "  " + NatToString(i + 1) + ". " + steps[i] + "\n";
    }
    assert steps[..|steps|] == steps;
  }

  /** The listing of a longer plan extends the listing of any prefix, and
      right after the first `k` lines comes the line of step `k + 1`. */
  lemma {:induction false} ListingPrefix(steps: seq<string>, k: nat)
    requires k < |steps|
    ensures StartsWith(Listing(steps), Listing(steps[..k]) + Entry(k + 1, steps[k]))
    decreases |steps|
  {
    var n := |steps| - 1;
    if k == n {
      assert steps[..n] == steps[..k];
      assert Listing(steps) == Listing(steps[..k]) + Entry(k + 1, steps[k]);
    } else {
      ListingPrefix(steps[..n], k);
      assert steps[..n][..k] == steps[..k];
      assert steps[..n][k] == steps[k];
      var p := Listing(steps[..k]) + Entry(k + 1, steps[k]);
      StartsWithAppend(Listing(steps[..n]), Entry(n + 1, steps[n]), p);
    }
  }
}
