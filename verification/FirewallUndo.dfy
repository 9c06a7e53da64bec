/**
 Cleanup leaves no trace of the test and touches nothing else, from every interruption of the
 installation and of earlier cleanups, and whatever other rules come and go meanwhile.
 */
module FirewallUndo {
  import opened Prelude
  import opened Firewall

  // ---------- What belongs to a list of commands ----------

  /** The commands own one chain per table and the rules they insert elsewhere. */
  datatype Plan = Plan(chain: string, specs: seq<Spec>)

  ghost predicate Appends(plan: Plan, spec: Spec) {
    |spec.args| >= 2 && spec.args[0] == "-A" && spec.args[1] == plan.chain
  }

  ghost predicate Inserts(plan: Plan, spec: Spec) {
    |spec.args| >= 3 && spec.args[0] == "-I" && spec.args[1] != plan.chain && spec.args[2] == "1"
  }

  ghost predicate Shaped(plan: Plan) {
    && plan.chain !in BUILT_IN && |plan.specs| >= 2
    && plan.specs[0] == Spec(Filter, ["-N", plan.chain]) && plan.specs[1] == Spec(Nat, ["-N", plan.chain])
    && forall i :: 2 <= i < |plan.specs| ==> Appends(plan, plan.specs[i]) || Inserts(plan, plan.specs[i])
  }

  ghost function RuleOf(spec: Spec): Rule {
    if |spec.args| >= 3 && spec.args[0] == "-I" then spec.args[3..] else if |spec.args| >= 2 then spec.args[2..] else []
  }

  ghost predicate Adds(spec: Spec, x: ChainRef, rule: Rule) {
    |spec.args| >= 2 && spec.args[0] != "-N" && x == ChainRef(spec.table, spec.args[1]) && rule == RuleOf(spec)
  }

  ghost predicate Own(plan: Plan, x: ChainRef, rule: Rule) {
    || x.name == plan.chain || JumpsTo(rule, plan.chain)
    || exists i :: 2 <= i < |plan.specs| && Adds(plan.specs[i], x, rule)
  }

  /** How often the first commands add a rule. */
  ghost function Additions(specs: seq<Spec>, x: ChainRef, rule: Rule): nat {
    if specs == [] then 0
    else Additions(specs[..|specs| - 1], x, rule) + if Adds(specs[|specs| - 1], x, rule) then 1 else 0
  }

  ghost function Strip(plan: Plan, x: ChainRef, rules: seq<Rule>): seq<Rule> {
    if rules == [] then [] else (if Own(plan, x, rules[0]) then [] else [rules[0]]) + Strip(plan, x, rules[1..])
  }

  /** The rule set without everything the commands own. */
  ghost function Others(plan: Plan, s: Ruleset): Ruleset {
    map x | x in s && x.name != plan.chain :: Strip(plan, x, s[x])
  }

  // ---------- Lists of rules ----------

  lemma {:induction false} StripAppend(plan: Plan, x: ChainRef, a: seq<Rule>, b: seq<Rule>)
    ensures Strip(plan, x, a + b) == Strip(plan, x, a) + Strip(plan, x, b)
  {
    if a == [] {
      assert a + b == b;
    } else {
      StripAppend(plan, x, a[1..], b);
      assert (a + b)[1..] == a[1..] + b && (a + b)[0] == a[0];
    }
  }

  lemma {:induction false} StripWithout(plan: Plan, x: ChainRef, rules: seq<Rule>, rule: Rule)
    requires Own(plan, x, rule)
    ensures Strip(plan, x, Without(rules, rule)) == Strip(plan, x, rules)
  {
    if rules != [] && rules[0] != rule {
      StripWithout(plan, x, rules[1..], rule);
      assert Without(rules, rule)[1..] == Without(rules[1..], rule);
    }
  }

  lemma {:induction false} StripNone(plan: Plan, x: ChainRef, rules: seq<Rule>)
    requires forall i :: 0 <= i < |rules| ==> !Own(plan, x, rules[i])
    ensures Strip(plan, x, rules) == rules
  {
    if rules != [] {
      StripNone(plan, x, rules[1..]);
    }
  }

  lemma {:induction false} WithoutCounts(rules: seq<Rule>, rule: Rule)
    requires rule in rules
    ensures multiset(Without(rules, rule)) == multiset(rules) - multiset{rule}
  {
    assert rules == [rules[0]] + rules[1..];
    if rules[0] != rule {
      WithoutCounts(rules[1..], rule);
    }
  }

  // ---------- Runs ----------

  datatype Phase = Installing(done: nat) | Cleaning(left: nat)

  datatype State = State(rules: Ruleset, phase: Phase)

  datatype Step = Install | Begin | Undo | Foreign

  /** Everyone else: never adds an owned rule and never touches the owned chains. */
  ghost predicate Respects(plan: Plan, s: Ruleset, t: Ruleset) {
    && (forall x: ChainRef :: x.name == plan.chain ==> (x in s <==> x in t) && (x in s ==> s[x] == t[x]))
    && (forall x, r :: x in t && x.name != plan.chain && Own(plan, x, r) ==>
                         multiset(t[x])[r] <= if x in s then multiset(s[x])[r] else 0)
  }

  /** One step; a process that stops between commands simply takes no further step. */
  ghost predicate Next(plan: Plan, s: State, step: Step, t: State) {
    match step
    case Install =>
      && s.phase.Installing? && s.phase.done < |plan.specs|
      && Iptables(s.rules, plan.specs[s.phase.done]).Ok?
      && t == State(Iptables(s.rules, plan.specs[s.phase.done]).value, Installing(s.phase.done + 1))
    case Begin => t == State(s.rules, Cleaning(|plan.specs|))
    case Undo =>
      && s.phase.Cleaning? && 0 < s.phase.left <= |plan.specs|
      && t == State(Attempt(s.rules, Inverse(plan.specs[s.phase.left - 1])), Cleaning(s.phase.left - 1))
    case Foreign => Respects(plan, s.rules, t.rules) && t.phase == s.phase
  }

  ghost predicate Run(plan: Plan, states: seq<State>, steps: seq<Step>) {
    && |states| == |steps| + 1
    && forall i :: 0 <= i < |steps| ==> Next(plan, states[i], steps[i], states[i + 1])
  }

  ghost function Limit(p: Phase): nat {
    match p case Installing(k) => k case Cleaning(k) => k
  }

  /** Owned rules occur at most as often as the commands up to the limit add them. */
  ghost predicate Bounded(plan: Plan, s: Ruleset, limit: nat)
    requires limit <= |plan.specs|
  {
    && (forall x, r :: x in s && Own(plan, x, r) ==> multiset(s[x])[r] <= Additions(plan.specs[..limit], x, r))
    && (limit == 0 ==> ChainRef(Filter, plan.chain) !in s)
    && (limit <= 1 ==> ChainRef(Nat, plan.chain) !in s)
  }

  ghost predicate Inv(plan: Plan, s: State) {
    Limit(s.phase) <= |plan.specs| && Bounded(plan, s.rules, Limit(s.phase))
  }

  lemma AdditionsStep(plan: Plan, k: nat, x: ChainRef, r: Rule)
    requires k < |plan.specs|
    ensures Additions(plan.specs[..k + 1], x, r) == Additions(plan.specs[..k], x, r) + if Adds(plan.specs[k], x, r) then 1 else 0
  {
    assert plan.specs[..k + 1][..k] == plan.specs[..k];
  }

  lemma {:induction false} AdditionsGrow(plan: Plan, k: nat, x: ChainRef, r: Rule)
    requires k <= |plan.specs|
    ensures Additions(plan.specs[..k], x, r) <= Additions(plan.specs[..|plan.specs|], x, r)
    decreases |plan.specs| - k
  {
    if k < |plan.specs| {
      AdditionsStep(plan, k, x, r);
      AdditionsGrow(plan, k + 1, x, r);
    }
  }

  lemma NoneAdded(plan: Plan, k: nat, x: ChainRef, r: Rule)
    requires Shaped(plan) && k <= 2
    ensures Additions(plan.specs[..k], x, r) == 0
  {
    if k >= 1 {
      AdditionsStep(plan, 0, x, r);
      if k == 2 {
        AdditionsStep(plan, 1, x, r);
      }
    }
  }

  /** A command of the plan that adds a rule adds an owned one. */
  lemma InstallRuleKeeps(plan: Plan, s: Ruleset, k: nat)
    requires Shaped(plan) && 2 <= k < |plan.specs| && Bounded(plan, s, k) && Iptables(s, plan.specs[k]).Ok?
    ensures Bounded(plan, Iptables(s, plan.specs[k]).value, k + 1)
    ensures Others(plan, Iptables(s, plan.specs[k]).value) == Others(plan, s)
  {
    var spec := plan.specs[k];
    assert Appends(plan, spec) || Inserts(plan, spec);
    var x, r, t := ChainRef(spec.table, spec.args[1]), RuleOf(spec), Iptables(s, spec).value;
    assert Adds(spec, x, r) && Own(plan, x, r);
    forall y, q | y in t && Own(plan, y, q) ensures multiset(t[y])[q] <= Additions(plan.specs[..k + 1], y, q) {
      AdditionsStep(plan, k, y, q);
    }
    StripAppend(plan, x, [r], s[x]);
    OthersSame(plan, s, t, x);
  }

  lemma OthersSame(plan: Plan, s: Ruleset, t: Ruleset, x: ChainRef)
    requires forall y :: y != x ==> (y in s <==> y in t) && (y in s ==> s[y] == t[y])
    requires x.name != plan.chain ==> (x in s <==> x in t) && (x in s ==> Strip(plan, x, s[x]) == Strip(plan, x, t[x]))
    ensures Others(plan, s) == Others(plan, t)
  {
  }

  lemma InstallChainKeeps(plan: Plan, s: Ruleset, k: nat)
    requires Shaped(plan) && k < 2 && Bounded(plan, s, k) && Iptables(s, plan.specs[k]).Ok?
    ensures Bounded(plan, Iptables(s, plan.specs[k]).value, k + 1)
    ensures Others(plan, Iptables(s, plan.specs[k]).value) == Others(plan, s)
  {
    var x, t := ChainRef(plan.specs[k].table, plan.chain), Iptables(s, plan.specs[k]).value;
    forall y, q | y in t && Own(plan, y, q) ensures multiset(t[y])[q] <= Additions(plan.specs[..k + 1], y, q) {
      NoneAdded(plan, k + 1, y, q);
      NoneAdded(plan, k, y, q);
    }
    OthersSame(plan, s, t, x);
  }

  lemma UndoRule(plan: Plan, s: Ruleset, k: nat)
    requires Shaped(plan) && 2 <= k < |plan.specs|
    ensures var spec := plan.specs[k];
            && |spec.args| >= 2
            && var x := ChainRef(spec.table, spec.args[1]);
               && Adds(spec, x, RuleOf(spec))
               && Attempt(s, Inverse(spec)) == if x in s && RuleOf(spec) in s[x] then s[x := Without(s[x], RuleOf(spec))] else s
  {
    var spec := plan.specs[k];
    assert Appends(plan, spec) || Inserts(plan, spec);
    assert Inverse(spec).args[0] == "-D" && Inverse(spec).args[1] == spec.args[1] && Inverse(spec).args[2..] == RuleOf(spec);
  }

  lemma UndoRuleKeeps(plan: Plan, s: Ruleset, k: nat)
    requires Shaped(plan) && 2 <= k < |plan.specs| && Bounded(plan, s, k + 1)
    ensures Bounded(plan, Attempt(s, Inverse(plan.specs[k])), k)
    ensures Others(plan, Attempt(s, Inverse(plan.specs[k]))) == Others(plan, s)
  {
    UndoRule(plan, s, k);
    var spec := plan.specs[k];
    var x, r := ChainRef(spec.table, spec.args[1]), RuleOf(spec);
    assert Own(plan, x, r);
    if x in s && r in s[x] {
      DeleteKeeps(plan, s, k, x, r);
    } else {
      forall y, q | y in s && Own(plan, y, q) ensures multiset(s[y])[q] <= Additions(plan.specs[..k], y, q) {
        AdditionsStep(plan, k, y, q);
      }
    }
  }

  lemma DeleteKeeps(plan: Plan, s: Ruleset, k: nat, x: ChainRef, r: Rule)
    requires 2 <= k < |plan.specs| && Bounded(plan, s, k + 1) && Adds(plan.specs[k], x, r)
    requires x in s && r in s[x] && Own(plan, x, r)
    ensures Bounded(plan, s[x := Without(s[x], r)], k)
    ensures Others(plan, s[x := Without(s[x], r)]) == Others(plan, s)
  {
    forall y, q | y in s && Own(plan, y, q)
      ensures multiset(s[x := Without(s[x], r)][y])[q] <= Additions(plan.specs[..k], y, q)
    {
      DeleteCounts(plan, s, k, x, r, y, q);
    }
    StripWithout(plan, x, s[x], r);
    OthersSame(plan, s, s[x := Without(s[x], r)], x);
  }

  lemma DeleteCounts(plan: Plan, s: Ruleset, k: nat, x: ChainRef, r: Rule, y: ChainRef, q: Rule)
    requires 2 <= k < |plan.specs| && Bounded(plan, s, k + 1) && Adds(plan.specs[k], x, r)
    requires x in s && r in s[x] && y in s && Own(plan, y, q)
    ensures multiset(s[x := Without(s[x], r)][y])[q] <= Additions(plan.specs[..k], y, q)
  {
    AdditionsStep(plan, k, y, q);
    WithoutCounts(s[x], r);
  }

  /** With its rules and jumps gone the chain itself can go. */
  lemma UndoChainKeeps(plan: Plan, s: Ruleset, k: nat)
    requires Shaped(plan) && k < 2 && Bounded(plan, s, k + 1)
    ensures Bounded(plan, Attempt(s, Inverse(plan.specs[k])), k)
    ensures Others(plan, Attempt(s, Inverse(plan.specs[k]))) == Others(plan, s)
  {
    var x, t := ChainRef(plan.specs[k].table, plan.chain), Attempt(s, Inverse(plan.specs[k]));
    NothingOwned(plan, s, k + 1);
    assert Inverse(plan.specs[k]).args == ["-X", plan.chain];
    if x in s {
      if s[x] != [] {
        assert Own(plan, x, s[x][0]);
      }
      assert s[x] == [] && !Referenced(s, x);
    }
    forall y, q | y in t && Own(plan, y, q) ensures multiset(t[y])[q] <= Additions(plan.specs[..k], y, q) {
      NoneAdded(plan, k + 1, y, q);
    }
    OthersSame(plan, s, t, x);
  }

  lemma NothingOwned(plan: Plan, s: Ruleset, k: nat)
    requires Shaped(plan) && k <= 2 && Bounded(plan, s, k)
    ensures forall x, i :: x in s && 0 <= i < |s[x]| ==> !Own(plan, x, s[x][i])
  {
    forall x, i | x in s && 0 <= i < |s[x]| ensures !Own(plan, x, s[x][i]) {
      if Own(plan, x, s[x][i]) {
        assert multiset(s[x])[s[x][i]] > 0;
        NoneAdded(plan, k, x, s[x][i]);
      }
    }
  }

  lemma InstallKeeps(plan: Plan, s: Ruleset, k: nat)
    requires Shaped(plan) && k < |plan.specs| && Bounded(plan, s, k) && Iptables(s, plan.specs[k]).Ok?
    ensures Bounded(plan, Iptables(s, plan.specs[k]).value, k + 1)
    ensures Others(plan, Iptables(s, plan.specs[k]).value) == Others(plan, s)
  {
    if k < 2 {
      InstallChainKeeps(plan, s, k);
    } else {
      InstallRuleKeeps(plan, s, k);
    }
  }

  lemma UndoKeeps(plan: Plan, s: Ruleset, k: nat)
    requires Shaped(plan) && k < |plan.specs| && Bounded(plan, s, k + 1)
    ensures Bounded(plan, Attempt(s, Inverse(plan.specs[k])), k)
    ensures Others(plan, Attempt(s, Inverse(plan.specs[k]))) == Others(plan, s)
  {
    if k < 2 {
      UndoChainKeeps(plan, s, k);
    } else {
      UndoRuleKeeps(plan, s, k);
    }
  }

  lemma StepKeeps(plan: Plan, s: State, step: Step, t: State)
    requires Shaped(plan) && Inv(plan, s) && Next(plan, s, step, t)
    ensures Inv(plan, t)
    ensures step != Foreign ==> Others(plan, t.rules) == Others(plan, s.rules)
  {
    match step
    case Install => InstallStepKeeps(plan, s, t);
    case Begin => BeginKeeps(plan, s.rules, Limit(s.phase));
    case Undo => UndoStepKeeps(plan, s, t);
    case Foreign => ForeignKeeps(plan, s.rules, t.rules, Limit(s.phase));
  }

  lemma InstallStepKeeps(plan: Plan, s: State, t: State)
    requires Shaped(plan) && Inv(plan, s) && Next(plan, s, Install, t)
    ensures Inv(plan, t) && Others(plan, t.rules) == Others(plan, s.rules)
  {
    InstallKeeps(plan, s.rules, s.phase.done);
  }

  lemma UndoStepKeeps(plan: Plan, s: State, t: State)
    requires Shaped(plan) && Inv(plan, s) && Next(plan, s, Undo, t)
    ensures Inv(plan, t) && Others(plan, t.rules) == Others(plan, s.rules)
  {
    UndoKeeps(plan, s.rules, s.phase.left - 1);
  }

  lemma BeginKeeps(plan: Plan, s: Ruleset, limit: nat)
    requires Shaped(plan) && limit <= |plan.specs| && Bounded(plan, s, limit)
    ensures Bounded(plan, s, |plan.specs|)
  {
    forall x, r | x in s && Own(plan, x, r) ensures multiset(s[x])[r] <= Additions(plan.specs[..|plan.specs|], x, r) {
      AdditionsGrow(plan, limit, x, r);
    }
  }

  lemma ForeignKeeps(plan: Plan, s: Ruleset, t: Ruleset, limit: nat)
    requires Shaped(plan) && limit <= |plan.specs| && Bounded(plan, s, limit) && Respects(plan, s, t)
    ensures Bounded(plan, t, limit)
  {
    forall x, r | x in t && Own(plan, x, r) ensures multiset(t[x])[r] <= Additions(plan.specs[..limit], x, r) {
      assert x in s ==> multiset(s[x])[r] <= Additions(plan.specs[..limit], x, r);
    }
  }

  /** A host on which neither the chains nor any owned rule exists. */
  ghost predicate Untouched(plan: Plan, s: Ruleset) {
    && ChainRef(Filter, plan.chain) !in s && ChainRef(Nat, plan.chain) !in s
    && forall x, i :: x in s && 0 <= i < |s[x]| ==> !Own(plan, x, s[x][i])
  }

  lemma UntouchedBounded(plan: Plan, s: Ruleset)
    requires Untouched(plan, s)
    ensures Bounded(plan, s, 0)
  {
    forall x, r | x in s && Own(plan, x, r) ensures multiset(s[x])[r] == 0 {
      assert r !in s[x];
    }
  }

  lemma {:induction false} RunKeeps(plan: Plan, states: seq<State>, steps: seq<Step>, i: nat)
    requires Shaped(plan) && Run(plan, states, steps) && i < |states|
    requires states[0].phase == Installing(0) && Untouched(plan, states[0].rules)
    ensures Inv(plan, states[i])
  {
    if i == 0 {
      UntouchedBounded(plan, states[0].rules);
    } else {
      RunKeeps(plan, states, steps, i - 1);
      StepKeeps(plan, states[i - 1], steps[i - 1], states[i]);
    }
  }

  lemma CleanIsOthers(plan: Plan, s: Ruleset)
    requires Shaped(plan) && Bounded(plan, s, 0)
    ensures Others(plan, s) == s && Untouched(plan, s)
  {
    NothingOwned(plan, s, 0);
    forall x | x in s ensures x.name != plan.chain && Strip(plan, x, s[x]) == s[x] {
      assert x.table == Filter || x.table == Nat;
      assert x == ChainRef(x.table, x.name);
      StripNone(plan, x, s[x]);
    }
  }

  /**
   In every run, a completed cleanup leaves nothing of the test behind, and no command of the test,
   installing or cleaning, ever changes a rule or a chain that is not its own.
   */
  lemma CleanupLeavesNoTrace(plan: Plan, states: seq<State>, steps: seq<Step>, i: nat)
    requires Shaped(plan) && Run(plan, states, steps) && i < |states|
    requires states[0].phase == Installing(0) && Untouched(plan, states[0].rules)
    ensures states[i].phase == Cleaning(0) ==> Untouched(plan, states[i].rules)
    ensures i < |steps| && steps[i] != Foreign ==> Others(plan, states[i + 1].rules) == Others(plan, states[i].rules)
  {
    RunKeeps(plan, states, steps, i);
    if states[i].phase == Cleaning(0) {
      CleanIsOthers(plan, states[i].rules);
    }
    if i < |steps| {
      StepKeeps(plan, states[i], steps[i], states[i + 1]);
    }
  }

  /** Without other changes, every completed cleanup of a run restores the start exactly. */
  lemma {:induction false} CleanupRestores(plan: Plan, states: seq<State>, steps: seq<Step>, i: nat)
    requires Shaped(plan) && Run(plan, states, steps) && i < |states| && Foreign !in steps
    requires states[0].phase == Installing(0) && Untouched(plan, states[0].rules)
    ensures Others(plan, states[i].rules) == states[0].rules
    ensures states[i].phase == Cleaning(0) ==> states[i].rules == states[0].rules
  {
    RunKeeps(plan, states, steps, i);
    if i == 0 {
      UntouchedBounded(plan, states[0].rules);
      CleanIsOthers(plan, states[0].rules);
    } else {
      CleanupRestores(plan, states, steps, i - 1);
      RunKeeps(plan, states, steps, i - 1);
      StepKeeps(plan, states[i - 1], steps[i - 1], states[i]);
      if states[i].phase == Cleaning(0) {
        CleanIsOthers(plan, states[i].rules);
      }
    }
  }
}
