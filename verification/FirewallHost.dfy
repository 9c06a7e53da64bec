/**
 The host's own commands: they form an undoable plan, and the exact condition under which cleanup
 restores the rule set that the installation found.
 */
module FirewallHost {
  import opened Prelude
  import opened Firewall
  import opened FirewallUndo

  /** Interface names, addresses and ports are never the jump option; the chain has a name of its own. */
  ghost predicate Proper(h: Host) {
    && h.chain !in BUILT_IN && h.chain !in TARGETS
    && "-j" !in [h.chain, h.veth, h.inside, h.ip, h.port, h.inside + ":" + h.port] && "-j" !in h.peers
  }

  function HostPlan(h: Host): Plan {
    Plan(h.chain, Commands(h))
  }

  /** The plan without its last command, the source translation. */
  function JumpPlan(h: Host): Plan {
    Plan(h.chain, Commands(h)[..|Commands(h)| - 1])
  }

  ghost predicate LocalRule(rule: Rule) {
    forall i :: 0 <= i < |rule| - 1 && rule[i] == "-j" ==> rule[i + 1] in TARGETS
  }

  /** A command that adds to the own chain, or inserts a jump to it into a built-in chain. */
  ghost predicate ChainCommand(h: Host, spec: Spec) {
    || (|spec.args| >= 2 && spec.args[0] == "-A" && spec.args[1] == h.chain && LocalRule(spec.args[2..]))
    || (|spec.args| >= 3 && spec.args[0] == "-I" && spec.args[2] == "1"
        && ChainRef(spec.table, spec.args[1]) in {ChainRef(Filter, "FORWARD"), ChainRef(Nat, "PREROUTING")}
        && JumpsTo(spec.args[3..], h.chain)
        && forall i :: 0 <= i < |spec.args[3..]| - 1 && spec.args[3..][i] == "-j" ==> spec.args[3..][i + 1] == h.chain)
  }

  lemma {:induction false} PeerCommands(h: Host, peers: seq<string>, i: nat)
    requires Proper(h) && "-j" !in peers && i < |PeerRules(h, peers)|
    ensures ChainCommand(h, PeerRules(h, peers)[i])
  {
    if i >= 3 {
      PeerCommands(h, peers[1..], i - 3);
    } else {
      assert peers[0] in peers;
      var spec := PeerRules(h, peers)[i];
      assert LocalRule(spec.args[2..]);
    }
  }

  lemma OwnChainCommands(h: Host, i: nat)
    requires Proper(h) && i < |OwnChainRules(h)|
    ensures ChainCommand(h, OwnChainRules(h)[i])
  {
    var n := |PeerRules(h, h.peers)|;
    if 3 <= i < 3 + n {
      PeerCommands(h, h.peers, i - 3);
    } else {
      var spec := OwnChainRules(h)[i];
      assert LocalRule(spec.args[2..]);
    }
  }

  lemma JumpCommands(h: Host, i: nat)
    requires Proper(h) && i < 3
    ensures ChainCommand(h, Jumps(h)[i])
  {
    var r := Jumps(h)[i].args[3..];
    assert r == if i == 0 then ["-i", h.veth, "-j", h.chain] else if i == 1 then ["-o", h.veth, "-j", h.chain]
                else ["-d", h.ip, "-p", "tcp", "--dport", h.port, "-j", h.chain];
    assert r[|r| - 2] == "-j" && r[|r| - 1] == h.chain;
  }

  lemma CommandsByIndex(h: Host, i: nat)
    requires Proper(h) && i < |Commands(h)|
    ensures |Commands(h)| >= 8
    ensures i == 0 ==> Commands(h)[i] == Spec(Filter, ["-N", h.chain])
    ensures i == 1 ==> Commands(h)[i] == Spec(Nat, ["-N", h.chain])
    ensures 2 <= i < |Commands(h)| - 1 ==> ChainCommand(h, Commands(h)[i])
    ensures i == |Commands(h)| - 1 ==> Commands(h)[i] == Spec(Nat, ["-I", "POSTROUTING", "1"] + Masquerade(h))
  {
    var own := OwnChainRules(h);
    if 2 <= i < 2 + |own| {
      OwnChainCommands(h, i - 2);
    } else if 2 + |own| <= i < 5 + |own| {
      JumpCommands(h, i - 2 - |own|);
    }
  }

  lemma PlansShaped(h: Host)
    requires Proper(h)
    ensures Shaped(HostPlan(h)) && Shaped(JumpPlan(h)) && |Commands(h)| >= 8
  {
    CommandsByIndex(h, 0);
    CommandsByIndex(h, 1);
    forall i | 2 <= i < |Commands(h)| ensures Appends(HostPlan(h), Commands(h)[i]) || Inserts(HostPlan(h), Commands(h)[i]) {
      CommandsByIndex(h, i);
    }
    forall i | 2 <= i < |Commands(h)| - 1
      ensures Appends(JumpPlan(h), JumpPlan(h).specs[i]) || Inserts(JumpPlan(h), JumpPlan(h).specs[i])
    {
      CommandsByIndex(h, i);
    }
  }

  /** The checks before installation, on a host with the built-in chains: no rule can jump to a chain that is not there. */
  ghost predicate Ready(h: Host, s: Ruleset) {
    && (forall x, i :: x in s && 0 <= i < |s[x]| ==> !JumpsTo(s[x][i], h.chain))
    && ChainRef(Filter, h.chain) !in s && ChainRef(Nat, h.chain) !in s
    && ChainRef(Filter, "FORWARD") in s && ChainRef(Nat, "PREROUTING") in s && POSTROUTING in s
  }

  lemma NoJumps(h: Host, s: Ruleset, x: ChainRef, i: nat)
    requires Proper(h) && Ready(h, s) && x in s && i < |s[x]|
    ensures !JumpsTo(s[x][i], h.chain) && x.name != h.chain
  {
    assert x.table == Filter || x.table == Nat;
    assert x == ChainRef(x.table, x.name);
  }

  /** Rules found before installation that the plan would take for its own. */
  lemma OwnedBefore(h: Host, s: Ruleset, x: ChainRef, i: nat)
    requires Proper(h) && Ready(h, s) && x in s && i < |s[x]|
    ensures !Own(JumpPlan(h), x, s[x][i])
    ensures Own(HostPlan(h), x, s[x][i]) ==> x == POSTROUTING && s[x][i] == Masquerade(h)
  {
    NoJumps(h, s, x, i);
    var r := s[x][i];
    forall k | 2 <= k < |Commands(h)| - 1 ensures !Adds(Commands(h)[k], x, r) {
      CommandsByIndex(h, k);
    }
    assert forall k :: 2 <= k < |JumpPlan(h).specs| ==> JumpPlan(h).specs[k] == Commands(h)[k];
    if Own(HostPlan(h), x, r) {
      var k :| 2 <= k < |Commands(h)| && Adds(Commands(h)[k], x, r);
      CommandsByIndex(h, k);
      assert (["-I", "POSTROUTING", "1"] + Masquerade(h))[3..] == Masquerade(h);
    }
  }

  // ---------- Uninterrupted prefixes ----------

  lemma InstalledStep(s: Ruleset, specs: seq<Spec>, j: nat, k: nat)
    requires j < k <= |specs|
    ensures var r := Iptables(s, specs[j]); Installed(s, specs[j..k]) == if r.Ok? then Installed(r.value, specs[j + 1..k]) else s
  {
    assert specs[j..k][0] == specs[j] && specs[j..k][1..] == specs[j + 1..k];
  }

  lemma CleanedStep(s: Ruleset, specs: seq<Spec>, k: nat)
    requires 0 < k <= |specs|
    ensures Cleaned(s, specs[..k]) == Cleaned(Attempt(s, Inverse(specs[k - 1])), specs[..k - 1])
  {
    assert specs[..k][..k - 1] == specs[..k - 1];
  }

  lemma InstallOne(plan: Plan, s: Ruleset, j: nat, k: nat) returns (t: Ruleset, ok: bool)
    requires Shaped(plan) && j < k <= |plan.specs| && Bounded(plan, s, j)
    ensures ok ==> Bounded(plan, t, j + 1) && Others(plan, t) == Others(plan, s)
    ensures Installed(s, plan.specs[j..k]) == if ok then Installed(t, plan.specs[j + 1..k]) else s
  {
    InstalledStep(s, plan.specs, j, k);
    t, ok := s, Iptables(s, plan.specs[j]).Ok?;
    if ok {
      InstallKeeps(plan, s, j);
      t := Iptables(s, plan.specs[j]).value;
    }
  }

  lemma UndoOne(plan: Plan, s: Ruleset, k: nat) returns (t: Ruleset)
    requires Shaped(plan) && 0 < k <= |plan.specs| && Bounded(plan, s, k)
    ensures Bounded(plan, t, k - 1) && Others(plan, t) == Others(plan, s)
    ensures Cleaned(s, plan.specs[..k]) == Cleaned(t, plan.specs[..k - 1])
  {
    UndoKeeps(plan, s, k - 1);
    CleanedStep(s, plan.specs, k);
    t := Attempt(s, Inverse(plan.specs[k - 1]));
  }

  lemma {:induction false} InstalledKeeps(plan: Plan, s: Ruleset, j: nat, k: nat)
    requires Shaped(plan) && j <= k <= |plan.specs| && Bounded(plan, s, j)
    ensures var t := Installed(s, plan.specs[j..k]); Bounded(plan, t, |plan.specs|) && Others(plan, t) == Others(plan, s)
    decreases k - j
  {
    if j == k {
      BeginKeeps(plan, s, j);
    } else {
      var t, ok := InstallOne(plan, s, j, k);
      if ok {
        InstalledKeeps(plan, t, j + 1, k);
      } else {
        BeginKeeps(plan, s, j);
      }
    }
  }

  lemma {:induction false} CleanedKeeps(plan: Plan, s: Ruleset, k: nat)
    requires Shaped(plan) && k <= |plan.specs| && Bounded(plan, s, k)
    ensures Cleaned(s, plan.specs[..k]) == Others(plan, s)
    decreases k
  {
    if k == 0 {
      CleanIsOthers(plan, s);
    } else {
      var t := UndoOne(plan, s, k);
      CleanedKeeps(plan, t, k - 1);
    }
  }

  lemma PrefixThenClean(plan: Plan, s: Ruleset, k: nat)
    requires Shaped(plan) && Untouched(plan, s) && k <= |plan.specs|
    ensures var t := Installed(s, plan.specs[..k]); Bounded(plan, t, |plan.specs|) && Others(plan, t) == s
    ensures Cleaned(Installed(s, plan.specs[..k]), plan.specs) == s
  {
    UntouchedBounded(plan, s);
    CleanIsOthers(plan, s);
    InstalledKeeps(plan, s, 0, k);
    assert plan.specs[0..k] == plan.specs[..k] && plan.specs[..|plan.specs|] == plan.specs;
    CleanedKeeps(plan, Installed(s, plan.specs[..k]), |plan.specs|);
  }

  // ---------- The exact condition ----------

  ghost predicate Succeeds(s: Ruleset, specs: seq<Spec>)
    decreases |specs|
  {
    specs == [] || (Iptables(s, specs[0]).Ok? && Succeeds(Iptables(s, specs[0]).value, specs[1..]))
  }

  lemma {:induction false} LastCommand(s: Ruleset, specs: seq<Spec>, last: Spec)
    requires Succeeds(s, specs + [last])
    ensures Iptables(Installed(s, specs), last) == Ok(Installed(s, specs + [last]))
    decreases |specs|
  {
    assert specs != [] ==> (specs + [last])[1..] == specs[1..] + [last];
    if specs == [] {
      assert specs + [last] == [last];
      assert Installed(Iptables(s, last).value, []) == Iptables(s, last).value;
    } else {
      LastCommand(Iptables(s, specs[0]).value, specs[1..], last);
    }
  }

  ghost predicate HasChains(h: Host, s: Ruleset, k: nat) {
    && ChainRef(Filter, "FORWARD") in s && ChainRef(Nat, "PREROUTING") in s && POSTROUTING in s
    && (ChainRef(Filter, h.chain) in s <==> k >= 1) && (ChainRef(Nat, h.chain) in s <==> k >= 2)
  }

  lemma CommandSucceeds(h: Host, s: Ruleset, k: nat)
    requires Proper(h) && k < |Commands(h)| && HasChains(h, s, k)
    ensures Iptables(s, Commands(h)[k]).Ok? && HasChains(h, Iptables(s, Commands(h)[k]).value, k + 1)
  {
    CommandsByIndex(h, k);
    if 2 <= k < |Commands(h)| - 1 {
      ChainCommandSucceeds(h, s, Commands(h)[k]);
    } else if k == |Commands(h)| - 1 {
      assert (["-I", "POSTROUTING", "1"] + Masquerade(h))[3..] == Masquerade(h);
      assert Resolves(s, Nat, Masquerade(h));
    }
  }

  lemma ChainCommandSucceeds(h: Host, s: Ruleset, spec: Spec)
    requires ChainCommand(h, spec) && HasChains(h, s, 2)
    ensures Iptables(s, spec).Ok? && Iptables(s, spec).value.Keys == s.Keys
  {
    assert spec.table == Filter || spec.table == Nat;
    if spec.args[0] == "-A" {
      assert Resolves(s, spec.table, spec.args[2..]);
    } else {
      assert Resolves(s, spec.table, spec.args[3..]);
    }
  }

  lemma {:induction false} InstallSucceeds(h: Host, s: Ruleset, k: nat)
    requires Proper(h) && k <= |Commands(h)| && HasChains(h, s, k)
    ensures Succeeds(s, Commands(h)[k..])
    decreases |Commands(h)| - k
  {
    if k < |Commands(h)| {
      CommandSucceeds(h, s, k);
      InstallSucceeds(h, Iptables(s, Commands(h)[k]).value, k + 1);
      assert Commands(h)[k..][1..] == Commands(h)[k + 1..];
    }
  }

  lemma UndoMasquerade(h: Host, s: Ruleset)
    requires Proper(h)
    ensures Attempt(s, Inverse(Commands(h)[|Commands(h)| - 1])) ==
            if POSTROUTING in s && Masquerade(h) in s[POSTROUTING]
            then s[POSTROUTING := Without(s[POSTROUTING], Masquerade(h))] else s
  {
    PlansShaped(h);
    CommandsByIndex(h, |Commands(h)| - 1);
    UndoRule(HostPlan(h), s, |Commands(h)| - 1);
    assert (["-I", "POSTROUTING", "1"] + Masquerade(h))[3..] == Masquerade(h);
  }

  /** The source translation is no rule of the jump plan. */
  lemma MasqueradeForeign(h: Host)
    requires Proper(h)
    ensures !Own(JumpPlan(h), POSTROUTING, Masquerade(h))
  {
    var r := Masquerade(h);
    assert !JumpsTo(r, h.chain) by {
      forall i | 0 <= i < |r| - 1 && r[i] == "-j" ensures r[i + 1] != h.chain {
        assert i == 2;
      }
    }
    forall k | 2 <= k < |JumpPlan(h).specs| ensures !Adds(JumpPlan(h).specs[k], POSTROUTING, r) {
      CommandsByIndex(h, k);
    }
  }

  lemma StripCons(plan: Plan, x: ChainRef, a: Rule, b: seq<Rule>)
    ensures Strip(plan, x, [a] + b) == (if Own(plan, x, a) then [] else [a]) + Strip(plan, x, b)
  {
    assert ([a] + b)[1..] == b;
  }

  lemma WithoutCons(a: Rule, b: seq<Rule>, rule: Rule)
    ensures Without([a] + b, rule) == if a == rule then b else [a] + Without(b, rule)
  {
    assert ([a] + b)[1..] == b;
  }

  lemma {:induction false} StripWithoutForeign(plan: Plan, x: ChainRef, rules: seq<Rule>, rule: Rule)
    requires !Own(plan, x, rule)
    ensures Strip(plan, x, Without(rules, rule)) == Without(Strip(plan, x, rules), rule)
  {
    if rules != [] {
      var a, b := rules[0], rules[1..];
      assert rules == [a] + b;
      StripWithoutForeign(plan, x, b, rule);
      StripCons(plan, x, a, b);
      StripCons(plan, x, a, Without(b, rule));
      WithoutCons(a, b, rule);
      WithoutCons(a, Strip(plan, x, b), rule);
      if Own(plan, x, a) {
        assert [] + Strip(plan, x, b) == Strip(plan, x, b);
      }
    }
  }

  lemma {:induction false} WithoutSubset(rules: seq<Rule>, rule: Rule, i: nat)
    requires i < |Without(rules, rule)|
    ensures Without(rules, rule)[i] in rules
  {
    if rules[0] != rule && i > 0 {
      WithoutSubset(rules[1..], rule, i - 1);
    }
  }

  lemma {:induction false} WithoutAbsent(rules: seq<Rule>, rule: Rule)
    requires rule !in rules
    ensures Without(rules, rule) == rules
  {
    if rules != [] {
      WithoutAbsent(rules[1..], rule);
    }
  }

  /** The rule set without the first copy of the host's source translation. */
  function Dropped(h: Host, s: Ruleset): Ruleset
    requires POSTROUTING in s
  {
    s[POSTROUTING := Without(s[POSTROUTING], Masquerade(h))]
  }

  lemma UndoDrops(h: Host, s: Ruleset)
    requires Proper(h) && POSTROUTING in s
    ensures Attempt(s, Inverse(Commands(h)[|Commands(h)| - 1])) == Dropped(h, s)
  {
    UndoMasquerade(h, s);
    if Masquerade(h) !in s[POSTROUTING] {
      WithoutAbsent(s[POSTROUTING], Masquerade(h));
      assert Dropped(h, s) == s;
    }
  }

  lemma DroppedBounded(h: Host, plan: Plan, t: Ruleset)
    requires Shaped(plan) && Bounded(plan, t, |plan.specs|) && POSTROUTING in t
    ensures Bounded(plan, Dropped(h, t), |plan.specs|)
  {
    var u, r := Dropped(h, t), Masquerade(h);
    forall x, q | x in u && Own(plan, x, q) ensures multiset(u[x])[q] <= Additions(plan.specs[..|plan.specs|], x, q) {
      if r in t[POSTROUTING] {
        WithoutCounts(t[POSTROUTING], r);
      } else {
        WithoutAbsent(t[POSTROUTING], r);
      }
      assert multiset(u[x])[q] <= multiset(t[x])[q];
    }
  }

  lemma DroppedOthers(h: Host, plan: Plan, s: Ruleset, t: Ruleset)
    requires plan.chain != POSTROUTING.name && !Own(plan, POSTROUTING, Masquerade(h))
    requires Others(plan, t) == s && POSTROUTING in t && POSTROUTING in s
    ensures Others(plan, Dropped(h, t)) == Dropped(h, s)
  {
    StripWithoutForeign(plan, POSTROUTING, t[POSTROUTING], Masquerade(h));
    var a, b := Others(plan, Dropped(h, t)), Dropped(h, s);
    assert a.Keys == b.Keys;
    forall x | x in a ensures a[x] == b[x] {
      assert x in s && s[x] == Strip(plan, x, t[x]);
    }
  }

  /** Before the last command, cleanup takes one copy of the source translation away from the host. */
  lemma EarlyUndoDrops(h: Host, s: Ruleset, k: nat)
    requires Proper(h) && Ready(h, s) && k < |Commands(h)|
    ensures Cleaned(Installed(s, Commands(h)[..k]), Commands(h)) == Dropped(h, s)
  {
    PlansShaped(h);
    MasqueradeForeign(h);
    var plan, t := JumpPlan(h), Installed(s, Commands(h)[..k]);
    JumpPrefix(h, s, k);
    UndoDrops(h, t);
    DroppedBounded(h, plan, t);
    DroppedOthers(h, plan, s, t);
    CleanedRest(h, t, Dropped(h, t));
  }

  /** The state after an installed prefix, as the jump plan sees it. */
  lemma JumpPrefix(h: Host, s: Ruleset, k: nat)
    requires Proper(h) && Ready(h, s) && k < |Commands(h)|
    ensures Shaped(JumpPlan(h))
    ensures var t, plan := Installed(s, Commands(h)[..k]), JumpPlan(h);
            Bounded(plan, t, |plan.specs|) && Others(plan, t) == s && POSTROUTING in t
  {
    PlansShaped(h);
    var plan := JumpPlan(h);
    forall x, i | x in s && 0 <= i < |s[x]| ensures !Own(plan, x, s[x][i]) {
      OwnedBefore(h, s, x, i);
    }
    PrefixThenClean(plan, s, k);
    assert plan.specs[..k] == Commands(h)[..k];
    assert POSTROUTING in Others(plan, Installed(s, plan.specs[..k]));
  }

  /** After the last command is undone, the jump plan's cleanup remains. */
  lemma CleanedRest(h: Host, t: Ruleset, u: Ruleset)
    requires Proper(h) && u == Attempt(t, Inverse(Commands(h)[|Commands(h)| - 1])) && Shaped(JumpPlan(h))
    requires Bounded(JumpPlan(h), u, |JumpPlan(h).specs|)
    ensures Cleaned(t, Commands(h)) == Others(JumpPlan(h), u)
  {
    var n, plan := |Commands(h)|, JumpPlan(h);
    CommandsByIndex(h, 0);
    CleanedStep(t, Commands(h), n);
    CleanedKeeps(plan, u, n - 1);
    assert Commands(h)[..n] == Commands(h) && plan.specs[..n - 1] == plan.specs == Commands(h)[..n - 1];
  }

  lemma FullInstalled(h: Host, s: Ruleset)
    requires Proper(h) && Ready(h, s)
    ensures var n := |Commands(h)|; var t := Installed(s, Commands(h)[..n - 1]);
            POSTROUTING in t && Installed(s, Commands(h)) == t[POSTROUTING := [Masquerade(h)] + t[POSTROUTING]]
  {
    var n := |Commands(h)|;
    InstallSucceeds(h, s, 0);
    assert Commands(h)[0..] == Commands(h)[..n - 1] + [Commands(h)[n - 1]] == Commands(h);
    LastCommand(s, Commands(h)[..n - 1], Commands(h)[n - 1]);
    CommandsByIndex(h, n - 1);
    assert (["-I", "POSTROUTING", "1"] + Masquerade(h))[3..] == Masquerade(h);
  }

  /** The whole installation, uninterrupted, is undone whatever was there before. */
  lemma FullUndo(h: Host, s: Ruleset)
    requires Proper(h) && Ready(h, s)
    ensures Cleaned(Installed(s, Commands(h)), Commands(h)) == s
  {
    var n := |Commands(h)|;
    var t, u := Installed(s, Commands(h)[..n - 1]), Installed(s, Commands(h));
    JumpPrefix(h, s, n - 1);
    FullInstalled(h, s);
    UndoDrops(h, u);
    assert Without(u[POSTROUTING], Masquerade(h)) == t[POSTROUTING];
    assert Dropped(h, u) == t;
    CleanedRest(h, u, t);
  }

  // ---------- Repeated cleanups ----------

  function CleanedTimes(s: Ruleset, specs: seq<Spec>, m: nat): Ruleset
    decreases m
  {
    if m == 0 then s else CleanedTimes(Cleaned(s, specs), specs, m - 1)
  }

  function Copies(h: Host, s: Ruleset): nat {
    if POSTROUTING in s then multiset(s[POSTROUTING])[Masquerade(h)] else 0
  }

  lemma DroppedReady(h: Host, s: Ruleset)
    requires Proper(h) && Ready(h, s)
    ensures Ready(h, Dropped(h, s)) && Copies(h, Dropped(h, s)) == if Copies(h, s) > 0 then Copies(h, s) - 1 else 0
    ensures Copies(h, s) == 0 ==> Dropped(h, s) == s
  {
    var r, t := Masquerade(h), Dropped(h, s);
    if r in s[POSTROUTING] {
      WithoutCounts(s[POSTROUTING], r);
    } else {
      WithoutAbsent(s[POSTROUTING], r);
    }
    forall x, i | x in t && 0 <= i < |t[x]| ensures !JumpsTo(t[x][i], h.chain) {
      if x == POSTROUTING {
        WithoutSubset(s[x], r, i);
      }
    }
  }

  /** Each further cleanup takes another copy away. */
  lemma {:induction false} RepeatedCleanup(h: Host, s: Ruleset, m: nat)
    requires Proper(h) && Ready(h, s)
    ensures Copies(h, CleanedTimes(s, Commands(h), m)) == if Copies(h, s) > m then Copies(h, s) - m else 0
    ensures Copies(h, s) == 0 ==> CleanedTimes(s, Commands(h), m) == s
    decreases m
  {
    if m > 0 {
      CommandsByIndex(h, 0);
      EarlyUndoDrops(h, s, 0);
      assert Commands(h)[..0] == [] && Installed(s, []) == s;
      DroppedReady(h, s);
      RepeatedCleanup(h, Dropped(h, s), m - 1);
    }
  }

  /**
   After any installed prefix and any number of cleanups, the rule set is exactly the one found if
   and only if the host had no such source translation before, or the whole installation went
   through and was cleaned up once only.
   */
  lemma UndoneExactly(h: Host, s: Ruleset, k: nat, m: nat)
    requires Proper(h) && Ready(h, s) && k <= |Commands(h)| && m >= 1
    ensures CleanedTimes(Installed(s, Commands(h)[..k]), Commands(h), m) == s <==>
            Masquerade(h) !in s[POSTROUTING] || (k == |Commands(h)| && m == 1)
  {
    var first := Cleaned(Installed(s, Commands(h)[..k]), Commands(h));
    DroppedReady(h, s);
    if k < |Commands(h)| {
      EarlyUndoDrops(h, s, k);
    } else {
      assert Commands(h)[..k] == Commands(h);
      FullUndo(h, s);
    }
    RepeatedCleanup(h, first, m - 1);
  }
}
