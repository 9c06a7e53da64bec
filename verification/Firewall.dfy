/**
 The firewall rules of a fleet test host: how `iptables` changes the rule set, the ordered
 installation, and the cleanup that inverts each recorded command in reverse order.
 */
module Firewall {
  import opened Prelude

  datatype Table = Filter | Nat

  datatype ChainRef = ChainRef(table: Table, name: string)

  type Rule = seq<string>

  type Ruleset = map<ChainRef, seq<Rule>>

  /** One `iptables` invocation. */
  datatype Spec = Spec(table: Table, args: seq<string>)

  const BUILT_IN := {"INPUT", "OUTPUT", "FORWARD", "PREROUTING", "POSTROUTING"}
  const TARGETS := {"ACCEPT", "DROP", "SNAT", "DNAT"}

  // ---------- iptables ----------

  predicate JumpsTo(rule: Rule, name: string) {
    exists i :: 0 <= i < |rule| - 1 && rule[i] == "-j" && rule[i + 1] == name
  }

  predicate Referenced(s: Ruleset, x: ChainRef) {
    exists y, i :: y in s && y.table == x.table && 0 <= i < |s[y]| && JumpsTo(s[y][i], x.name)
  }

  /** Every jump names a target or a chain of the table. */
  predicate Resolves(s: Ruleset, table: Table, rule: Rule) {
    forall i :: 0 <= i < |rule| - 1 && rule[i] == "-j" ==> rule[i + 1] in TARGETS || ChainRef(table, rule[i + 1]) in s
  }

  /** The rules without the first occurrence of one. */
  function Without(rules: seq<Rule>, rule: Rule): seq<Rule> {
    if rules == [] then [] else if rules[0] == rule then rules[1..] else [rules[0]] + Without(rules[1..], rule)
  }

  /** The rule set after a command; a failing command changes nothing. */
  function Iptables(s: Ruleset, spec: Spec): Result<Ruleset> {
    var a := spec.args;
    if |a| < 2 then Error("bad arguments")
    else
      var x := ChainRef(spec.table, a[1]);
      if a[0] == "-N" then if x in s then Error("chain already exists") else Ok(s[x := []])
      else if x !in s then Error("no such chain")
      else if a[0] == "-X" then
        if x.name in BUILT_IN || s[x] != [] || Referenced(s, x) then Error("chain is in use") else Ok(s - {x})
      else if a[0] == "-A" then
        if Resolves(s, x.table, a[2..]) then Ok(s[x := s[x] + [a[2..]]]) else Error("no such target")
      else if a[0] == "-I" && |a| >= 3 && a[2] == "1" then
        if Resolves(s, x.table, a[3..]) then Ok(s[x := [a[3..]] + s[x]]) else Error("no such target")
      else if a[0] == "-D" then
        if a[2..] in s[x] then Ok(s[x := Without(s[x], a[2..])]) else Error("no such rule")
      else Error("unsupported command")
  }

  /** `check=False`: the exit status is ignored. */
  function Attempt(s: Ruleset, spec: Spec): Ruleset {
    match Iptables(s, spec)
    case Ok(t) => t
    case Error(_) => s
  }

  // ---------- The host's commands ----------

  datatype Host = Host(chain: string, veth: string, inside: string, ip: string, peers: seq<string>, port: string)

  function PeerRules(h: Host, peers: seq<string>): seq<Spec> {
    if peers == [] then []
    else
      [Spec(Filter, ["-A", h.chain, "-s", h.inside, "-d", peers[0], "-p", "tcp", "--dport", h.port, "-j", "ACCEPT"]),
       Spec(Filter, ["-A", h.chain, "-s", peers[0], "-d", h.inside, "-p", "tcp", "--dport", h.port, "-j", "ACCEPT"]),
       Spec(Nat, ["-A", h.chain, "-s", peers[0], "-p", "tcp", "-j", "DNAT", "--to-destination", h.inside + ":" + h.port])]
      + PeerRules(h, peers[1..])
  }

  function OwnChainRules(h: Host): seq<Spec> {
    [Spec(Filter, ["-A", h.chain, "-m", "conntrack", "--ctstate", "ESTABLISHED,RELATED", "-j", "ACCEPT"]),
     Spec(Filter, ["-A", h.chain, "-s", h.inside, "-d", h.inside, "-p", "tcp", "--dport", h.port, "-j", "ACCEPT"]),
     Spec(Nat, ["-A", h.chain, "-s", h.inside, "-p", "tcp", "-j", "DNAT", "--to-destination", h.inside + ":" + h.port])]
    + PeerRules(h, h.peers)
    + [Spec(Filter, ["-A", h.chain, "-j", "DROP"])]
  }

  function Jumps(h: Host): seq<Spec> {
    [Spec(Filter, ["-I", "FORWARD", "1", "-i", h.veth, "-j", h.chain]),
     Spec(Filter, ["-I", "FORWARD", "1", "-o", h.veth, "-j", h.chain]),
     Spec(Nat, ["-I", "PREROUTING", "1", "-d", h.ip, "-p", "tcp", "--dport", h.port, "-j", h.chain])]
  }

  function Masquerade(h: Host): Rule {
    ["-s", h.inside, "-j", "SNAT", "--to-source", h.ip]
  }

  const POSTROUTING := ChainRef(Nat, "POSTROUTING")

  /** `rules`: the commands in the order of installation. */
  function Commands(h: Host): seq<Spec> {
    [Spec(Filter, ["-N", h.chain]), Spec(Nat, ["-N", h.chain])] + OwnChainRules(h) + Jumps(h)
    + [Spec(Nat, ["-I", "POSTROUTING", "1"] + Masquerade(h))]
  }

  /** The edit that cleanup makes to a recorded command. */
  function Inverse(spec: Spec): Spec {
    var a := spec.args;
    if a == [] then spec
    else if a[0] == "-N" then Spec(spec.table, ["-X"] + a[1..])
    else if a[0] == "-I" && |a| > 2 then Spec(spec.table, ["-D"] + a[1..2] + a[3..])
    else Spec(spec.table, ["-D"] + a[1..])
  }

  /** The rule set after installation, which stops at the first failure. */
  function Installed(s: Ruleset, specs: seq<Spec>): Ruleset
    decreases |specs|
  {
    if specs == [] then s
    else match Iptables(s, specs[0])
         case Error(_) => s
         case Ok(t) => Installed(t, specs[1..])
  }

  /** The rule set after every command was inverted, last first. */
  function Cleaned(s: Ruleset, specs: seq<Spec>): Ruleset
    decreases |specs|
  {
    if specs == [] then s else Cleaned(Attempt(s, Inverse(specs[|specs| - 1])), specs[..|specs| - 1])
  }

  /** The host's tables, changed in place. */
  class Kernel {
    var rules: Ruleset

    constructor (rules: Ruleset)
      ensures this.rules == rules
    {
      this.rules := rules;
    }

    method Install(h: Host) returns (ok: bool)
      modifies this
      ensures rules == Installed(old(rules), Commands(h))
    {
      var specs := Commands(h);
      for i := 0 to |specs|
        invariant Installed(rules, specs[i..]) == Installed(old(rules), specs)
      {
        assert specs[i..][0] == specs[i] && specs[i..][1..] == specs[i + 1..];
        var t := Iptables(rules, specs[i]);
        if t.Error? {
          return false;
        }
        rules := t.value;
      }
      assert specs[|specs|..] == [];
      return true;
    }

    method Cleanup(recorded: seq<Spec>)
      modifies this
      ensures rules == Cleaned(old(rules), recorded)
    {
      var i := |recorded|;
      assert recorded[..i] == recorded;
      while i > 0
        invariant 0 <= i <= |recorded| && Cleaned(rules, recorded[..i]) == Cleaned(old(rules), recorded)
      {
        i := i - 1;
        assert recorded[..i + 1][i] == recorded[i] && recorded[..i + 1][..i] == recorded[..i];
        rules := Attempt(rules, Inverse(recorded[i]));
      }
    }
  }
}
