/**
 * Blocklist matching: a requested name is blocked when some configured rule
 * is the name itself or one of its parent domains.
 */
module Blocklist {
  import opened DomainNames

  /**
   * `isBlocked`: scan the rules in order and stop at the first one the
   * requested name is a subdomain of.
   */
  function IsBlocked(rules: seq<string>, name: string): (blocked: bool)
    ensures blocked <==> exists r :: r in rules && IsSubDomain(r, name)
    decreases |rules|
  {
    if rules == [] then false
    else if IsSubDomain(rules[0], name) then true
    else
      assert forall r :: r in rules <==> r == rules[0] || r in rules[1..];
      IsBlocked(rules[1..], name)
  }

  /** An empty blocklist blocks nothing. */
  lemma EmptyBlocksNothing(name: string)
    ensures !IsBlocked([], name)
  {
  }

  /** The verdict depends on which rules are configured, not on their order or repetition. */
  lemma OrderIrrelevant(rules: seq<string>, others: seq<string>, name: string)
    requires forall r :: r in rules <==> r in others
    ensures IsBlocked(rules, name) == IsBlocked(others, name)
  {
  }

  /** Every configured rule blocks its own name and every subdomain of it, at any depth. */
  lemma BlocksSubdomains(rules: seq<string>, rule: string, labels: seq<string>)
    requires rule in rules
    requires rule != "" && rule != "."
    requires forall l :: l in labels ==> '.' !in l
    ensures IsBlocked(rules, rule)
    ensures IsBlocked(rules, Prepend(labels, rule))
  {
    SubDomainReflexive(rule);
    SubDomainAtAnyDepth(rule, labels, rule);
  }

  /** The root rule "." blocks every name. */
  lemma RootBlocksEverything(rules: seq<string>, name: string)
    requires "." in rules
    ensures IsBlocked(rules, name)
  {
    assert Labels(".") == [];
    assert IsSubDomain(".", name);
  }

  /** Adding rules never unblocks a name. */
  lemma MoreRulesBlockMore(rules: seq<string>, extra: seq<string>, name: string)
    requires IsBlocked(rules, name)
    ensures IsBlocked(rules + extra, name)
  {
    var r :| r in rules && IsSubDomain(r, name);
    assert r in rules + extra;
  }

  /**
   * The worked example: with the single rule "ads.example.com.", the name
   * "x.ads.example.com." is blocked and its parent "example.com." is not.
   */
  lemma AdsExample()
    ensures IsBlocked(["ads.example.com."], "x.ads.example.com.")
    ensures !IsBlocked(["ads.example.com."], "example.com.")
  {
    var rule := "ads.example.com.";
    SubDomainReflexive(rule);
    assert "x.ads.example.com." == "x" + "." + rule;
    SubDomainOfChild(rule, "x", rule);
    assert rule == "ads" + "." + "example.com.";
    LabelsOfChild("ads", "example.com.");
    assert !IsSubDomain(rule, "example.com.");
  }
}
