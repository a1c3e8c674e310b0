/**
 * Domain names in presentation form ("www.example.com.") and the two name
 * operations the blocker relies on: `dns.Fqdn`, which makes a name fully
 * qualified, and `dns.IsSubDomain`, which compares names label by label from
 * the right, ignoring ASCII case.
 */
module DomainNames {
  import opened Strings

  /** A name is fully qualified when it ends with the root dot. */
  predicate IsFqdn(name: string) {
    |name| > 0 && name[|name| - 1] == '.'
  }

  /** `dns.Fqdn`: append the root dot unless the name already ends with one. */
  function Fqdn(name: string): (r: string)
    ensures IsFqdn(r)
    ensures IsFqdn(name) ==> r == name
    ensures !IsFqdn(name) ==> r[..|r| - 1] == name
  {
    if IsFqdn(name) then name else name + "."
  }

  /** The labels of a name, left to right, without the root dot; the root has none. */
  function Labels(name: string): seq<string> {
    var body := if IsFqdn(name) then name[..|name| - 1] else name;
    if body == [] then [] else Split(body, '.')
  }

  function LowerChar(c: char): char {
    if 'A' <= c <= 'Z' then (c as int + 32) as char else c
  }

  /** ASCII lower-casing, the only case folding DNS label comparison does. */
  function Lower(s: string): (r: string)
    ensures |r| == |s|
    ensures forall i :: 0 <= i < |s| ==> r[i] == LowerChar(s[i])
  {
    seq(|s|, i requires 0 <= i < |s| => LowerChar(s[i]))
  }

  /** Two labels are the same label when they agree up to ASCII case. */
  predicate LabelEqual(a: string, b: string) {
    Lower(a) == Lower(b)
  }

  /** The labels of `parent` are, one for one, the last labels of `child`. */
  predicate LabelSuffix(parent: seq<string>, child: seq<string>) {
    |parent| <= |child| &&
    forall i :: 0 <= i < |parent| ==> LabelEqual(parent[i], child[|child| - |parent| + i])
  }

  /**
   * `dns.IsSubDomain(parent, child)`: the labels of `parent` end the labels of
   * `child` (equality included). The library compares the last label together
   * with its root dot, so unless `parent` is the root both names must agree on
   * being fully qualified. The empty string counts as one empty label, so as
   * a parent it matches only the empty child.
   */
  predicate IsSubDomain(parent: string, child: string) {
    if parent == "" then child == ""
    else
      LabelSuffix(Labels(parent), Labels(child)) &&
      (Labels(parent) == [] || IsFqdn(parent) == IsFqdn(child))
  }

  /** `Prepend(["a", "b"], n)` is "a.b." + n: a descendant of `n` at depth |labels|. */
  function Prepend(labels: seq<string>, name: string): string
    decreases |labels|
  {
    if labels == [] then name else labels[0] + "." + Prepend(labels[1..], name)
  }

  lemma SubDomainReflexive(name: string)
    ensures IsSubDomain(name, name)
  {
  }

  /** Making a name fully qualified does not change its labels. */
  lemma FqdnKeepsLabels(name: string)
    ensures Labels(Fqdn(name)) == Labels(name)
  {
    if !IsFqdn(name) {
      assert (name + ".")[..|name|] == name;
    }
  }

  /** A name that is not fully qualified (and not the root) never matches a fully qualified one. */
  lemma UnqualifiedParentMissesQualifiedChild(parent: string, child: string)
    requires !IsFqdn(parent) && Labels(parent) != []
    requires IsFqdn(child)
    ensures !IsSubDomain(parent, child)
  {
  }

  /** Putting one label in front of a name adds exactly that label on the left. */
  lemma {:induction false} LabelsOfChild(lab: string, name: string)
    requires '.' !in lab
    requires name != "" && name != "."
    ensures Labels(lab + "." + name) == [lab] + Labels(name)
    ensures IsFqdn(lab + "." + name) == IsFqdn(name)
  {
    var child := lab + "." + name;
    assert child[|child| - 1] == name[|name| - 1];
    if IsFqdn(name) {
      var body := name[..|name| - 1];
      assert body != [];
      assert child[..|child| - 1] == lab + "." + body;
      SplitPrefix(lab, '.', body);
    } else {
      SplitPrefix(lab, '.', name);
    }
  }

  /** A child of a subdomain of `parent` is itself a subdomain of `parent`. */
  lemma {:induction false} SubDomainOfChild(parent: string, lab: string, name: string)
    requires IsSubDomain(parent, name)
    requires '.' !in lab
    requires name != "" && name != "."
    ensures IsSubDomain(parent, lab + "." + name)
  {
    LabelsOfChild(lab, name);
    var p, c, c' := Labels(parent), Labels(name), Labels(lab + "." + name);
    forall i | 0 <= i < |p|
      ensures LabelEqual(p[i], c'[|c'| - |p| + i])
    {
      assert c'[|c'| - |p| + i] == c[|c| - |p| + i];
    }
  }

  /** Subdomains at any depth: prefixing any number of labels keeps the match. */
  lemma {:induction false} SubDomainAtAnyDepth(parent: string, labels: seq<string>, name: string)
    requires IsSubDomain(parent, name)
    requires forall l :: l in labels ==> '.' !in l
    requires name != "" && name != "."
    ensures IsSubDomain(parent, Prepend(labels, name))
    ensures |Prepend(labels, name)| >= |name|
    decreases |labels|
  {
    if labels != [] {
      assert labels[0] in labels;
      assert forall l :: l in labels[1..] ==> l in labels;
      SubDomainAtAnyDepth(parent, labels[1..], name);
      var below := Prepend(labels[1..], name);
      assert below != "" && below != ".";
      SubDomainOfChild(parent, labels[0], below);
    }
  }

  function LowerAll(parts: seq<string>): (r: seq<string>)
    ensures |r| == |parts|
    ensures forall i :: 0 <= i < |parts| ==> r[i] == Lower(parts[i])
  {
    seq(|parts|, i requires 0 <= i < |parts| => Lower(parts[i]))
  }

  /** Lower-casing commutes with splitting into labels, since '.' has no case. */
  lemma {:induction false} SplitLower(s: string)
    ensures Split(Lower(s), '.') == LowerAll(Split(s, '.'))
    decreases |s|
  {
    if s != [] {
      var ls := Lower(s);
      assert ls[1..] == Lower(s[1..]);
      SplitLower(s[1..]);
      var rest := Split(s[1..], '.');
      var lrest := Split(ls[1..], '.');
      assert lrest == LowerAll(rest);
      if s[0] == '.' {
        assert ls[0] == '.';
        assert Split(ls, '.') == [""] + lrest;
        assert LowerAll([""] + rest) == [""] + LowerAll(rest);
      } else {
        assert ls[0] != '.';
        var first := [s[0]] + rest[0];
        assert Lower(first) == [ls[0]] + lrest[0];
        assert Split(ls, '.') == [[ls[0]] + lrest[0]] + lrest[1..];
        assert LowerAll([first] + rest[1..]) == [Lower(first)] + LowerAll(rest)[1..];
      }
    }
  }

  lemma LabelsLower(name: string)
    ensures IsFqdn(Lower(name)) == IsFqdn(name)
    ensures Labels(Lower(name)) == LowerAll(Labels(name))
  {
    var ln := Lower(name);
    if IsFqdn(name) {
      assert ln[..|ln| - 1] == Lower(name[..|name| - 1]);
      SplitLower(name[..|name| - 1]);
    } else {
      SplitLower(name);
    }
  }

  lemma LowerIdempotent(s: string)
    ensures Lower(Lower(s)) == Lower(s)
  {
  }

  lemma LabelSuffixLower(parent: seq<string>, child: seq<string>)
    ensures LabelSuffix(parent, child) <==> LabelSuffix(LowerAll(parent), LowerAll(child))
  {
    var lp, lc := LowerAll(parent), LowerAll(child);
    if |parent| <= |child| {
      forall i | 0 <= i < |parent|
        ensures LabelEqual(parent[i], child[|child| - |parent| + i]) <==> LabelEqual(lp[i], lc[|lc| - |lp| + i])
      {
        LowerIdempotent(parent[i]);
        LowerIdempotent(child[|child| - |parent| + i]);
      }
    }
  }

  /** Subdomain matching ignores ASCII case on either side. */
  lemma SubDomainIgnoresCase(parent: string, child: string)
    ensures IsSubDomain(parent, child) <==> IsSubDomain(Lower(parent), Lower(child))
  {
    LabelsLower(parent);
    LabelsLower(child);
    LabelSuffixLower(Labels(parent), Labels(child));
  }
}
