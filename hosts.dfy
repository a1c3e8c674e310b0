/**
 * The blocklist loader's parsing step: the hosts file is read line by line up
 * to each '\n', every complete line loses its newline and is made fully
 * qualified, and a final fragment without a newline is dropped when the
 * reader reports end of file.
 */
module Hosts {
  import opened DomainNames
  import opened Blocklist

  /**
   * The rules produced from the unread input `rest`, when `line` holds the
   * characters of the current line read so far.
   */
  function Scan(rest: string, line: string): seq<string>
    decreases |rest|
  {
    if rest == [] then []
    else if rest[0] == '\n' then [Fqdn(line)] + Scan(rest[1..], "")
    else Scan(rest[1..], line + [rest[0]])
  }

  /** The ordered rule list a hosts file with contents `content` yields. */
  function HostsRules(content: string): seq<string> {
    Scan(content, "")
  }

  /**
   * `loadBlocked` without the file handling: the rules are appended in file
   * order while reading up to each newline.
   */
  method LoadBlocked(content: string) returns (blocked: seq<string>)
    ensures blocked == HostsRules(content)
  {
    blocked := [];
    var start, i := 0, 0;
    while i < |content|
      invariant 0 <= start <= i <= |content|
      invariant blocked + Scan(content[i..], content[start..i]) == HostsRules(content)
    {
      assert content[i..][1..] == content[i + 1..];
      if content[i] == '\n' {
        ghost var rest := Scan(content[i + 1..], "");
        assert Scan(content[i..], content[start..i]) == [Fqdn(content[start..i])] + rest;
        blocked := blocked + [Fqdn(content[start..i])];
        start := i + 1;
        assert content[start..i + 1] == "";
      } else {
        assert content[start..i] + [content[i]] == content[start..i + 1];
      }
      i := i + 1;
    }
  }

  lemma {:induction false} ScanLine(line: string, acc: string, rest: string)
    requires '\n' !in line
    ensures Scan(line + "\n" + rest, acc) == [Fqdn(acc + line)] + Scan(rest, "")
    decreases |line|
  {
    var s := line + "\n" + rest;
    if line == [] {
      assert s[0] == '\n' && s[1..] == rest;
      assert acc + line == acc;
    } else {
      assert s[0] == line[0] && s[1..] == line[1..] + "\n" + rest;
      ScanLine(line[1..], acc + [line[0]], rest);
      assert acc + [line[0]] + line[1..] == acc + line;
    }
  }

  /** A complete line contributes exactly one rule: the line made fully qualified. */
  lemma LineBecomesRule(line: string, rest: string)
    requires '\n' !in line
    ensures HostsRules(line + "\n" + rest) == [Fqdn(line)] + HostsRules(rest)
  {
    ScanLine(line, "", rest);
    assert "" + line == line;
  }

  lemma {:induction false} ScanIgnoresTail(content: string, acc: string, tail: string)
    requires '\n' !in tail
    ensures Scan(content + tail, acc) == Scan(content, acc)
    decreases |content| + |tail|
  {
    var s := content + tail;
    if content == [] {
      assert s == tail;
      if tail != [] {
        assert tail[0] in tail;
        ScanIgnoresTail([], acc + [tail[0]], tail[1..]);
        assert [] + tail[1..] == tail[1..];
      }
    } else {
      assert s[0] == content[0] && s[1..] == content[1..] + tail;
      if content[0] == '\n' {
        ScanIgnoresTail(content[1..], "", tail);
      } else {
        ScanIgnoresTail(content[1..], acc + [content[0]], tail);
      }
    }
  }

  /** A last line that is not terminated by a newline yields no rule. */
  lemma UnterminatedLastLineDropped(content: string, tail: string)
    requires '\n' !in tail
    ensures HostsRules(content + tail) == HostsRules(content)
  {
    ScanIgnoresTail(content, "", tail);
  }

  lemma {:induction false} ScanShape(rest: string, line: string)
    ensures |Scan(rest, line)| == multiset(rest)['\n']
    ensures forall r :: r in Scan(rest, line) ==> IsFqdn(r)
    decreases |rest|
  {
    if rest != [] {
      assert rest == [rest[0]] + rest[1..];
      assert multiset(rest) == multiset([rest[0]]) + multiset(rest[1..]);
      if rest[0] == '\n' {
        ScanShape(rest[1..], "");
      } else {
        ScanShape(rest[1..], line + [rest[0]]);
      }
    }
  }

  /** One rule per newline, and every rule is fully qualified. */
  lemma RulesShape(content: string)
    ensures |HostsRules(content)| == multiset(content)['\n']
    ensures forall r :: r in HostsRules(content) ==> IsFqdn(r)
  {
    ScanShape(content, "");
  }

  lemma {:induction false} ScanAppend(a: string, acc: string, b: string)
    requires a != [] && a[|a| - 1] == '\n'
    ensures Scan(a + b, acc) == Scan(a, acc) + Scan(b, "")
    decreases |a|
  {
    var s := a + b;
    assert s[0] == a[0] && s[1..] == a[1..] + b;
    if |a| == 1 {
      assert a[1..] == [] && s[1..] == b;
    } else if a[0] == '\n' {
      ScanAppend(a[1..], "", b);
    } else {
      ScanAppend(a[1..], acc + [a[0]], b);
    }
  }

  /** Whole lines parse independently: the rules of a concatenation are concatenated. */
  lemma HostsAppend(a: string, b: string)
    requires a == [] || a[|a| - 1] == '\n'
    ensures HostsRules(a + b) == HostsRules(a) + HostsRules(b)
  {
    if a == [] {
      assert a + b == b;
    } else {
      ScanAppend(a, "", b);
    }
  }

  /**
   * An empty line becomes the root rule ".", which blocks every name: a blank
   * line anywhere in the hosts file turns the blocker into a refuse-all.
   */
  lemma BlankLineBlocksEverything(before: string, after: string, name: string)
    requires before == [] || before[|before| - 1] == '\n'
    ensures "." in HostsRules(before + "\n" + after)
    ensures IsBlocked(HostsRules(before + "\n" + after), name)
  {
    LineBecomesRule("", after);
    assert "" + "\n" + after == "\n" + after;
    assert HostsRules("\n" + after)[0] == ".";
    HostsAppend(before, "\n" + after);
    assert before + "\n" + after == before + ("\n" + after);
    var rules := HostsRules(before + "\n" + after);
    assert rules[|HostsRules(before)|] == ".";
    RootBlocksEverything(rules, name);
  }
}
