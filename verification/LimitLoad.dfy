/** The load script run every minute: it deletes its limiting rules from a chain and, under load, inserts them again. */
module LimitLoad {

  /** `iptables -D`: the first copy of the rule goes; a missing rule is an error the script ignores. */
  function DeleteRule<R(==)>(chain: seq<R>, rule: R): seq<R> {
    if chain == [] then []
    else if chain[0] == rule then chain[1..]
    else [chain[0]] + DeleteRule(chain[1..], rule)
  }

  function DeleteRules<R(==)>(chain: seq<R>, rules: seq<R>): seq<R> {
    if rules == [] then chain
    else DeleteRule(DeleteRules(chain, rules[..|rules| - 1]), rules[|rules| - 1])
  }

  /** `iptables -I` for each rule in turn: the last inserted is first. */
  function Reversed<R>(rules: seq<R>): seq<R> {
    if rules == [] then [] else [rules[|rules| - 1]] + Reversed(rules[..|rules| - 1])
  }

  /** The chain after one run of the script. */
  function Run<R(==)>(chain: seq<R>, rules: seq<R>, loaded: bool): seq<R> {
    (if loaded then Reversed(rules) else []) + DeleteRules(chain, rules)
  }

  /** A packet filter chain, edited in place. */
  class Chain<R(==)> {
    var rules: seq<R>

    constructor (initial: seq<R>)
      ensures rules == initial
    {
      rules := initial;
    }

    method Delete(rule: R)
      modifies this
      ensures rules == DeleteRule(old(rules), rule)
    {
      var i := 0;
      while i < |rules| && rules[i] != rule
        invariant 0 <= i <= |rules| && rules == old(rules)
        invariant DeleteRule(rules, rule) == rules[..i] + DeleteRule(rules[i..], rule)
      {
        Peel(rules, i, rule);
        i := i + 1;
      }
      if i < |rules| {
        assert DeleteRule(rules[i..], rule) == rules[i..][1..] == rules[i + 1..];
        rules := rules[..i] + rules[i + 1..];
      } else {
        assert rules[i..] == [] && rules[..i] == rules;
      }
    }

    method Insert(rule: R)
      modifies this
      ensures rules == [rule] + old(rules)
    {
      rules := [rule] + rules;
    }

    method RunScript(limits: seq<R>, loaded: bool)
      modifies this
      ensures rules == Run(old(rules), limits, loaded)
    {
      for i := 0 to |limits|
        invariant rules == DeleteRules(old(rules), limits[..i])
      {
        assert limits[..i + 1][..i] == limits[..i];
        Delete(limits[i]);
      }
      assert limits[..|limits|] == limits;
      if loaded {
        ghost var deleted := rules;
        for i := 0 to |limits|
          invariant rules == Reversed(limits[..i]) + deleted
        {
          assert limits[..i + 1][..i] == limits[..i];
          Insert(limits[i]);
        }
      }
    }
  }

  lemma Peel<R>(chain: seq<R>, i: nat, rule: R)
    requires i < |chain| && chain[i] != rule
    ensures chain[..i] + DeleteRule(chain[i..], rule) == chain[..i + 1] + DeleteRule(chain[i + 1..], rule)
  {
    assert chain[i..][1..] == chain[i + 1..];
    assert chain[..i + 1] == chain[..i] + [chain[i]];
  }

  // ---- Counting copies ----

  lemma {:induction false} DeleteCount<R>(chain: seq<R>, rule: R)
    ensures multiset(DeleteRule(chain, rule)) == multiset(chain) - multiset{rule}
  {
    if chain != [] {
      assert chain == [chain[0]] + chain[1..];
      if chain[0] != rule {
        DeleteCount(chain[1..], rule);
      }
    }
  }

  lemma MinusTwice<R>(a: multiset<R>, b: multiset<R>, c: multiset<R>)
    ensures a - b - c == a - (b + c)
  {
  }

  lemma SplitLast<R>(rules: seq<R>)
    requires rules != []
    ensures multiset(rules) == multiset(rules[..|rules| - 1]) + multiset{rules[|rules| - 1]}
  {
    assert rules == rules[..|rules| - 1] + [rules[|rules| - 1]];
  }

  lemma {:induction false} DeleteCounts<R>(chain: seq<R>, rules: seq<R>)
    ensures multiset(DeleteRules(chain, rules)) == multiset(chain) - multiset(rules)
  {
    if rules != [] {
      var n := |rules| - 1;
      var most := DeleteRules(chain, rules[..n]);
      calc {
        multiset(DeleteRules(chain, rules));
        { DeleteCount(most, rules[n]); }
        multiset(most) - multiset{rules[n]};
        { DeleteCounts(chain, rules[..n]); }
        multiset(chain) - multiset(rules[..n]) - multiset{rules[n]};
        { MinusTwice(multiset(chain), multiset(rules[..n]), multiset{rules[n]}); }
        multiset(chain) - (multiset(rules[..n]) + multiset{rules[n]});
        { SplitLast(rules); }
        multiset(chain) - multiset(rules);
      }
    }
  }

  lemma {:induction false} ReversedCount<R>(rules: seq<R>)
    ensures multiset(Reversed(rules)) == multiset(rules)
  {
    if rules != [] {
      var n := |rules| - 1;
      ReversedCount(rules[..n]);
      assert rules == rules[..n] + [rules[n]];
    }
  }

  /** The copies of each rule after one run, whatever was there before. */
  lemma RunCount<R>(chain: seq<R>, rules: seq<R>, loaded: bool)
    ensures multiset(Run(chain, rules, loaded)) ==
            (if loaded then multiset(rules) else multiset{}) + (multiset(chain) - multiset(rules))
  {
    DeleteCounts(chain, rules);
    ReversedCount(rules);
  }

  // ---- The other rules ----

  /** The rules of the chain that are not limiting rules, in order. */
  function Others<R(==)>(chain: seq<R>, rules: seq<R>): seq<R> {
    if chain == [] then []
    else (if chain[0] in rules then [] else [chain[0]]) + Others(chain[1..], rules)
  }

  lemma {:induction false} OthersConcat<R>(a: seq<R>, b: seq<R>, rules: seq<R>)
    ensures Others(a + b, rules) == Others(a, rules) + Others(b, rules)
  {
    if a == [] {
      assert a + b == b;
    } else {
      assert (a + b)[1..] == a[1..] + b;
      OthersConcat(a[1..], b, rules);
    }
  }

  lemma {:induction false} DeleteKeepsOthers<R>(chain: seq<R>, rule: R, rules: seq<R>)
    requires rule in rules
    ensures Others(DeleteRule(chain, rule), rules) == Others(chain, rules)
  {
    if chain != [] && chain[0] != rule {
      DeleteKeepsOthers(chain[1..], rule, rules);
      var rest := DeleteRule(chain[1..], rule);
      assert ([chain[0]] + rest)[1..] == rest;
    }
  }

  lemma {:induction false} DeletesKeepOthers<R>(chain: seq<R>, some: seq<R>, rules: seq<R>)
    requires forall r <- some :: r in rules
    ensures Others(DeleteRules(chain, some), rules) == Others(chain, rules)
  {
    if some != [] {
      var n := |some| - 1;
      DeletesKeepOthers(chain, some[..n], rules);
      DeleteKeepsOthers(DeleteRules(chain, some[..n]), some[n], rules);
    }
  }

  lemma {:induction false} OnlyLimits<R>(chain: seq<R>, rules: seq<R>)
    requires forall r <- chain :: r in rules
    ensures Others(chain, rules) == []
  {
    if chain != [] {
      OnlyLimits(chain[1..], rules);
    }
  }

  lemma {:induction false} NoLimits<R>(chain: seq<R>, rules: seq<R>)
    requires forall r <- chain :: r !in rules
    ensures Others(chain, rules) == chain
  {
    if chain != [] {
      NoLimits(chain[1..], rules);
    }
  }

  lemma RunKeepsOthers<R>(chain: seq<R>, rules: seq<R>, loaded: bool)
    ensures Others(Run(chain, rules, loaded), rules) == Others(chain, rules)
  {
    var head := if loaded then Reversed(rules) else [];
    ReversedCount(rules);
    forall r <- head
      ensures r in rules
    {
      assert r in multiset(head);
    }
    OnlyLimits(head, rules);
    OthersConcat(head, DeleteRules(chain, rules), rules);
    DeletesKeepOthers(chain, rules, rules);
  }

  // ---- Any number of runs ----

  function Runs<R(==)>(chain: seq<R>, rules: seq<R>, loads: seq<bool>): seq<R> {
    if loads == [] then chain
    else Run(Runs(chain, rules, loads[..|loads| - 1]), rules, loads[|loads| - 1])
  }

  /** No limiting rule is there more often than the script generates it. */
  ghost predicate NoExcess<R>(chain: seq<R>, rules: seq<R>) {
    forall r <- rules :: multiset(chain)[r] <= multiset(rules)[r]
  }

  lemma RunKeepsNoExcess<R>(chain: seq<R>, rules: seq<R>, loaded: bool)
    requires NoExcess(chain, rules)
    ensures NoExcess(Run(chain, rules, loaded), rules)
    ensures forall r <- rules :: multiset(Run(chain, rules, loaded))[r] == if loaded then multiset(rules)[r] else 0
  {
    RunCount(chain, rules, loaded);
  }

  /** From a chain without excess copies, after any runs each limiting rule is there exactly as often as
      generated if the last run was under load and not at all otherwise, and the other rules stand as before. */
  lemma {:induction false} LastRunDecides<R>(chain: seq<R>, rules: seq<R>, loads: seq<bool>)
    requires NoExcess(chain, rules)
    ensures NoExcess(Runs(chain, rules, loads), rules)
    ensures Others(Runs(chain, rules, loads), rules) == Others(chain, rules)
    ensures loads != [] ==>
              forall r <- rules ::
                multiset(Runs(chain, rules, loads))[r] == if loads[|loads| - 1] then multiset(rules)[r] else 0
  {
    if loads != [] {
      var n := |loads| - 1;
      LastRunDecides(chain, rules, loads[..n]);
      RunKeepsNoExcess(Runs(chain, rules, loads[..n]), rules, loads[n]);
      RunKeepsOthers(Runs(chain, rules, loads[..n]), rules, loads[n]);
    }
  }

  /** The whole chain: the limiting rules of a loaded run in front of the untouched rest. */
  lemma ChainAfterRuns<R>(chain: seq<R>, rules: seq<R>, loads: seq<bool>)
    requires NoExcess(chain, rules) && loads != []
    ensures Runs(chain, rules, loads) == (if loads[|loads| - 1] then Reversed(rules) else []) + Others(chain, rules)
  {
    var n := |loads| - 1;
    LastRunDecides(chain, rules, loads[..n]);
    var before := Runs(chain, rules, loads[..n]);
    var rest := DeleteRules(before, rules);
    DeleteCounts(before, rules);
    forall r <- rest
      ensures r !in rules
    {
      assert r in multiset(rest);
      assert r in rules ==> multiset(rest)[r] == 0;
    }
    NoLimits(rest, rules);
    DeletesKeepOthers(before, rules, rules);
  }

  /** The tunnel-core script handles a single jump: it is there once or not at all, as the last run says. */
  lemma JumpOnceOrNever<R>(chain: seq<R>, jump: R, loads: seq<bool>)
    requires multiset(chain)[jump] <= 1 && loads != []
    ensures multiset(Runs(chain, [jump], loads))[jump] == if loads[|loads| - 1] then 1 else 0
  {
    LastRunDecides(chain, [jump], loads);
    assert jump in [jump];
  }

  /** Excess copies survive: with k too many before, k are left after any later run. */
  lemma ExcessSurvives<R>(chain: seq<R>, rules: seq<R>, loaded: bool, rule: R)
    requires rule in rules && multiset(chain)[rule] > multiset(rules)[rule]
    ensures multiset(Run(chain, rules, loaded))[rule] ==
            (if loaded then multiset(rules)[rule] else 0) + (multiset(chain)[rule] - multiset(rules)[rule])
  {
    RunCount(chain, rules, loaded);
  }
}
