/** Rule matching for one action and for many at once. Whether a rule matches a target, client and moment does not
 depend on the action, so it is a parameter. */
module AuthorizationMatcher {
  import opened AuthActions
  import opened Basics

  datatype Rule = Rule(id: int, name: string, permissions: Permissions)

  datatype Reason = NoRuleIds | LoadFailed | NoMatch | AllowedBy(name: string)

  datatype Result = Denied(reason: Reason) | Granted(rule: int, reason: Reason, permissions: Permissions)

  function GrantedBy(rule: Rule): Result {
    Granted(rule.id, AllowedBy(rule.name), rule.permissions)
  }

  // ---- Specification ----

  predicate Allows(matches: Rule -> bool, rule: Rule, action: AuthAction) {
    matches(rule) && rule.permissions.Has(action)
  }

  /** The result is that of the first rule that matches and has the permission. */
  ghost predicate FirstAllowing(rules: seq<Rule>, matches: Rule -> bool, action: AuthAction, result: Result) {
    || (result == Denied(NoMatch) && forall i :: 0 <= i < |rules| ==> !Allows(matches, rules[i], action))
    || (exists i :: 0 <= i < |rules| && result == GrantedBy(rules[i]) && Allows(matches, rules[i], action)
         && forall j :: 0 <= j < i ==> !Allows(matches, rules[j], action))
  }

  /** What matching one action yields: the loaded rules are absent when loading them failed. */
  ghost predicate Matched(ruleIds: seq<int>, loaded: Option<seq<Rule>>, matches: Rule -> bool, action: AuthAction, result: Result) {
    if ruleIds == [] then result == Denied(NoRuleIds)
    else if loaded.None? then result == Denied(LoadFailed)
    else FirstAllowing(loaded.value, matches, action, result)
  }

  lemma FirstIsUnique(rules: seq<Rule>, matches: Rule -> bool, action: AuthAction, a: Result, b: Result)
    requires FirstAllowing(rules, matches, action, a) && FirstAllowing(rules, matches, action, b)
    ensures a == b
  {
    if a != Denied(NoMatch) && b != Denied(NoMatch) {
      var i :| 0 <= i < |rules| && a == GrantedBy(rules[i]) && Allows(matches, rules[i], action)
        && forall j :: 0 <= j < i ==> !Allows(matches, rules[j], action);
      var k :| 0 <= k < |rules| && b == GrantedBy(rules[k]) && Allows(matches, rules[k], action)
        && forall j :: 0 <= j < k ==> !Allows(matches, rules[j], action);
      assert i == k;
    }
  }

  // ---- One action ----

  /** MatchWithScope */
  method MatchWithScope(ruleIds: seq<int>, loaded: Option<seq<Rule>>, matches: Rule -> bool, action: AuthAction)
    returns (result: Result, failed: bool)
    ensures Matched(ruleIds, loaded, matches, action, result)
    ensures failed <==> ruleIds != [] && loaded.None?
  {
    if |ruleIds| == 0 { return Denied(NoRuleIds), false; }
    if loaded.None? { return Denied(LoadFailed), true; }
    var rules := loaded.value;
    for i := 0 to |rules|
      invariant forall j :: 0 <= j < i ==> !Allows(matches, rules[j], action)
    {
      if matches(rules[i]) {
        if rules[i].permissions.Has(action) {
          return GrantedBy(rules[i]), false;
        }
      }
    }
    return Denied(NoMatch), false;
  }

  // ---- Many actions in one pass ----

  /** What is known of an action after the first n rules. */
  ghost predicate SoFar(rules: seq<Rule>, n: nat, matches: Rule -> bool, action: AuthAction, result: Result)
    requires n <= |rules|
  {
    FirstAllowing(rules[..n], matches, action, result)
  }

  lemma OneRuleMore(rules: seq<Rule>, n: nat, matches: Rule -> bool, action: AuthAction, result: Result)
    requires n < |rules| && SoFar(rules, n, matches, action, result)
    ensures SoFar(rules, n + 1, matches, action,
              if result.Denied? && Allows(matches, rules[n], action) then GrantedBy(rules[n]) else result)
  {
    var front, more := rules[..n], rules[..n + 1];
    assert more == front + [rules[n]];
    if result.Denied? {
      if Allows(matches, rules[n], action) {
        assert more[n] == rules[n];
      }
    } else {
      var i :| 0 <= i < |front| && result == GrantedBy(front[i]) && Allows(matches, front[i], action)
        && forall j :: 0 <= j < i ==> !Allows(matches, front[j], action);
      assert more[i] == front[i] && forall j :: 0 <= j < i ==> more[j] == front[j];
    }
  }

  /** Once an action is allowed, further rules change nothing. */
  lemma {:induction false} AllowedIsFinal(rules: seq<Rule>, n: nat, matches: Rule -> bool, action: AuthAction, result: Result)
    requires n <= |rules| && SoFar(rules, n, matches, action, result) && result.Granted?
    ensures FirstAllowing(rules, matches, action, result)
    decreases |rules| - n
  {
    if n < |rules| {
      OneRuleMore(rules, n, matches, action, result);
      AllowedIsFinal(rules, n + 1, matches, action, result);
    } else {
      assert rules[..n] == rules;
    }
  }

  /** MatchBatchWithScope: one pass over the rules with an early exit, and for every action exactly the outcome that
   matching it alone has. */
  method MatchBatchWithScope(ruleIds: seq<int>, loaded: Option<seq<Rule>>, matches: Rule -> bool, actions: seq<AuthAction>)
    returns (results: map<AuthAction, Result>, failed: bool)
    ensures forall a :: a in results <==> a in actions
    ensures forall a :: a in actions ==> Matched(ruleIds, loaded, matches, a, results[a])
    ensures failed <==> ruleIds != [] && loaded.None?
  {
    results := SetAll(actions, Denied(NoMatch));
    if |ruleIds| == 0 {
      results := SetAll(actions, Denied(NoRuleIds));
      return results, false;
    }
    if loaded.None? {
      results := SetAll(actions, Denied(LoadFailed));
      return results, true;
    }
    var rules := loaded.value;
    var i := 0;
    while i < |rules|
      invariant 0 <= i <= |rules|
      invariant forall a :: a in results <==> a in actions
      invariant forall a :: a in actions ==> SoFar(rules, i, matches, a, results[a])
    {
      ghost var before := results;
      if matches(rules[i]) {
        results := ApplyRule(rules[i], actions, results);
        var allAllowed := AllAllowed(actions, results);
        forall a | a in actions
          ensures SoFar(rules, i + 1, matches, a, results[a])
        {
          OneRuleMore(rules, i, matches, a, before[a]);
        }
        if allAllowed {
          forall a | a in actions
            ensures FirstAllowing(rules, matches, a, results[a])
          {
            AllowedIsFinal(rules, i + 1, matches, a, results[a]);
          }
          return results, false;
        }
      } else {
        forall a | a in actions
          ensures SoFar(rules, i + 1, matches, a, results[a])
        {
          OneRuleMore(rules, i, matches, a, before[a]);
        }
      }
      i := i + 1;
    }
    assert rules[..i] == rules;
    failed := false;
  }

  method SetAll(actions: seq<AuthAction>, result: Result) returns (results: map<AuthAction, Result>)
    ensures forall a :: a in results <==> a in actions
    ensures forall a :: a in results ==> results[a] == result
  {
    results := map[];
    for k := 0 to |actions|
      invariant forall a :: a in results <==> a in actions[..k]
      invariant forall a :: a in results ==> results[a] == result
    {
      assert actions[..k + 1] == actions[..k] + [actions[k]];
      results := results[actions[k] := result];
    }
    assert actions[..|actions|] == actions;
  }

  /** The inner loop: every action still denied that this matching rule permits. */
  method ApplyRule(rule: Rule, actions: seq<AuthAction>, before: map<AuthAction, Result>) returns (results: map<AuthAction, Result>)
    requires forall a :: a in before <==> a in actions
    ensures results.Keys == before.Keys
    ensures forall a :: a in results ==>
      results[a] == if before[a].Denied? && rule.permissions.Has(a) then GrantedBy(rule) else before[a]
  {
    results := before;
    for k := 0 to |actions|
      invariant results.Keys == before.Keys
      invariant forall a :: a in results ==>
        results[a] == if a in actions[..k] && before[a].Denied? && rule.permissions.Has(a) then GrantedBy(rule) else before[a]
    {
      assert actions[..k + 1] == actions[..k] + [actions[k]];
      if rule.permissions.Has(actions[k]) && results[actions[k]].Denied? {
        results := results[actions[k] := GrantedBy(rule)];
      }
    }
    assert actions[..|actions|] == actions;
  }

  method AllAllowed(actions: seq<AuthAction>, results: map<AuthAction, Result>) returns (all: bool)
    requires forall a :: a in actions ==> a in results
    ensures all <==> forall a :: a in actions ==> results[a].Granted?
  {
    for k := 0 to |actions|
      invariant forall a :: a in actions[..k] ==> results[a].Granted?
    {
      if results[actions[k]].Denied? { return false; }
    }
    assert actions[..|actions|] == actions;
    all := true;
  }

  /** The pass for many actions and the match for one agree on every action, in outcome, winning rule and reason. */
  method BatchAgrees(ruleIds: seq<int>, loaded: Option<seq<Rule>>, matches: Rule -> bool, actions: seq<AuthAction>, action: AuthAction)
    returns (single: Result, results: map<AuthAction, Result>)
    requires action in actions
    ensures action in results && results[action] == single
  {
    var failed;
    single, failed := MatchWithScope(ruleIds, loaded, matches, action);
    results, failed := MatchBatchWithScope(ruleIds, loaded, matches, actions);
    if ruleIds != [] && loaded.Some? {
      FirstIsUnique(loaded.value, matches, action, single, results[action]);
    }
  }
}
