/** A rule list that passes validation is one the walker's theorems apply to. */
module WalkValidated {
  import opened Basics
  import opened WalkModel
  import opened WalkSpec
  import opened WalkMachine
  import opened WalkTheorems
  import V = RuleValidation

  function Uniq(tags: seq<string>): (r: seq<string>)
    ensures forall tag :: tag in r <==> tag in tags
  {
    if tags == [] then []
    else
      var rest := Uniq(tags[..|tags| - 1]);
      var last := tags[|tags| - 1];
      assert forall tag :: tag in tags <==> tag in tags[..|tags| - 1] || tag == last;
      if last in rest then rest else rest + [last]
  }

  /** MatchResponseTags of the rule built from a tree. */
  function BoundTags(tree: V.RuleTree): seq<string>
    decreases tree, 1
  {
    match tree
    case DefaultTree(c, _) =>
      if c.matchResponse.MatchTag? && c.matchResponse.tag != "" then [c.matchResponse.tag] else []
    case LogicalTree(rules, _) => Uniq(AllBoundTags(rules))
    case UnknownTree => []
  }

  function AllBoundTags(rules: seq<V.RuleTree>): seq<string>
    decreases rules, 0
  {
    if rules == [] then [] else BoundTags(rules[0]) + AllBoundTags(rules[1..])
  }

  /** MatchResponseTag: only a default rule has one. */
  function RespondTag(tree: V.RuleTree): string {
    if tree.DefaultTree? && tree.conditions.matchResponse.MatchTag? then tree.conditions.matchResponse.tag else ""
  }

  /** validateDNSRuleAction, as far as race rules go. */
  predicate ValidAction(action: V.RuleAction) {
    action.race ==> !action.kind.EvaluateKind? && !action.kind.RouteOptionsKind? && !action.speculative
  }

  predicate SameAction(action: V.RuleAction, built: Action) {
    match built
    case SetOptions(_) => action.kind.RouteOptionsKind?
    case Evaluate(_, tag, speculative, _) =>
      action.kind.EvaluateKind? && action.tag == tag && action.speculative == speculative
    case Respond => action.kind.RespondKind?
    case Route(_, speculative, _) => action.kind.RouteKind? && action.speculative == speculative
    case Reject(_) => action.kind.RejectKind?
    case Predefined(_) => action.kind.PredefinedKind?
  }

  /** `rule` is what R.NewDNSRule builds from `tree`. */
  ghost predicate BuiltFrom(tree: V.RuleTree, rule: Rule) {
    && !tree.UnknownTree?
    && ValidAction(tree.action) && SameAction(tree.action, rule.action)
    && rule.race == tree.action.race
    && rule.tags == BoundTags(tree)
    && rule.respondTag == RespondTag(tree)
    && (tree.DefaultTree? ==> (rule.bindsAnonymous <==>
          tree.conditions.matchResponse != V.Unmatched && RespondTag(tree) == ""))
  }

  ghost predicate Built(trees: seq<V.RuleTree>, cfg: Config) {
    |trees| == |cfg.rules| && forall i :: 0 <= i < |trees| ==> BuiltFrom(trees[i], cfg.rules[i])
  }

  /** The tags a rule binds are the ones validation saw it reference. */
  lemma {:induction false} BoundAreReferenced(sets: V.RuleSets, tree: V.RuleTree)
    ensures V.TreeUse(sets, tree).Ok? ==>
              forall tag :: tag in BoundTags(tree) <==> tag in V.TreeUse(sets, tree).value.tags
    decreases tree, 1
  {
    if tree.LogicalTree? {
      AllBoundAreReferenced(sets, tree.rules);
    }
  }

  lemma {:induction false} AllBoundAreReferenced(sets: V.RuleSets, rules: seq<V.RuleTree>)
    ensures V.TreesUse(sets, rules).Ok? ==>
              forall tag :: tag in AllBoundTags(rules) <==> tag in V.TreesUse(sets, rules).value.tags
    decreases rules, 0
  {
    if rules != [] {
      BoundAreReferenced(sets, rules[0]);
      AllBoundAreReferenced(sets, rules[1..]);
    }
  }

  lemma NoElements(tags: seq<string>, others: seq<string>)
    requires forall tag :: tag in tags ==> tag in others
    ensures |tags| > 0 ==> |others| > 0
  {
    assert |tags| > 0 ==> tags[0] in others;
  }

  lemma BuiltRuleIsWellFormed(sets: V.RuleSets, tree: V.RuleTree, rule: Rule)
    requires V.TreeUse(sets, tree).Ok? && BuiltFrom(tree, rule)
    ensures WellFormedRule(rule)
  {
    BoundAreReferenced(sets, tree);
    V.TagsAreNonEmpty(sets, tree);
    assert forall tag :: tag in rule.tags <==> tag in V.TreeUse(sets, tree).value.tags;
    if tree.LogicalTree? && tree.action.kind.RespondKind? {
      assert V.TreeUse(sets, tree).value.tags == [];
      NoElements(rule.tags, V.TreeUse(sets, tree).value.tags);
    }
  }

  lemma DefinitionIsTree(trees: seq<V.RuleTree>, cfg: Config, i: nat, tag: string)
    requires Built(trees, cfg) && DefinesTag(cfg, i, tag)
    ensures i < |trees| && V.Defines(trees[i], tag) && tag != ""
  {
    assert BuiltFrom(trees[i], cfg.rules[i]);
  }

  /** Validation gives the walker what it needs: each evaluate tag is defined once, and before
      every rule that reads it. */
  lemma ValidatedIsWellFormed(sets: V.RuleSets, trees: seq<V.RuleTree>, cfg: Config)
    requires V.ValidRules(sets, trees) && Built(trees, cfg)
    ensures WellFormed(cfg) && RacesAreFinal(cfg)
  {
    forall j: nat | j < |cfg.rules| ensures WellFormedRule(cfg.rules[j]) {
      assert V.ValidAt(sets, trees, j) && BuiltFrom(trees[j], cfg.rules[j]);
      BuiltRuleIsWellFormed(sets, trees[j], cfg.rules[j]);
    }
    forall i: nat, j: nat, tag | DefinesTag(cfg, i, tag) && DefinesTag(cfg, j, tag) ensures i == j {
      DefinedOnce(sets, trees, cfg, i, j, tag);
    }
    forall i: nat, j: nat, tag | DefinesTag(cfg, i, tag) && j < |cfg.rules| && tag in cfg.rules[j].tags ensures i < j {
      DefinedBefore(sets, trees, cfg, i, j, tag);
    }
    forall i | 0 <= i < |cfg.rules| && cfg.rules[i].race
      ensures !cfg.rules[i].action.SetOptions? && !cfg.rules[i].action.Evaluate?
    {
      assert BuiltFrom(trees[i], cfg.rules[i]);
    }
  }

  lemma DefinedOnce(sets: V.RuleSets, trees: seq<V.RuleTree>, cfg: Config, i: nat, j: nat, tag: string)
    requires V.ValidRules(sets, trees) && Built(trees, cfg) && DefinesTag(cfg, i, tag) && DefinesTag(cfg, j, tag)
    ensures i == j
  {
    DefinitionIsTree(trees, cfg, i, tag);
    DefinitionIsTree(trees, cfg, j, tag);
    assert V.ValidAt(sets, trees, i) && V.ValidAt(sets, trees, j);
  }

  lemma DefinedBefore(sets: V.RuleSets, trees: seq<V.RuleTree>, cfg: Config, i: nat, j: nat, tag: string)
    requires V.ValidRules(sets, trees) && Built(trees, cfg) && DefinesTag(cfg, i, tag)
    requires j < |cfg.rules| && tag in cfg.rules[j].tags
    ensures i < j
  {
    assert V.ValidAt(sets, trees, j) && BuiltFrom(trees[j], cfg.rules[j]);
    BoundAreReferenced(sets, trees[j]);
    var k :| 0 <= k < j && V.Defines(trees[k], tag);
    DefinitionIsTree(trees, cfg, i, tag);
    assert V.ValidAt(sets, trees, i) && V.ValidAt(sets, trees, k);
  }

  /** From the configured trees to the answer: rules that pass validation, once built, give a sound
      result in every run of either driver, and without race rules the blocking walker's. */
  lemma ValidatedRunIsSound(sets: V.RuleSets, trees: seq<V.RuleTree>, cfg: Config, driver: Driver, o: QueryOptions,
                            run: seq<Machine>)
    requires V.ValidRules(sets, trees) && Built(trees, cfg)
    requires Run(cfg, driver, o, run) && Last(run).control.Finished?
    ensures Sound(cfg, o, Last(run).control.origin, Last(run).control.result)
    ensures (forall i :: 0 <= i < |trees| && !trees[i].UnknownTree? ==> !trees[i].action.race) ==>
              Last(run).control.result == Sequential(cfg, 0, Start(o))
  {
    ValidatedIsWellFormed(sets, trees, cfg);
    RunIsSound(cfg, driver, o, run);
    if forall i :: 0 <= i < |trees| && !trees[i].UnknownTree? ==> !trees[i].action.race {
      forall i: nat | i < |cfg.rules| ensures !cfg.rules[i].race {
        assert BuiltFrom(trees[i], cfg.rules[i]);
      }
      OrderedRunIsSequential(cfg, driver, o, run);
    }
  }
}
