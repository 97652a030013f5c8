/** Rule trees as configured: whether they need the legacy mode, and whether the rule walker
    may interpret them. */
module RuleValidation {
  import opened Basics

  datatype Metadata = Metadata(containsIPCIDR: bool, containsNonIPCIDR: bool, containsQueryType: bool)

  datatype MatchResponse = Unmatched | MatchAnonymous | MatchTag(tag: string)

  /** The conditions of a default rule that the mode and the validation look at. */
  datatype Conditions = Conditions(
    matchResponse: MatchResponse,
    responseFields: bool,
    ipFilter: bool,
    ipVersion: bool,
    queryType: bool,
    ruleSets: seq<string>,
    ipcidrAcceptEmpty: bool,
    ipcidrMatchSource: bool)

  datatype Kind = RouteKind | EvaluateKind | RouteOptionsKind | RespondKind | RejectKind | PredefinedKind

  datatype RuleAction = RuleAction(
    kind: Kind,
    race: bool,
    strategy: Strategy,
    disableOptimisticCache: bool,
    speculative: bool,
    tag: string)

  datatype RuleTree =
    | DefaultTree(conditions: Conditions, action: RuleAction)
    | LogicalTree(rules: seq<RuleTree>, action: RuleAction)
    | UnknownTree

  datatype Error =
    | RuleSetNotFound(tag: string)
    | StrategyConflict
    | ResponseFieldsWithoutMatch
    | PureAddressRuleSet
    | AcceptEmpty
    | LogicalRespondBindsTag
    | NoAnonymousEvaluate(rule: nat)
    | UndefinedTag(rule: nat, tag: string)
    | DuplicateTag(rule: nat, tag: string)
    | ModeChanged

  datatype Result<+T> = Ok(value: T) | Fail(error: Error)

  type RuleSets = map<string, Metadata>

  // ---- the mode ----

  datatype Flags = Flags(disabled: bool, needed: bool, strategy: bool)

  function Merge(a: Flags, b: Flags): Flags {
    Flags(a.disabled || b.disabled, a.needed || b.needed, a.strategy || b.strategy)
  }

  predicate ActionHasStrategy(action: RuleAction) {
    (action.kind.RouteKind? || action.kind.EvaluateKind? || action.kind.RouteOptionsKind?) && action.strategy != AsIs
  }

  predicate ActionDisables(action: RuleAction) {
    || action.race
    || ((action.kind.RouteKind? || action.kind.EvaluateKind?) && (action.disableOptimisticCache || action.speculative))
    || (action.kind.RouteOptionsKind? && action.disableOptimisticCache)
  }

  predicate ConditionsDisable(c: Conditions, action: RuleAction) {
    || c.matchResponse != Unmatched || c.responseFields || action.kind.EvaluateKind? || action.kind.RespondKind?
    || c.ipVersion || c.queryType
  }

  predicate ConditionsNeed(c: Conditions) {
    c.ipcidrAcceptEmpty || (c.matchResponse == Unmatched && c.ipFilter)
  }

  function RuleSetFlags(sets: RuleSets, c: Conditions, tags: seq<string>): Result<Flags> {
    if tags == [] then Ok(Flags(false, false, false))
    else if tags[0] !in sets then Fail(RuleSetNotFound(tags[0]))
    else
      var rest := RuleSetFlags(sets, c, tags[1..]);
      if rest.Fail? then rest
      else
        var set0 := sets[tags[0]];
        Ok(Merge(Flags(set0.containsQueryType, !c.ipcidrMatchSource && set0.containsIPCIDR, false), rest.value))
  }

  function Requirements(sets: RuleSets, tree: RuleTree): Result<Flags>
    decreases tree, 1
  {
    match tree
    case DefaultTree(c, action) =>
      var fromSets := RuleSetFlags(sets, c, c.ruleSets);
      if fromSets.Fail? then fromSets
      else
        Ok(Merge(Flags(ConditionsDisable(c, action) || ActionDisables(action),
                       ConditionsNeed(c) || ActionHasStrategy(action),
                       ActionHasStrategy(action)), fromSets.value))
    case LogicalTree(rules, action) =>
      var fromRules := RequirementsOf(sets, rules);
      if fromRules.Fail? then fromRules
      else
        Ok(Merge(Flags(action.kind.EvaluateKind? || action.kind.RespondKind? || ActionDisables(action),
                       ActionHasStrategy(action), ActionHasStrategy(action)), fromRules.value))
    case UnknownTree => Ok(Flags(false, false, false))
  }

  function RequirementsOf(sets: RuleSets, rules: seq<RuleTree>): Result<Flags>
    decreases rules, 0
  {
    if rules == [] then Ok(Flags(false, false, false))
    else
      var first := Requirements(sets, rules[0]);
      if first.Fail? then first
      else
        var rest := RequirementsOf(sets, rules[1..]);
        if rest.Fail? then rest else Ok(Merge(first.value, rest.value))
  }

  datatype Mode = Mode(legacy: bool, flags: Flags)

  /** resolveLegacyDNSMode */
  function ResolveMode(sets: RuleSets, rules: seq<RuleTree>): Result<Mode> {
    var flags := RequirementsOf(sets, rules);
    if flags.Fail? then Fail(flags.error)
    else if flags.value.disabled && flags.value.strategy then Fail(StrategyConflict)
    else Ok(Mode(!flags.value.disabled && flags.value.needed, flags.value))
  }

  /** Some node of the tree, at any depth, satisfies `p`. */
  ghost predicate Anywhere(tree: RuleTree, p: RuleTree -> bool) {
    p(tree) || (tree.LogicalTree? && exists i :: 0 <= i < |tree.rules| && Anywhere(tree.rules[i], p))
  }

  ghost predicate AnywhereIn(rules: seq<RuleTree>, p: RuleTree -> bool) {
    exists i :: 0 <= i < |rules| && Anywhere(rules[i], p)
  }

  predicate CarriesStrategy(tree: RuleTree) {
    !tree.UnknownTree? && ActionHasStrategy(tree.action)
  }

  predicate KnownSets(sets: RuleSets, tags: seq<string>) {
    forall i :: 0 <= i < |tags| ==> tags[i] in sets
  }

  predicate QueryTypeSet(sets: RuleSets, tags: seq<string>) {
    exists i :: 0 <= i < |tags| && tags[i] in sets && sets[tags[i]].containsQueryType
  }

  predicate AddressSet(sets: RuleSets, tags: seq<string>) {
    exists i :: 0 <= i < |tags| && tags[i] in sets && sets[tags[i]].containsIPCIDR
  }

  /** A node that names a rule-set nobody knows. */
  predicate NamesUnknownSet(sets: RuleSets, tree: RuleTree) {
    tree.DefaultTree? && !KnownSets(sets, tree.conditions.ruleSets)
  }

  /** A node that asks for the legacy mode. */
  predicate Needing(sets: RuleSets, tree: RuleTree) {
    match tree
    case DefaultTree(c, action) =>
      ConditionsNeed(c) || ActionHasStrategy(action) || (!c.ipcidrMatchSource && AddressSet(sets, c.ruleSets))
    case LogicalTree(_, action) => ActionHasStrategy(action)
    case UnknownTree => false
  }

  /** A node that no legacy router may hold. */
  predicate Disabling(sets: RuleSets, tree: RuleTree) {
    match tree
    case DefaultTree(c, action) =>
      ConditionsDisable(c, action) || ActionDisables(action) || QueryTypeSet(sets, c.ruleSets)
    case LogicalTree(_, action) => action.kind.EvaluateKind? || action.kind.RespondKind? || ActionDisables(action)
    case UnknownTree => false
  }

  lemma {:induction false} AnywhereSplits(rules: seq<RuleTree>, p: RuleTree -> bool)
    requires rules != []
    ensures AnywhereIn(rules, p) <==> Anywhere(rules[0], p) || AnywhereIn(rules[1..], p)
  {
    if AnywhereIn(rules, p) {
      var i :| 0 <= i < |rules| && Anywhere(rules[i], p);
      if i > 0 {
        assert Anywhere(rules[1..][i - 1], p);
      }
    }
    if AnywhereIn(rules[1..], p) {
      var i :| 0 <= i < |rules[1..]| && Anywhere(rules[1..][i], p);
      assert Anywhere(rules[i + 1], p);
    }
  }

  lemma QueryTypeSetSplits(sets: RuleSets, tags: seq<string>)
    requires tags != [] && tags[0] in sets
    ensures QueryTypeSet(sets, tags) <==> sets[tags[0]].containsQueryType || QueryTypeSet(sets, tags[1..])
  {
    assert forall i :: 0 <= i < |tags[1..]| ==> tags[1..][i] == tags[i + 1];
    if i :| 0 <= i < |tags| && tags[i] in sets && sets[tags[i]].containsQueryType && i > 0 {
      assert tags[1..][i - 1] == tags[i];
    }
  }

  lemma AddressSetSplits(sets: RuleSets, tags: seq<string>)
    requires tags != [] && tags[0] in sets
    ensures AddressSet(sets, tags) <==> sets[tags[0]].containsIPCIDR || AddressSet(sets, tags[1..])
  {
    assert forall i :: 0 <= i < |tags[1..]| ==> tags[1..][i] == tags[i + 1];
    if i :| 0 <= i < |tags| && tags[i] in sets && sets[tags[i]].containsIPCIDR && i > 0 {
      assert tags[1..][i - 1] == tags[i];
    }
  }

  lemma KnownSetsSplit(sets: RuleSets, tags: seq<string>)
    requires tags != []
    ensures KnownSets(sets, tags) <==> tags[0] in sets && KnownSets(sets, tags[1..])
  {
    assert forall i :: 0 <= i < |tags[1..]| ==> tags[1..][i] == tags[i + 1];
    assert forall i :: 0 < i < |tags| ==> tags[i] == tags[1..][i - 1];
  }

  lemma {:induction false} RuleSetsMean(sets: RuleSets, c: Conditions, tags: seq<string>)
    ensures RuleSetFlags(sets, c, tags).Ok? <==> KnownSets(sets, tags)
    ensures RuleSetFlags(sets, c, tags).Ok? ==>
              RuleSetFlags(sets, c, tags).value ==
              Flags(QueryTypeSet(sets, tags), !c.ipcidrMatchSource && AddressSet(sets, tags), false)
  {
    if tags != [] {
      RuleSetsMean(sets, c, tags[1..]);
      KnownSetsSplit(sets, tags);
      if tags[0] in sets {
        QueryTypeSetSplits(sets, tags);
        AddressSetSplits(sets, tags);
      }
    }
  }

  /** The flags say exactly what the nodes at every depth say, and there are flags exactly when
      every rule-set named at any depth is known. */
  lemma {:induction false} FlagsMean(sets: RuleSets, tree: RuleTree)
    ensures Requirements(sets, tree).Ok? <==> !Anywhere(tree, t => NamesUnknownSet(sets, t))
    ensures Requirements(sets, tree).Ok? ==>
              var flags := Requirements(sets, tree).value;
              && (flags.strategy <==> Anywhere(tree, CarriesStrategy))
              && (flags.disabled <==> Anywhere(tree, t => Disabling(sets, t)))
              && (flags.needed <==> Anywhere(tree, t => Needing(sets, t)))
    decreases tree, 1
  {
    match tree
    case DefaultTree(c, _) => RuleSetsMean(sets, c, c.ruleSets);
    case LogicalTree(rules, _) =>
      FlagsMeanIn(sets, rules);
      assert AnywhereIn(rules, CarriesStrategy) <==>
        exists i :: 0 <= i < |rules| && Anywhere(rules[i], CarriesStrategy);
    case UnknownTree =>
  }

  lemma {:induction false} FlagsMeanIn(sets: RuleSets, rules: seq<RuleTree>)
    ensures RequirementsOf(sets, rules).Ok? <==> !AnywhereIn(rules, t => NamesUnknownSet(sets, t))
    ensures RequirementsOf(sets, rules).Ok? ==>
              var flags := RequirementsOf(sets, rules).value;
              && (flags.strategy <==> AnywhereIn(rules, CarriesStrategy))
              && (flags.disabled <==> AnywhereIn(rules, t => Disabling(sets, t)))
              && (flags.needed <==> AnywhereIn(rules, t => Needing(sets, t)))
    decreases rules, 0
  {
    if rules != [] {
      FlagsMean(sets, rules[0]);
      FlagsMeanIn(sets, rules[1..]);
      AnywhereSplits(rules, t => NamesUnknownSet(sets, t));
      AnywhereSplits(rules, CarriesStrategy);
      AnywhereSplits(rules, t => Disabling(sets, t));
      AnywhereSplits(rules, t => Needing(sets, t));
    }
  }

  /** The mode in terms of the nodes at any depth: it can be resolved exactly when every rule-set
      is known and no strategy stands beside a disabling node, and it is the legacy mode exactly
      when no node is disabling and some node needs it. */
  lemma ModeExactly(sets: RuleSets, rules: seq<RuleTree>)
    ensures ResolveMode(sets, rules).Ok? <==>
            && !AnywhereIn(rules, t => NamesUnknownSet(sets, t))
            && !(AnywhereIn(rules, t => Disabling(sets, t)) && AnywhereIn(rules, CarriesStrategy))
    ensures ResolveMode(sets, rules).Ok? ==>
              (ResolveMode(sets, rules).value.legacy <==>
               !AnywhereIn(rules, t => Disabling(sets, t)) && AnywhereIn(rules, t => Needing(sets, t)))
  {
    FlagsMeanIn(sets, rules);
  }

  lemma StrategyNeeds(sets: RuleSets, rules: seq<RuleTree>)
    requires AnywhereIn(rules, CarriesStrategy)
    ensures AnywhereIn(rules, t => Needing(sets, t))
  {
    var i :| 0 <= i < |rules| && Anywhere(rules[i], CarriesStrategy);
    StrategyNeedsIn(sets, rules[i]);
  }

  lemma {:induction false} StrategyNeedsIn(sets: RuleSets, tree: RuleTree)
    requires Anywhere(tree, CarriesStrategy)
    ensures Anywhere(tree, t => Needing(sets, t))
  {
    if !CarriesStrategy(tree) {
      var i :| 0 <= i < |tree.rules| && Anywhere(tree.rules[i], CarriesStrategy);
      StrategyNeedsIn(sets, tree.rules[i]);
    }
  }

  /** Outside the legacy mode no rule at any depth carries a strategy, so ignoring strategies loses nothing. */
  lemma NonLegacyHasNoStrategy(sets: RuleSets, rules: seq<RuleTree>)
    requires ResolveMode(sets, rules).Ok? && !ResolveMode(sets, rules).value.legacy
    ensures !AnywhereIn(rules, CarriesStrategy)
  {
    ModeExactly(sets, rules);
    if AnywhereIn(rules, CarriesStrategy) {
      StrategyNeeds(sets, rules);
    }
  }

  /** In the legacy mode no rule at any depth is a disabling one. */
  lemma LegacyHasNoDisabling(sets: RuleSets, rules: seq<RuleTree>)
    requires ResolveMode(sets, rules).Ok? && ResolveMode(sets, rules).value.legacy
    ensures !AnywhereIn(rules, t => Disabling(sets, t))
  {
    FlagsMeanIn(sets, rules);
  }

  // ---- validation for the rule walker ----

  datatype Use = Use(needsAnonymous: bool, tags: seq<string>)

  predicate PureAddressSet(sets: RuleSets, tags: seq<string>) {
    exists i :: 0 <= i < |tags| && tags[i] in sets && sets[tags[i]].containsIPCIDR && !sets[tags[i]].containsNonIPCIDR
  }

  /** The first rule-set of the list that is unknown or holds addresses only. */
  function CheckRuleSets(sets: RuleSets, tags: seq<string>): Option<Error> {
    if tags == [] then None
    else if tags[0] !in sets then Some(RuleSetNotFound(tags[0]))
    else if sets[tags[0]].containsIPCIDR && !sets[tags[0]].containsNonIPCIDR then Some(PureAddressRuleSet)
    else CheckRuleSets(sets, tags[1..])
  }

  /** Rule-sets are refused exactly when one is unknown or all of what it matches are addresses. */
  lemma {:induction false} CheckRuleSetsMeans(sets: RuleSets, tags: seq<string>)
    ensures CheckRuleSets(sets, tags).None? <==> KnownSets(sets, tags) && !PureAddressSet(sets, tags)
  {
    if tags != [] {
      CheckRuleSetsMeans(sets, tags[1..]);
      KnownSetsSplit(sets, tags);
      assert forall i :: 0 <= i < |tags[1..]| ==> tags[1..][i] == tags[i + 1];
      if i :| 0 <= i < |tags| && tags[i] in sets && sets[tags[i]].containsIPCIDR &&
              !sets[tags[i]].containsNonIPCIDR && i > 0 {
        assert tags[1..][i - 1] == tags[i];
      }
    }
  }

  /** A set that holds addresses only is refused, whatever stands beside it: not every set named
      has to be of that kind. */
  lemma PureSetIsRefusedBesideMixed(sets: RuleSets, mixed: string, pure: string)
    requires mixed in sets && sets[mixed].containsNonIPCIDR
    requires pure in sets && sets[pure].containsIPCIDR && !sets[pure].containsNonIPCIDR
    ensures CheckRuleSets(sets, [mixed, pure]) == Some(PureAddressRuleSet)
    ensures !PureAddressSet(sets, [mixed])
  {
    assert [mixed, pure][1..] == [pure];
  }

  /** validateLegacyDNSModeDisabledRuleTree: what a rule tree reads, or why it is refused. */
  function TreeUse(sets: RuleSets, tree: RuleTree): Result<Use>
    decreases tree, 1
  {
    match tree
    case DefaultTree(c, action) =>
      if (c.responseFields || c.ipFilter) && c.matchResponse == Unmatched then Fail(ResponseFieldsWithoutMatch)
      else
        var setError := if c.matchResponse == Unmatched then CheckRuleSets(sets, c.ruleSets) else None;
        if setError.Some? then Fail(setError.value)
        else if c.ipcidrAcceptEmpty then Fail(AcceptEmpty)
        else
          var tagged := c.matchResponse.MatchTag? && c.matchResponse.tag != "";
          Ok(Use((c.matchResponse != Unmatched && !tagged) || (action.kind.RespondKind? && !tagged),
                 if tagged then [c.matchResponse.tag] else []))
    case LogicalTree(rules, action) =>
      var use := TreesUse(sets, rules);
      if use.Fail? then use
      else if !action.kind.RespondKind? then use
      else if use.value.tags != [] then Fail(LogicalRespondBindsTag)
      else Ok(Use(true, []))
    case UnknownTree => Ok(Use(false, []))
  }

  function TreesUse(sets: RuleSets, rules: seq<RuleTree>): Result<Use>
    decreases rules, 0
  {
    if rules == [] then Ok(Use(false, []))
    else
      var first := TreeUse(sets, rules[0]);
      if first.Fail? then first
      else
        var rest := TreesUse(sets, rules[1..]);
        if rest.Fail? then rest
        else Ok(Use(first.value.needsAnonymous || rest.value.needsAnonymous, first.value.tags + rest.value.tags))
  }

  predicate IsEvaluate(tree: RuleTree) {
    !tree.UnknownTree? && tree.action.kind.EvaluateKind?
  }

  predicate Defines(tree: RuleTree, tag: string) {
    IsEvaluate(tree) && tree.action.tag == tag
  }

  /** What makes a rule list fit for the walker: each tree is acceptable by itself, reads only
      responses evaluated before it, and defines a tag nobody before it defined. */
  ghost predicate ValidAt(sets: RuleSets, rules: seq<RuleTree>, i: nat)
    requires i < |rules|
  {
    && TreeUse(sets, rules[i]).Ok?
    && (TreeUse(sets, rules[i]).value.needsAnonymous ==> exists j :: 0 <= j < i && Defines(rules[j], ""))
    && (forall tag :: tag in TreeUse(sets, rules[i]).value.tags ==> exists j :: 0 <= j < i && Defines(rules[j], tag))
    && (forall j :: 0 <= j < i && IsEvaluate(rules[i]) && rules[i].action.tag != "" ==>
          !Defines(rules[j], rules[i].action.tag))
  }

  ghost predicate ValidRules(sets: RuleSets, rules: seq<RuleTree>) {
    forall i :: 0 <= i < |rules| ==> ValidAt(sets, rules, i)
  }

  method FindUndefined(tags: seq<string>, defined: set<string>) returns (r: Option<string>)
    ensures r.None? <==> forall tag :: tag in tags ==> tag in defined
    ensures r.Some? ==> r.value in tags && r.value !in defined
  {
    var i := 0;
    while i < |tags|
      invariant i <= |tags| && forall k :: 0 <= k < i ==> tags[k] in defined
    {
      if tags[i] !in defined {
        return Some(tags[i]);
      }
      i := i + 1;
    }
    r := None;
  }

  /** validateLegacyDNSModeDisabledRules, without its warnings. */
  method ValidateRules(sets: RuleSets, rules: seq<RuleTree>) returns (error: Option<Error>)
    ensures error.None? <==> ValidRules(sets, rules)
  {
    var seenAnonymous := false;
    var defined: set<string> := {};
    var i := 0;
    while i < |rules|
      invariant i <= |rules|
      invariant forall k :: 0 <= k < i ==> ValidAt(sets, rules, k)
      invariant seenAnonymous <==> exists j :: 0 <= j < i && Defines(rules[j], "")
      invariant forall tag :: tag in defined <==> tag != "" && exists j :: 0 <= j < i && Defines(rules[j], tag)
    {
      var use := TreeUse(sets, rules[i]);
      if use.Fail? {
        assert !ValidAt(sets, rules, i);
        return Some(use.error);
      }
      if use.value.needsAnonymous && !seenAnonymous {
        assert !ValidAt(sets, rules, i);
        return Some(NoAnonymousEvaluate(i));
      }
      TagsAreNonEmpty(sets, rules[i]);
      var undefined := FindUndefined(use.value.tags, defined);
      if undefined.Some? {
        assert !ValidAt(sets, rules, i);
        return Some(UndefinedTag(i, undefined.value));
      }
      if IsEvaluate(rules[i]) {
        var tag := rules[i].action.tag;
        if tag == "" {
          seenAnonymous := true;
        } else if tag in defined {
          assert !ValidAt(sets, rules, i);
          return Some(DuplicateTag(i, tag));
        } else {
          defined := defined + {tag};
        }
        assert Defines(rules[i], tag);
      }
      assert ValidAt(sets, rules, i);
      i := i + 1;
    }
    error := None;
  }

  lemma {:induction false} TagsAreNonEmpty(sets: RuleSets, tree: RuleTree)
    ensures TreeUse(sets, tree).Ok? ==> "" !in TreeUse(sets, tree).value.tags
    decreases tree, 1
  {
    if tree.LogicalTree? {
      AllTagsAreNonEmpty(sets, tree.rules);
    }
  }

  lemma {:induction false} AllTagsAreNonEmpty(sets: RuleSets, rules: seq<RuleTree>)
    ensures TreesUse(sets, rules).Ok? ==> "" !in TreesUse(sets, rules).value.tags
    decreases rules, 0
  {
    if rules != [] {
      TagsAreNonEmpty(sets, rules[0]);
      AllTagsAreNonEmpty(sets, rules[1..]);
    }
  }

  // ---- rule-set updates on a running router ----

  /** A rule-set's new metadata shadows the one on file. */
  function Updated(sets: RuleSets, tag: string, metadata: Metadata): RuleSets {
    sets[tag := metadata]
  }

  /** What a started, open router accepts. */
  ghost predicate AcceptsUpdate(rules: seq<RuleTree>, legacy: bool, sets: RuleSets, tag: string, metadata: Metadata) {
    var mode := ResolveMode(Updated(sets, tag, metadata), rules);
    || rules == []
    || (mode.Ok? && if legacy then mode.value.legacy || !mode.value.flags.disabled
                    else !mode.value.legacy && ValidRules(Updated(sets, tag, metadata), rules))
  }

  /** The rules a router can start with: the mode can be resolved, and outside the legacy mode they are valid. */
  ghost predicate CanStart(rules: seq<RuleTree>, sets: RuleSets) {
    ResolveMode(sets, rules).Ok? && (ResolveMode(sets, rules).value.legacy || ValidRules(sets, rules))
  }

  class Router {
    const rawRules: seq<RuleTree>
    var started: bool
    var closing: bool
    var legacy: bool

    constructor (rules: seq<RuleTree>)
      ensures rawRules == rules && !started && !closing
    {
      rawRules := rules;
      started, closing, legacy := false, false, false;
    }

    /** The rule part of Router.Start: resolve the mode, validate, take over. */
    method Start(sets: RuleSets) returns (error: Option<Error>)
      requires !started
      modifies this
      ensures error.None? <==> CanStart(rawRules, sets)
      ensures error.None? && !closing ==>
                started && ModeFits(rawRules, legacy, sets) && legacy == ResolveMode(sets, rawRules).value.legacy
      ensures error.Some? || closing ==> !started
      ensures closing == old(closing)
    {
      var mode := ResolveMode(sets, rawRules);
      if mode.Fail? {
        return Some(mode.error);
      }
      if !mode.value.legacy {
        error := ValidateRules(sets, rawRules);
        if error.Some? {
          return;
        }
      }
      error := None;
      if closing {
        return;
      }
      FlagsMeanIn(sets, rawRules);
      legacy := mode.value.legacy;
      started := true;
    }

    method ValidateRuleSetMetadataUpdate(sets: RuleSets, tag: string, metadata: Metadata) returns (error: Option<Error>)
      ensures rawRules == [] || closing ==> error.None?
      ensures started && !closing ==> (error.None? <==> AcceptsUpdate(rawRules, legacy, sets, tag, metadata))
      ensures !started && !closing && rawRules != [] ==>
                var mode := ResolveMode(Updated(sets, tag, metadata), rawRules);
                (error.None? <==> mode.Ok? && (mode.value.legacy || ValidRules(Updated(sets, tag, metadata), rawRules)))
    {
      if rawRules == [] || closing {
        return None;
      }
      var overridden := Updated(sets, tag, metadata);
      var mode := ResolveMode(overridden, rawRules);
      if mode.Fail? {
        return Some(mode.error);
      }
      if !started {
        if !mode.value.legacy {
          error := ValidateRules(overridden, rawRules);
          return;
        }
        return None;
      }
      if legacy {
        if !mode.value.legacy && mode.value.flags.disabled {
          error := ValidateRules(overridden, rawRules);
          if error.None? {
            error := Some(ModeChanged);
          }
          return;
        }
        return None;
      }
      if mode.value.legacy {
        return Some(ModeChanged);
      }
      error := ValidateRules(overridden, rawRules);
    }
  }

  /** The rules still fit the mode the router runs in. */
  ghost predicate ModeFits(rules: seq<RuleTree>, legacy: bool, sets: RuleSets) {
    if legacy then !AnywhereIn(rules, t => Disabling(sets, t))
    else ResolveMode(sets, rules).Ok? && !ResolveMode(sets, rules).value.legacy && ValidRules(sets, rules)
  }

  function Apply(sets: RuleSets, updates: seq<(string, Metadata)>): RuleSets {
    if updates == [] then sets
    else Updated(Apply(sets, updates[..|updates| - 1]), updates[|updates| - 1].0, updates[|updates| - 1].1)
  }

  /** Every update was accepted when it came. */
  ghost predicate AllAccepted(rules: seq<RuleTree>, legacy: bool, sets: RuleSets, updates: seq<(string, Metadata)>) {
    forall i :: 0 <= i < |updates| ==>
      AcceptsUpdate(rules, legacy, Apply(sets, updates[..i]), updates[i].0, updates[i].1)
  }

  lemma AcceptedKeepsMode(rules: seq<RuleTree>, legacy: bool, sets: RuleSets, tag: string, metadata: Metadata)
    requires ModeFits(rules, legacy, sets) && AcceptsUpdate(rules, legacy, sets, tag, metadata)
    ensures ModeFits(rules, legacy, Updated(sets, tag, metadata))
  {
    FlagsMeanIn(Updated(sets, tag, metadata), rules);
  }

  /** Over any sequence of accepted updates a non-legacy router stays non-legacy and valid, and a
      legacy router never acquires a disabling rule. */
  lemma {:induction false} UpdatesKeepMode(rules: seq<RuleTree>, legacy: bool, sets: RuleSets,
                                           updates: seq<(string, Metadata)>)
    requires ModeFits(rules, legacy, sets) && AllAccepted(rules, legacy, sets, updates)
    ensures ModeFits(rules, legacy, Apply(sets, updates))
  {
    if updates != [] {
      var n := |updates| - 1;
      var before := updates[..n];
      assert forall i :: 0 <= i < n ==> before[i] == updates[i] && before[..i] == updates[..i];
      UpdatesKeepMode(rules, legacy, sets, before);
      AcceptedKeepsMode(rules, legacy, Apply(sets, before), updates[n].0, updates[n].1);
    }
  }
}
