/**
 * The rule registry of pycats/derivation.py. Every `Derivation` ever built is
 * appended to one list, and `find_items` picks a rule from that list in three
 * tiers: a perfect match, then a partial match, then an identity match. Within
 * a tier, the rule registered first wins.
 */
module Derivation {
  import opened Wrappers
  import opened Strings

  /** The keyword arguments a set was opened with: binding key to value. */
  type Context = map<string, string>

  /**
   * The user-supplied accessor. It gets the context and the lookup name and
   * returns the identities, or raises an exception that find_items passes on.
   */
  type Accessor = (Context, Option<string>) -> Result<seq<string>>

  /**
   * One registered Derivation. `keys` is None for an identity rule; otherwise
   * it holds the required context keys, sorted.
   */
  datatype Rule = Rule(category: string, keys: Option<seq<string>>, accessor: Accessor)

  /** What Derivation.__init__ stores for the arguments it is given. */
  function MakeRule(category: string, context: Option<seq<string>>, accessor: Accessor): (r: Rule)
    ensures r.category == category && r.accessor == accessor
    ensures r.keys.None? <==> context.None? || context.value == []
    ensures r.keys.Some? ==> Sorted(r.keys.value) && multiset(r.keys.value) == multiset(context.value)
    ensures WellFormed(r)
  {
    if context.None? || context.value == [] then Rule(category, None, accessor)
    else Rule(category, Some(Sort(context.value)), accessor)
  }

  /** True of every rule that MakeRule can build. */
  ghost predicate WellFormed(rule: Rule)
  {
    rule.keys.Some? ==> rule.keys.value != [] && Sorted(rule.keys.value)
  }

  // ---------------------------------------------------------------------
  // The three match predicates (the "self.context and ..." tests truthiness,
  // so a rule whose key list is empty never matches in the first two tiers)

  /** perfect_match: the sorted context keys equal the stored keys. */
  predicate PerfectMatch(rule: Rule, entity: string, context: Context)
    ensures PerfectMatch(rule, entity, context) ==>
      rule.keys.Some? && rule.category == entity && Distinct(rule.keys.value)
      && forall k :: k in rule.keys.value <==> k in context
  {
    rule.keys.Some? && rule.keys.value != [] && rule.category == entity
    && SortedSet(context.Keys) == rule.keys.value
  }

  /** partial_match: every stored key is a key of the context. */
  predicate PartialMatch(rule: Rule, entity: string, context: Context)
    ensures PartialMatch(rule, entity, context) ==>
      rule.keys.Some? && rule.category == entity && forall k :: k in rule.keys.value ==> k in context
  {
    rule.keys.Some? && rule.keys.value != [] && rule.category == entity
    && forall i :: 0 <= i < |rule.keys.value| ==> rule.keys.value[i] in context
  }

  /** identity_match: an identity rule of the requested category. */
  predicate IdentityMatch(rule: Rule, entity: string, context: Context)
    ensures IdentityMatch(rule, entity, context) ==>
      !PerfectMatch(rule, entity, context) && !PartialMatch(rule, entity, context)
  {
    rule.category == entity && rule.keys.None?
  }

  /** The strings 'perfect_match', 'partial_match', 'identity_match' of find_items. */
  datatype Tier = PerfectTier | PartialTier | IdentityTier

  const Tiers: seq<Tier> := [PerfectTier, PartialTier, IdentityTier]

  predicate Matches(tier: Tier, rule: Rule, entity: string, context: Context)
  {
    match tier
    case PerfectTier => PerfectMatch(rule, entity, context)
    case PartialTier => PartialMatch(rule, entity, context)
    case IdentityTier => IdentityMatch(rule, entity, context)
  }

  // ---------------------------------------------------------------------
  // The selection, as functions of the registry

  /** The first rule at or after `from` that matches in `tier`. */
  function FirstMatch(rules: seq<Rule>, tier: Tier, entity: string, context: Context, from: nat): (w: Option<nat>)
    requires from <= |rules|
    ensures w.Some? ==> from <= w.value < |rules| && Matches(tier, rules[w.value], entity, context)
    ensures w.Some? ==> forall j :: from <= j < w.value ==> !Matches(tier, rules[j], entity, context)
    ensures w.None? ==> forall j :: from <= j < |rules| ==> !Matches(tier, rules[j], entity, context)
    decreases |rules| - from
  {
    if from == |rules| then None
    else if Matches(tier, rules[from], entity, context) then Some(from)
    else FirstMatch(rules, tier, entity, context, from + 1)
  }

  /** The index of the rule find_items uses, or None when it raises. */
  function Winner(rules: seq<Rule>, entity: string, context: Context): (w: Option<nat>)
    ensures w.Some? ==> w.value < |rules| && rules[w.value].category == entity
    ensures (forall j :: 0 <= j < |rules| ==> rules[j].category != entity) ==> w.None?
  {
    match FirstMatch(rules, PerfectTier, entity, context, 0)
    case Some(i) => Some(i)
    case None =>
      match FirstMatch(rules, PartialTier, entity, context, 0)
      case Some(i) => Some(i)
      case None => FirstMatch(rules, IdentityTier, entity, context, 0)
  }

  /** What find_items(entity, context, lookup_name) returns or raises. */
  function Resolve(rules: seq<Rule>, entity: string, context: Context, lookupName: Option<string>): (r: Result<seq<string>>)
    ensures r.Ok? ==> exists i :: 0 <= i < |rules| && rules[i].category == entity && rules[i].accessor(context, lookupName) == r
    ensures (forall j :: 0 <= j < |rules| ==> rules[j].category != entity) ==> r == Err(NoDerivation(entity))
  {
    match Winner(rules, entity, context)
    case Some(i) => rules[i].accessor(context, lookupName)
    case None => Err(NoDerivation(entity))
  }

  /**
   * Rule i is the one the tiers select: it matches in tier number `tier`, no
   * earlier rule matches in that tier, and no rule at all matches in a tier
   * that comes before it.
   */
  ghost predicate SelectedAt(rules: seq<Rule>, entity: string, context: Context, tier: nat, i: nat)
  {
    tier < |Tiers| && i < |rules|
    && Matches(Tiers[tier], rules[i], entity, context)
    && (forall j :: 0 <= j < i ==> !Matches(Tiers[tier], rules[j], entity, context))
    && (forall u, j :: 0 <= u < tier && 0 <= j < |rules| ==> !Matches(Tiers[u], rules[j], entity, context))
  }

  // ---------------------------------------------------------------------
  // The registry object: the module-level list `derivations`

  class Registry {
    var derivations: seq<Rule>

    ghost predicate Valid()
      reads this
    {
      forall i :: 0 <= i < |derivations| ==> WellFormed(derivations[i])
    }

    constructor ()
      ensures derivations == [] && Valid()
    {
      derivations := [];
    }

    /** Derivation(category, context, accessor): build the rule and append it. */
    method Register(category: string, context: Option<seq<string>>, accessor: Accessor) returns (rule: Rule)
      requires Valid()
      modifies this
      ensures Valid()
      ensures rule == MakeRule(category, context, accessor)
      ensures derivations == old(derivations) + [rule]
    {
      rule := MakeRule(category, context, accessor);
      derivations := derivations + [rule];
    }

    /**
     * Every rule in a registry built by Register is well formed, so the
     * perfect-match test on any of them means exactly what
     * PerfectMatchExactly says: distinct keys equal to the context's keys.
     */
    lemma RegisteredPerfectMatchExactly(i: nat, entity: string, context: Context)
      requires Valid()
      requires i < |derivations|
      ensures PerfectMatch(derivations[i], entity, context) <==>
        derivations[i].keys.Some? && derivations[i].category == entity && Distinct(derivations[i].keys.value)
        && (forall x :: x in derivations[i].keys.value <==> x in context)
    {
      PerfectMatchExactly(derivations[i], entity, context);
    }

    /** Derivation.find_items: the nested loop with its early return. */
    method FindItems(entity: string, context: Context, lookupName: Option<string>) returns (r: Result<seq<string>>)
      ensures r == Resolve(derivations, entity, context, lookupName)
      ensures Winner(derivations, entity, context).None? ==> r == Err(NoDerivation(entity))
    {
      assert Tiers[0] == PerfectTier && Tiers[1] == PartialTier && Tiers[2] == IdentityTier;
      for t := 0 to |Tiers|
        invariant forall u :: 0 <= u < t ==> FirstMatch(derivations, Tiers[u], entity, context, 0).None?
      {
        for i := 0 to |derivations|
          invariant forall j :: 0 <= j < i ==> !Matches(Tiers[t], derivations[j], entity, context)
        {
          if Matches(Tiers[t], derivations[i], entity, context) {
            assert FirstMatch(derivations, Tiers[t], entity, context, 0) == Some(i);
            assert Winner(derivations, entity, context) == Some(i);
            return derivations[i].accessor(context, lookupName);
          }
        }
      }
      return Err(NoDerivation(entity));
    }
  }

  // ---------------------------------------------------------------------
  // Properties of the matcher

  /** Exactly what a perfect match says about a rule that Register built. */
  lemma PerfectMatchExactly(rule: Rule, entity: string, context: Context)
    requires WellFormed(rule)
    ensures PerfectMatch(rule, entity, context) <==>
      rule.keys.Some? && rule.category == entity && Distinct(rule.keys.value)
      && (forall x :: x in rule.keys.value <==> x in context)
  {
    if rule.keys.Some? {
      SortedSetEquals(context.Keys, rule.keys.value);
    }
  }

  /** A rule registered with a key listed twice can never match perfectly. */
  lemma DuplicateKeysNeverPerfect(rule: Rule, entity: string, context: Context, i: nat, j: nat)
    requires rule.keys.Some? && i < j < |rule.keys.value| && rule.keys.value[i] == rule.keys.value[j]
    ensures !PerfectMatch(rule, entity, context)
  {
  }

  /** Every perfect match is a partial match: the stored keys are context keys. */
  lemma PerfectImpliesPartial(rule: Rule, entity: string, context: Context)
    requires PerfectMatch(rule, entity, context)
    ensures PartialMatch(rule, entity, context)
  {
    var k := rule.keys.value;
    forall i | 0 <= i < |k|
      ensures k[i] in context
    {
      assert k[i] in SortedSet(context.Keys);
    }
  }

  /** An identity rule matches its category whatever the context holds. */
  lemma IdentityMatchIgnoresContext(rule: Rule, entity: string, c1: Context, c2: Context)
    ensures IdentityMatch(rule, entity, c1) <==> IdentityMatch(rule, entity, c2)
    ensures IdentityMatch(rule, entity, c1) <==> rule.keys.None? && rule.category == entity
  {
  }

  /** A rule of another category matches in no tier. */
  lemma OtherCategoryMatchesNowhere(rule: Rule, entity: string, context: Context, tier: Tier)
    requires rule.category != entity
    ensures !Matches(tier, rule, entity, context)
  {
  }

  /** The selected rule is the one the three tiers pick, and only that one. */
  lemma WinnerIsSelected(rules: seq<Rule>, entity: string, context: Context, i: nat)
    ensures Winner(rules, entity, context) == Some(i) <==>
      SelectedAt(rules, entity, context, 0, i) || SelectedAt(rules, entity, context, 1, i)
      || SelectedAt(rules, entity, context, 2, i)
  {
    assert Tiers[0] == PerfectTier && Tiers[1] == PartialTier && Tiers[2] == IdentityTier;
  }

  /** find_items raises exactly when no rule matches in any tier. */
  lemma NoWinnerIffNoMatch(rules: seq<Rule>, entity: string, context: Context)
    ensures Winner(rules, entity, context).None? <==>
      forall u, j :: 0 <= u < |Tiers| && 0 <= j < |rules| ==> !Matches(Tiers[u], rules[j], entity, context)
  {
    if Winner(rules, entity, context).None? {
      forall u, j | 0 <= u < |Tiers| && 0 <= j < |rules|
        ensures !Matches(Tiers[u], rules[j], entity, context)
      {
        assert Tiers[u] == PerfectTier || Tiers[u] == PartialTier || Tiers[u] == IdentityTier;
      }
    } else {
      var i := Winner(rules, entity, context).value;
      WinnerIsSelected(rules, entity, context, i);
      var u :| 0 <= u < |Tiers| && SelectedAt(rules, entity, context, u, i);
    }
  }

  /** A selected rule always belongs to the requested category. */
  lemma WinnerHasCategory(rules: seq<Rule>, entity: string, context: Context)
    requires Winner(rules, entity, context).Some?
    ensures Winner(rules, entity, context).value < |rules|
    ensures rules[Winner(rules, entity, context).value].category == entity
  {
  }

  lemma FirstMatchAppend(rules: seq<Rule>, r: Rule, tier: Tier, entity: string, context: Context)
    ensures FirstMatch(rules, tier, entity, context, 0).Some? ==>
      FirstMatch(rules + [r], tier, entity, context, 0) == FirstMatch(rules, tier, entity, context, 0)
    ensures FirstMatch(rules, tier, entity, context, 0).None? ==>
      FirstMatch(rules + [r], tier, entity, context, 0) ==
        (if Matches(tier, r, entity, context) then Some(|rules|) else None)
  {
    var ext := rules + [r];
    var a := FirstMatch(rules, tier, entity, context, 0);
    var b := FirstMatch(ext, tier, entity, context, 0);
    assert forall j :: 0 <= j < |rules| ==> ext[j] == rules[j];
    assert ext[|rules|] == r;
    if a.Some? {
      assert b.Some? && b.value <= a.value;
    }
  }

  /**
   * Registering a rule either leaves every resolution as it was or makes the
   * new rule the winner; a rule of another category changes nothing.
   */
  lemma RegisterKeepsOrTakesOver(rules: seq<Rule>, r: Rule, entity: string, context: Context)
    ensures Winner(rules + [r], entity, context) == Winner(rules, entity, context)
         || Winner(rules + [r], entity, context) == Some(|rules|)
    ensures r.category != entity ==> Winner(rules + [r], entity, context) == Winner(rules, entity, context)
    ensures FirstMatch(rules, PerfectTier, entity, context, 0).Some? ==>
      Winner(rules + [r], entity, context) == Winner(rules, entity, context)
  {
    FirstMatchAppend(rules, r, PerfectTier, entity, context);
    FirstMatchAppend(rules, r, PartialTier, entity, context);
    FirstMatchAppend(rules, r, IdentityTier, entity, context);
  }

  /** With only an identity rule for a category, any context resolves to it. */
  lemma IdentityRuleAlwaysSelected(r: Rule, context: Context)
    requires r.keys.None?
    ensures Winner([r], r.category, context) == Some(0)
  {
  }

  /**
   * Rules requiring {a} and {a, b} for the same category: the context
   * {a: 1, b: 2} matches the first partially and the second perfectly, so the
   * second one is used although it was registered later.
   */
  lemma PerfectBeatsEarlierPartial(acc1: Accessor, acc2: Accessor)
    ensures Winner([Rule("C", Some(["a"]), acc1), Rule("C", Some(["a", "b"]), acc2)], "C", map["a" := "1", "b" := "2"]) == Some(1)
  {
    var rules := [Rule("C", Some(["a"]), acc1), Rule("C", Some(["a", "b"]), acc2)];
    var context := map["a" := "1", "b" := "2"];
    assert Below("a", "b");
    assert ["a"] != ["a", "b"];
    SortedSetEquals(context.Keys, ["a", "b"]);
    assert !PerfectMatch(rules[0], "C", context);
    assert PerfectMatch(rules[1], "C", context);
    assert FirstMatch(rules, PerfectTier, "C", context, 0) == Some(1);
  }
}
