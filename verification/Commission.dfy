/**
 The marketplace's cut of a sale: which rule applies, and how much it takes. All amounts are integer
 cents, rates are basis points, moments are integers.
 */
module Commission {
  import opened Options

  datatype Scope = DEFAULT | SELLER | CATEGORY

  datatype RuleType = PERCENTAGE | FIXED

  datatype Rule = Rule(
    id: string,
    scope: Scope,
    sellerId: Option<string>,
    categoryId: Option<string>,
    kind: RuleType,
    percentageBps: Option<int>,
    fixedAmountCents: Option<int>,
    isActive: bool,
    effectiveFrom: int,
    effectiveTo: Option<int>)

  datatype Error = GrossNotPositive | NoApplicableRule | MissingFigure

  datatype Outcome =
    | Charged(gross: int, commission: int, net: int, ruleId: string, scope: Scope)
    | Refused(error: Error)

  predicate Given(id: Option<string>) {
    id.Some? && id.value != ""
  }

  /** What a rule must satisfy to be built at all. */
  predicate Consistent(r: Rule) {
    && (r.percentageBps.Some? ==> 0 <= r.percentageBps.value <= 10_000)
    && (r.fixedAmountCents.Some? ==> 0 <= r.fixedAmountCents.value)
    && (r.scope == SELLER ==> Given(r.sellerId))
    && (r.scope == CATEGORY ==> Given(r.categoryId))
    && (r.scope == DEFAULT ==> !Given(r.sellerId) && !Given(r.categoryId))
    && (r.kind == PERCENTAGE ==> r.percentageBps.Some?)
    && (r.kind == FIXED ==> r.fixedAmountCents.Some?)
  }

  predicate IsEffectiveAt(r: Rule, moment: int) {
    r.isActive && r.effectiveFrom <= moment && (r.effectiveTo.None? || moment < r.effectiveTo.value)
  }

  // ---------- Which rule ----------

  datatype Sale = Sale(sellerId: string, categoryId: Option<string>, at: int)

  function Filter(rules: seq<Rule>, keep: Rule -> bool): seq<Rule> {
    if rules == [] then []
    else if keep(rules[0]) then [rules[0]] + Filter(rules[1..], keep) else Filter(rules[1..], keep)
  }

  /** The first of the rules that took effect last. */
  function Latest(rules: seq<Rule>): Rule
    requires rules != []
  {
    var last := |rules| - 1;
    if last == 0 then rules[0]
    else
      var best := Latest(rules[..last]);
      if rules[last].effectiveFrom > best.effectiveFrom then rules[last] else best
  }

  predicate ForSeller(r: Rule, sale: Sale) {
    r.scope == SELLER && r.sellerId == Some(sale.sellerId)
  }

  predicate ForCategory(r: Rule, sale: Sale) {
    sale.categoryId.Some? && r.scope == CATEGORY && r.categoryId == sale.categoryId
  }

  function Resolve(rules: seq<Rule>, sale: Sale): Option<Rule> {
    var effective := Filter(rules, r => IsEffectiveAt(r, sale.at));
    var sellerRules := Filter(effective, r => ForSeller(r, sale));
    if sellerRules != [] then Some(Latest(sellerRules))
    else
      var categoryRules := Filter(effective, r => ForCategory(r, sale));
      if categoryRules != [] then Some(Latest(categoryRules))
      else
        var defaultRules := Filter(effective, (r: Rule) => r.scope == DEFAULT);
        if defaultRules != [] then Some(Latest(defaultRules)) else None
  }

  /** How closely a rule fits a sale: 0 does not apply, 1 default, 2 category, 3 seller. */
  function Precedence(r: Rule, sale: Sale): nat {
    if !IsEffectiveAt(r, sale.at) then 0
    else if ForSeller(r, sale) then 3
    else if ForCategory(r, sale) then 2
    else if r.scope == DEFAULT then 1
    else 0
  }

  predicate Outranks(a: Rule, b: Rule, sale: Sale) {
    Precedence(a, sale) > Precedence(b, sale)
    || (Precedence(a, sale) == Precedence(b, sale) && a.effectiveFrom > b.effectiveFrom)
  }

  /** The rule at position k applies, no rule outranks it, and it outranks every rule before it. */
  predicate Chosen(rules: seq<Rule>, sale: Sale, k: nat) {
    && k < |rules| && Precedence(rules[k], sale) > 0
    && (forall j :: 0 <= j < |rules| ==> !Outranks(rules[j], rules[k], sale))
    && (forall j :: 0 <= j < k ==> Outranks(rules[k], rules[j], sale))
  }

  /** The first rule of one precedence that took effect last. */
  predicate LeadsItsRank(rules: seq<Rule>, sale: Sale, rank: nat, k: nat) {
    && k < |rules| && Precedence(rules[k], sale) == rank
    && (forall j :: 0 <= j < |rules| && Precedence(rules[j], sale) == rank ==>
          if j < k then rules[j].effectiveFrom < rules[k].effectiveFrom
            else rules[j].effectiveFrom <= rules[k].effectiveFrom)
  }

  function Ranked(rules: seq<Rule>, sale: Sale, rank: nat): seq<Rule> {
    Filter(rules, r => Precedence(r, sale) == rank)
  }

  lemma {:induction false} FilterConcat(a: seq<Rule>, b: seq<Rule>, keep: Rule -> bool)
    ensures Filter(a + b, keep) == Filter(a, keep) + Filter(b, keep)
    decreases |a|
  {
    if a == [] {
      assert a + b == b;
    } else {
      assert (a + b)[1..] == a[1..] + b;
      FilterConcat(a[1..], b, keep);
    }
  }

  lemma {:induction false} FilterTwice(rules: seq<Rule>, first: Rule -> bool, second: Rule -> bool, both: Rule -> bool)
    requires forall r :: both(r) <==> first(r) && second(r)
    ensures Filter(Filter(rules, first), second) == Filter(rules, both)
  {
    if rules != [] {
      FilterTwice(rules[1..], first, second, both);
    }
  }

  lemma RankedAppend(rules: seq<Rule>, r: Rule, sale: Sale, rank: nat)
    ensures Ranked(rules + [r], sale, rank)
            == Ranked(rules, sale, rank) + if Precedence(r, sale) == rank then [r] else []
  {
    FilterConcat(rules, [r], x => Precedence(x, sale) == rank);
  }

  lemma LatestAppend(rules: seq<Rule>, r: Rule)
    ensures Latest(rules + [r])
            == if rules == [] || r.effectiveFrom > Latest(rules).effectiveFrom then r else Latest(rules)
  {
    assert (rules + [r])[..|rules|] == rules;
  }

  predicate NoneHasRank(rules: seq<Rule>, sale: Sale, rank: nat) {
    forall j :: 0 <= j < |rules| ==> Precedence(rules[j], sale) != rank
  }

  lemma {:induction false} LatestLeads(rules: seq<Rule>, sale: Sale, rank: nat) returns (k: nat)
    ensures Ranked(rules, sale, rank) == [] <==> NoneHasRank(rules, sale, rank)
    ensures Ranked(rules, sale, rank) != [] ==>
              LeadsItsRank(rules, sale, rank, k) && Latest(Ranked(rules, sale, rank)) == rules[k]
  {
    k := 0;
    if rules != [] {
      var last := |rules| - 1;
      k := LatestLeads(rules[..last], sale, rank);
      assert rules == rules[..last] + [rules[last]];
      RankedAppend(rules[..last], rules[last], sale, rank);
      var before := Ranked(rules[..last], sale, rank);
      if Precedence(rules[last], sale) != rank {
        assert Ranked(rules, sale, rank) == before;
      } else {
        assert Ranked(rules, sale, rank) == before + [rules[last]];
        LatestAppend(before, rules[last]);
        if before == [] || rules[last].effectiveFrom > Latest(before).effectiveFrom {
          k := last;
        }
      }
    }
  }

  lemma ScopesAreRanks(rules: seq<Rule>, sale: Sale)
    ensures
      var effective := Filter(rules, r => IsEffectiveAt(r, sale.at));
      && Filter(effective, r => ForSeller(r, sale)) == Ranked(rules, sale, 3)
      && Filter(effective, r => ForCategory(r, sale)) == Ranked(rules, sale, 2)
      && Filter(effective, (r: Rule) => r.scope == DEFAULT) == Ranked(rules, sale, 1)
  {
    var live := (r: Rule) => IsEffectiveAt(r, sale.at);
    FilterTwice(rules, live, r => ForSeller(r, sale), r => Precedence(r, sale) == 3);
    FilterTwice(rules, live, r => ForCategory(r, sale), r => Precedence(r, sale) == 2);
    FilterTwice(rules, live, (r: Rule) => r.scope == DEFAULT, r => Precedence(r, sale) == 1);
  }

  /** Resolution fails exactly when no rule applies, and otherwise returns the one rule nothing outranks. */
  lemma ResolvedIsChosen(rules: seq<Rule>, sale: Sale)
    ensures Resolve(rules, sale).None? <==> forall r :: r in rules ==> Precedence(r, sale) == 0
    ensures forall k: nat :: Chosen(rules, sale, k) ==> Resolve(rules, sale) == Some(rules[k])
    ensures Resolve(rules, sale).Some? ==> exists k: nat :: Chosen(rules, sale, k)
  {
    ScopesAreRanks(rules, sale);
    var k3 := LatestLeads(rules, sale, 3);
    var k2 := LatestLeads(rules, sale, 2);
    var k1 := LatestLeads(rules, sale, 1);
    var k := if Ranked(rules, sale, 3) != [] then k3 else if Ranked(rules, sale, 2) != [] then k2 else k1;
    if Resolve(rules, sale).Some? {
      assert Chosen(rules, sale, k);
      assert Resolve(rules, sale) == Some(rules[k]);
      forall other: nat | Chosen(rules, sale, other)
        ensures other == k
      {
        OnlyOneIsChosen(rules, sale, k, other);
      }
    }
  }

  lemma OnlyOneIsChosen(rules: seq<Rule>, sale: Sale, k: nat, other: nat)
    requires Chosen(rules, sale, k) && Chosen(rules, sale, other)
    ensures k == other
  {
  }

  // ---------- How much ----------

  function Percentage(gross: int, bps: int): int {
    (gross * bps + 5_000) / 10_000
  }

  function Apply(r: Rule, gross: int): Option<int> {
    if r.kind == FIXED then r.fixedAmountCents
    else if r.percentageBps.None? then None
    else Some(Percentage(gross, r.percentageBps.value))
  }

  function Clamp(commission: int, gross: int): int {
    var atMost := if commission < gross then commission else gross;
    if atMost > 0 then atMost else 0
  }

  /** The charge always splits the gross into two non-negative parts. */
  function Calculate(gross: int, sale: Sale, rules: seq<Rule>): (outcome: Outcome)
    ensures outcome.Charged? ==>
              outcome.gross == gross && outcome.commission + outcome.net == gross && 0 <= outcome.commission
                && 0 <= outcome.net
  {
    if gross <= 0 then Refused(GrossNotPositive)
    else
      var rule := Resolve(rules, sale);
      if rule.None? then Refused(NoApplicableRule)
      else
        var commission := Apply(rule.value, gross);
        if commission.None? then Refused(MissingFigure)
        else
          var taken := Clamp(commission.value, gross);
          Charged(gross, taken, gross - taken, rule.value.id, rule.value.scope)
  }

  /** With rules that could be built, a positive sale is refused exactly when no rule applies to it. */
  lemma RefusedOnlyWithoutARule(gross: int, sale: Sale, rules: seq<Rule>)
    requires forall r :: r in rules ==> Consistent(r)
    ensures Calculate(gross, sale, rules).Refused?
            <==> gross <= 0 || forall r :: r in rules ==> Precedence(r, sale) == 0
    ensures Calculate(gross, sale, rules) != Refused(MissingFigure)
  {
    ResolvedIsChosen(rules, sale);
    if Resolve(rules, sale).Some? {
      var k: nat :| Chosen(rules, sale, k);
      assert rules[k] in rules;
    }
  }

  /** The charge is made under the chosen rule: its fixed fee up to the whole sale, or the nearest cent to its share. */
  lemma ChargedByTheChosenRule(gross: int, sale: Sale, rules: seq<Rule>, k: nat)
    requires gross > 0 && Chosen(rules, sale, k) && Consistent(rules[k])
    ensures
      var outcome, r := Calculate(gross, sale, rules), rules[k];
      && outcome.Charged? && outcome.ruleId == r.id && outcome.scope == r.scope
      && if r.kind == FIXED then
           outcome.commission == if r.fixedAmountCents.value < gross then r.fixedAmountCents.value else gross
         else -5_000 < 10_000 * outcome.commission - gross * r.percentageBps.value <= 5_000
  {
    ResolvedIsChosen(rules, sale);
    ClampIsForFixedFeesOnly(rules[k], gross);
    if rules[k].kind == PERCENTAGE {
      NearestCent(gross, rules[k].percentageBps.value, 0);
    }
  }

  /** The percentage is the nearest cent to the exact share; of two equally near ones the higher. */
  lemma NearestCent(gross: int, bps: int, cents: int)
    ensures
      var exact := gross * bps;
      var c := Percentage(gross, bps);
      && -5_000 < 10_000 * c - exact <= 5_000
      && (cents > c ==> 10_000 * cents - exact > Distance(c, exact))
      && (cents < c ==> exact - 10_000 * cents >= Distance(c, exact))
  {
  }

  function Distance(cents: int, exact: int): nat {
    if 10_000 * cents >= exact then 10_000 * cents - exact else exact - 10_000 * cents
  }

  /** A rate of at most 100% never needs the clamp; a fixed fee needs it exactly when it exceeds the sale. */
  lemma ClampIsForFixedFeesOnly(r: Rule, gross: int)
    requires Consistent(r) && gross > 0
    ensures Apply(r, gross).Some?
    ensures Clamp(Apply(r, gross).value, gross) != Apply(r, gross).value
            <==> r.kind == FIXED && r.fixedAmountCents.value > gross
  {
    if r.kind == PERCENTAGE {
      var bps := r.percentageBps.value;
      AtMostTheWhole(gross, bps);
    }
  }

  lemma AtMostTheWhole(gross: nat, bps: nat)
    requires bps <= 10_000
    ensures 0 <= Percentage(gross, bps) <= gross
  {
    assert gross * bps <= gross * 10_000 by {
      assert gross * 10_000 - gross * bps == gross * (10_000 - bps);
    }
  }

  // ---------- Splitting a sale ----------

  function Sum(parts: seq<int>): int {
    if parts == [] then 0 else Sum(parts[..|parts| - 1]) + parts[|parts| - 1]
  }

  function SumOfPercentages(parts: seq<int>, bps: int): int {
    if parts == [] then 0 else SumOfPercentages(parts[..|parts| - 1], bps) + Percentage(parts[|parts| - 1], bps)
  }

  lemma {:induction false} PartsStayClose(parts: seq<int>, bps: int)
    ensures -5_000 * |parts| <= 10_000 * SumOfPercentages(parts, bps) - Sum(parts) * bps <= 5_000 * |parts|
  {
    if parts != [] {
      var rest, part := parts[..|parts| - 1], parts[|parts| - 1];
      PartsStayClose(rest, bps);
      NearestCent(part, bps, 0);
      assert Sum(parts) * bps == Sum(rest) * bps + part * bps;
    }
  }

  /** Charging n parts separately moves the total commission by at most (n + 1) / 2 cents. */
  lemma SplittingMovesLittle(parts: seq<int>, bps: int)
    ensures
      var moved := SumOfPercentages(parts, bps) - Percentage(Sum(parts), bps);
      -(|parts| + 1) <= 2 * moved <= |parts| + 1
  {
    PartsStayClose(parts, bps);
    NearestCent(Sum(parts), bps, 0);
  }
}
