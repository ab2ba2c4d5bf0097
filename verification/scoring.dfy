/**
 * The shape every rule-based detector shares: a fixed list of rules, each
 * of which either fires (adding a fixed amount to the score and one
 * finding to the report) or does not. A detector's score is the sum of what
 * its fired rules add, clamped; its findings are theirs, in rule order.
 */
module Scoring {

  /** One heuristic rule: whether it fires, what it adds, the finding it reports. */
  datatype Rule = Rule(fires: bool, amount: real, finding: string)

  /** What the first `n` rules add together, `score += amount` rule by rule. */
  function GainedFirst(rules: seq<Rule>, n: nat): real
    requires n <= |rules|
  {
    if n == 0 then 0.0
    else if rules[n - 1].fires then GainedFirst(rules, n - 1) + rules[n - 1].amount
    else GainedFirst(rules, n - 1)
  }

  /** The findings of the first `n` rules, in rule order, `findings.append(...)` rule by rule. */
  function NotesFirst(rules: seq<Rule>, n: nat): seq<string>
    requires n <= |rules|
  {
    if n == 0 then []
    else if rules[n - 1].fires then NotesFirst(rules, n - 1) + [rules[n - 1].finding]
    else NotesFirst(rules, n - 1)
  }

  /** One more rule: it adds its amount and its finding exactly when it fires. */
  lemma Step(rules: seq<Rule>, n: nat)
    requires n < |rules|
    ensures rules[n].fires ==> GainedFirst(rules, n + 1) == GainedFirst(rules, n) + rules[n].amount
    ensures rules[n].fires ==> NotesFirst(rules, n + 1) == NotesFirst(rules, n) + [rules[n].finding]
    ensures !rules[n].fires ==> GainedFirst(rules, n + 1) == GainedFirst(rules, n)
    ensures !rules[n].fires ==> NotesFirst(rules, n + 1) == NotesFirst(rules, n)
  {
  }

  /** What all the rules add together. */
  function Gained(rules: seq<Rule>): real {
    GainedFirst(rules, |rules|)
  }

  /** The findings of all the rules. */
  function Notes(rules: seq<Rule>): seq<string> {
    NotesFirst(rules, |rules|)
  }

  /** How many of the first `n` rules fire. */
  function FiredFirst(rules: seq<Rule>, n: nat): nat
    requires n <= |rules|
  {
    if n == 0 then 0 else FiredFirst(rules, n - 1) + (if rules[n - 1].fires then 1 else 0)
  }

  /** How many rules fire. */
  function FiredCount(rules: seq<Rule>): nat {
    FiredFirst(rules, |rules|)
  }

  /** The sum of the first `n` amounts, fired or not. */
  function CeilingFirst(rules: seq<Rule>, n: nat): real
    requires n <= |rules|
  {
    if n == 0 then 0.0 else CeilingFirst(rules, n - 1) + rules[n - 1].amount
  }

  /** The sum of every rule's amount, fired or not: the most the rules can add. */
  function Ceiling(rules: seq<Rule>): real {
    CeilingFirst(rules, |rules|)
  }

  predicate NonNegative(rules: seq<Rule>) {
    forall k :: 0 <= k < |rules| ==> rules[k].amount >= 0.0
  }

  /** Each fired rule reports exactly one finding. */
  lemma {:induction false} NotesCount(rules: seq<Rule>, n: nat)
    requires n <= |rules|
    ensures |NotesFirst(rules, n)| == FiredFirst(rules, n)
  {
    if n > 0 {
      NotesCount(rules, n - 1);
    }
  }

  /** The findings are exactly those of the fired rules among the first `n`. */
  lemma {:induction false} NotesAreFiredFindings(rules: seq<Rule>, n: nat)
    requires n <= |rules|
    ensures forall f :: f in NotesFirst(rules, n) <==> exists k :: 0 <= k < n && rules[k].fires && rules[k].finding == f
  {
    if n > 0 {
      NotesAreFiredFindings(rules, n - 1);
    }
  }

  /** With non-negative amounts, the rules add between nothing and their ceiling. */
  lemma {:induction false} GainedBounds(rules: seq<Rule>, n: nat)
    requires NonNegative(rules) && n <= |rules|
    ensures 0.0 <= GainedFirst(rules, n) <= CeilingFirst(rules, n)
  {
    if n > 0 {
      GainedBounds(rules, n - 1);
    }
  }

  /** Adding rules never lowers the score when amounts are non-negative. */
  lemma {:induction false} GainedGrows(rules: seq<Rule>, m: nat, n: nat)
    requires NonNegative(rules) && m <= n <= |rules|
    ensures GainedFirst(rules, m) <= GainedFirst(rules, n)
    decreases n
  {
    if m < n {
      GainedGrows(rules, m, n - 1);
    }
  }

  /** With non-negative amounts, a fired rule's amount is part of the total. */
  lemma FiredRuleCounts(rules: seq<Rule>, i: nat)
    requires NonNegative(rules) && i < |rules| && rules[i].fires
    ensures Gained(rules) >= GainedFirst(rules, i) + rules[i].amount >= rules[i].amount
  {
    GainedBounds(rules, i);
    GainedGrows(rules, i + 1, |rules|);
  }

  /** Two fired rules both count towards the total. */
  lemma TwoFired(rules: seq<Rule>, i: nat, j: nat)
    requires NonNegative(rules) && i < j < |rules| && rules[i].fires && rules[j].fires
    ensures Gained(rules) >= rules[i].amount + rules[j].amount
  {
    FiredRuleCounts(rules, j);
    GainedBounds(rules, i);
    GainedGrows(rules, i + 1, j);
  }

  /** Later rules only append to the findings of earlier ones. */
  lemma {:induction false} NotesGrow(rules: seq<Rule>, m: nat, n: nat)
    requires m <= n <= |rules|
    ensures NotesFirst(rules, m) <= NotesFirst(rules, n)
    decreases n
  {
    if m < n {
      NotesGrow(rules, m, n - 1);
    }
  }

  /** When none of the first `n` rules fires, nothing is added and nothing is reported. */
  lemma {:induction false} NothingFires(rules: seq<Rule>, n: nat)
    requires n <= |rules|
    requires forall k :: 0 <= k < n ==> !rules[k].fires
    ensures GainedFirst(rules, n) == 0.0 && NotesFirst(rules, n) == []
  {
    if n > 0 {
      NothingFires(rules, n - 1);
    }
  }

  /** The first rules of a longer list score as they do on their own. */
  lemma {:induction false} Extend(a: seq<Rule>, b: seq<Rule>, n: nat)
    requires n <= |a|
    ensures GainedFirst(a + b, n) == GainedFirst(a, n)
    ensures NotesFirst(a + b, n) == NotesFirst(a, n)
  {
    if n > 0 {
      Extend(a, b, n - 1);
      assert (a + b)[n - 1] == a[n - 1];
    }
  }

  /** Rules after a list only add to what the list scores and append to what it reports. */
  lemma {:induction false} Concat(a: seq<Rule>, b: seq<Rule>, n: nat)
    requires n <= |b|
    ensures GainedFirst(a + b, |a| + n) == Gained(a) + GainedFirst(b, n)
    ensures NotesFirst(a + b, |a| + n) == Notes(a) + NotesFirst(b, n)
  {
    if n == 0 {
      Extend(a, b, |a|);
    } else {
      Concat(a, b, n - 1);
      assert (a + b)[|a| + n - 1] == b[n - 1];
    }
  }

  /** Scoring two lists one after the other is scoring their concatenation. */
  lemma Split(a: seq<Rule>, b: seq<Rule>)
    ensures Gained(a + b) == Gained(a) + Gained(b)
    ensures Notes(a + b) == Notes(a) + Notes(b)
  {
    Concat(a, b, |b|);
  }

  /** Appending to a running list: the grouping does not matter. */
  lemma AppendAssoc<T>(a: seq<T>, b: seq<T>, c: seq<T>)
    ensures (a + b) + c == a + (b + c)
  {
  }

  /** Python's `min(max(x, 0), 1.0)`. */
  function Clamp(x: real): (r: real)
    ensures 0.0 <= r <= 1.0
    ensures 0.0 <= x <= 1.0 ==> r == x
    ensures x > 1.0 ==> r == 1.0
    ensures x < 0.0 ==> r == 0.0
  {
    if x < 0.0 then 0.0 else if x > 1.0 then 1.0 else x
  }
}
