/** Short explanations of rule-engine concepts
    (src/pair_programming_voice_bot/concept_lookup.py): the built-in
    knowledge base consulted before any web search. The web search itself is
    not modelled; its answer is a parameter. */
module ConceptLookup {
  import opened Wrappers
  import opened Text

  /** The knowledge base's keys, in declaration order. */
  const KbKeys: seq<string> := [
    "forward chaining",
    "first-match-wins",
    "snapshot",
    "restore",
    "deepcopy",
    "rule engine",
    "operator",
    "compound condition",
    "priority",
    "group",
    "audit",
    "evaluate"
  ]

  /** The summary stored under `KbKeys[i]`. */
  function KbSummary(i: nat): string
    requires i < |KbKeys|
  {
    match i
    case 0 => "Forward-chaining engines evaluate rules against current facts and fire each matching rule; conflict resolution decides order."
    case 1 => "First-match-wins means pick one winning rule from a group after sorting by priority and tie-breakers, then ignore the rest of that group."
    case 2 => "Snapshot/restore usually stores a deep copy of mutable state at a timestamp and restores that copy later."
    case 3 => "Restore should replace current rule state from a stored snapshot, while leaving audit history untouched unless explicitly rolled back."
    case 4 => "deepcopy recursively copies nested containers so future mutations do not affect saved snapshots."
    case 5 => "A rule engine evaluates a set of rules against input data. Each rule has a condition (predicate) and an action. The engine iterates through rules, checks conditions against the data, and fires actions for matching rules. Common patterns include forward chaining, first-match-wins, and priority-based ordering."
    case 6 => "Comparison operators for rule conditions: eq (equal), neq (not equal), gt (greater than), lt (less than), gte (greater than or equal), lte (less than or equal). Implement each as a callable that takes (actual_value, expected_value) and returns a boolean."
    case 7 => "Compound conditions combine multiple simple conditions using logical operators AND and OR. AND requires all sub-conditions to be true; OR requires at least one. They can be nested for complex logic. Represent them as a tree with 'all' (AND) and 'any' (OR) nodes."
    case 8 => "Rule priority determines evaluation order. Higher-priority rules are evaluated first. When multiple rules match, priority decides which fires. Use numeric priority (higher number = higher priority) and support tie-breaking by rule insertion order or name."
    case 9 => "Rule groups partition rules into named sets. Within a group, rules are sorted by priority and the first matching rule wins (first-match-wins). Groups can be evaluated independently or in sequence. Each group acts as an isolated decision unit."
    case 10 => "Audit trails record every rule evaluation: which rules were checked, which matched, which fired, the input data, and timestamps. Store evaluation history as a list of records with rule_id, matched (bool), fired (bool), and the data snapshot at evaluation time."
    case 11 => "Rule evaluation checks each rule's condition against the input data. For simple conditions, extract the field from data, apply the operator, and compare to the expected value. For compound conditions, recursively evaluate sub-conditions. Return the list of matching/fired rules."
    case _ => ""
  }

  const NoMatchMessage :=
    "I could not find a direct match in the local concept cache. "
    + "For this project, prefer concise explanations focused on rule evaluation, "
    + "ordering, grouping, and snapshot semantics."

  /** The first knowledge-base entry, from `from` on, whose key occurs in `normalized`. */
  function FirstKbMatch(normalized: string, from: nat): (r: Option<nat>)
    requires from <= |KbKeys|
    ensures r.Some? ==> from <= r.value < |KbKeys| && Contains(normalized, KbKeys[r.value])
    ensures r.Some? ==> forall j :: from <= j < r.value ==> !Contains(normalized, KbKeys[j])
    ensures r.None? ==> forall j :: from <= j < |KbKeys| ==> !Contains(normalized, KbKeys[j])
    decreases |KbKeys| - from
  {
    if from == |KbKeys| then None
    else if Contains(normalized, KbKeys[from]) then Some(from)
    else FirstKbMatch(normalized, from + 1)
  }

  /** `lookup`: the summary of the first key found in the lower-cased,
      trimmed query; failing that the web search's answer when it gave a
      non-empty one (`web` is None when the search is unavailable or
      fails), and the fixed apology otherwise. */
  function Lookup(query: string, web: Option<string>): (r: string)
    ensures var normalized := Strip(Lower(query));
      (exists i :: 0 <= i < |KbKeys| && Contains(normalized, KbKeys[i])) ==>
        (exists i :: 0 <= i < |KbKeys| && Contains(normalized, KbKeys[i]) && r == KbSummary(i)
           && forall j :: 0 <= j < i ==> !Contains(normalized, KbKeys[j]))
    ensures var normalized := Strip(Lower(query));
      (forall i :: 0 <= i < |KbKeys| ==> !Contains(normalized, KbKeys[i])) ==>
        r == if web.Some? && web.value != [] then web.value else NoMatchMessage
  {
    var normalized := Strip(Lower(query));
    match FirstKbMatch(normalized, 0)
    case Some(i) => KbSummary(i)
    case None => if web.Some? && web.value != [] then web.value else NoMatchMessage
  }

  /** The knowledge base answers before the web: a query naming a key never
      reaches the search. */
  lemma KbBeforeWeb(query: string, web1: Option<string>, web2: Option<string>)
    requires exists i :: 0 <= i < |KbKeys| && Contains(Strip(Lower(query)), KbKeys[i])
    ensures Lookup(query, web1) == Lookup(query, web2)
  {
  }
}
