/**
 * The naming-rule engine (`backend/rules/engine.py`): an ordered table of
 * rules per state, filtered by entity type, each producing at most one
 * flag `"[SEVERITY] message"`.
 *
 * Every pattern of the table is an alternation of words, each enclosed in
 * `\b` word boundaries and matched ignoring case. A rule here keeps those
 * words in lower case, and `Matches` is exactly that regex search under
 * ASCII case folding: some word occurs in the lower-cased name with no
 * word character (letter, digit, `_`) immediately before or after it.
 */
module Rules {
  import opened Prelude
  import opened Text

  datatype NamingRule = NamingRule(
    words: seq<string>,
    message: string,
    severity: string,
    entityTypes: Option<seq<string>>)

  // ---------------------------------------------------------------------
  // Word-boundary matching
  // ---------------------------------------------------------------------

  /** The characters `\w` matches under ASCII. */
  predicate IsWordChar(c: char) {
    'a' <= c <= 'z' || 'A' <= c <= 'Z' || '0' <= c <= '9' || c == '_'
  }

  /** `s[i + j..]` starts with `word[j..]`, compared character by character. */
  predicate SameFrom(s: string, word: string, i: nat, j: nat)
    requires i + |word| <= |s| && j <= |word|
    decreases |word| - j
  {
    j == |word| || (s[i + j] == word[j] && SameFrom(s, word, i, j + 1))
  }

  /** `word` occurs at position `i` of `s` between two word boundaries. */
  predicate WordAt(s: string, word: string, i: nat)
    requires i + |word| <= |s|
  {
    SameFrom(s, word, i, 0)
    && (i == 0 || !IsWordChar(s[i - 1]))
    && (i + |word| == |s| || !IsWordChar(s[i + |word|]))
  }

  /** `word` occurs between word boundaries at some position `i` or later. */
  predicate HasWordFrom(s: string, word: string, i: nat)
    decreases |s| - i
  {
    i + |word| <= |s| && (WordAt(s, word, i) || HasWordFrom(s, word, i + 1))
  }

  /** One of `words[j..]` occurs in `s` between word boundaries. */
  predicate AnyWordFrom(s: string, words: seq<string>, j: nat)
    decreases |words| - j
  {
    j < |words| && (HasWordFrom(s, words[j], 0) || AnyWordFrom(s, words, j + 1))
  }

  /** `re.search(rule.pattern, name, re.IGNORECASE)` succeeds. */
  predicate Matches(rule: NamingRule, name: string) {
    AnyWordFrom(Lower(name), rule.words, 0)
  }

  lemma {:induction false} SameFromMeaning(s: string, word: string, i: nat, j: nat)
    requires i + |word| <= |s| && j <= |word|
    ensures SameFrom(s, word, i, j) <==> s[i + j..i + |word|] == word[j..]
    decreases |word| - j
  {
    if j < |word| {
      SameFromMeaning(s, word, i, j + 1);
      assert s[i + j..i + |word|] == [s[i + j]] + s[i + j + 1..i + |word|];
      assert word[j..] == [word[j]] + word[j + 1..];
    }
  }

  /** Declarative reading of `WordAt`: the slice at `p` is the word and a
      boundary lies on both sides. */
  predicate WordOccursAt(s: string, word: string, p: nat) {
    p + |word| <= |s| && s[p..p + |word|] == word
    && (p == 0 || !IsWordChar(s[p - 1]))
    && (p + |word| == |s| || !IsWordChar(s[p + |word|]))
  }

  /** The scan finds a word exactly when some position from `i` on holds the
      word with a boundary on both sides. */
  lemma {:induction false} HasWordFromMeaning(s: string, word: string, i: nat)
    ensures HasWordFrom(s, word, i) <==> exists p :: i <= p && WordOccursAt(s, word, p)
    decreases |s| - i
  {
    if i + |word| <= |s| {
      SameFromMeaning(s, word, i, 0);
      HasWordFromMeaning(s, word, i + 1);
      assert word[0..] == word;
      assert WordAt(s, word, i) <==> WordOccursAt(s, word, i);
      if HasWordFrom(s, word, i + 1) {
        var p :| i + 1 <= p && WordOccursAt(s, word, p);
        assert i <= p;
      }
      if exists p :: i <= p && WordOccursAt(s, word, p) {
        var p :| i <= p && WordOccursAt(s, word, p);
        if p != i {
          assert i + 1 <= p;
        }
      }
    }
  }

  // ---------------------------------------------------------------------
  // Rule application
  // ---------------------------------------------------------------------

  /** The rule applies to the entity type: its list of types is absent or
      empty, or contains the type (compared case-sensitively). */
  predicate Applies(rule: NamingRule, entityType: string) {
    rule.entityTypes.None? || rule.entityTypes.value == [] || entityType in rule.entityTypes.value
  }

  /** The rule applies to the entity type and its pattern matches the name. */
  predicate Fires(rule: NamingRule, name: string, entityType: string) {
    Applies(rule, entityType) && Matches(rule, name)
  }

  /** `f"[{rule.severity.upper()}] {rule.message}"` */
  function FlagText(rule: NamingRule): string {
    "[" + Upper(rule.severity) + "] " + rule.message
  }

  /** The flags a list of rules produces, in declaration order. */
  function Flags(rules: seq<NamingRule>, name: string, entityType: string): seq<string> {
    if rules == [] then []
    else (if Fires(rules[0], name, entityType) then [FlagText(rules[0])] else [])
         + Flags(rules[1..], name, entityType)
  }

  /** The rules that produce a flag, in declaration order. */
  function FiringRules(rules: seq<NamingRule>, name: string, entityType: string): (r: seq<NamingRule>)
    ensures |r| <= |rules|
  {
    if rules == [] then []
    else (if Fires(rules[0], name, entityType) then [rules[0]] else [])
         + FiringRules(rules[1..], name, entityType)
  }

  // ---------------------------------------------------------------------
  // The rule table
  // ---------------------------------------------------------------------

  const BankRule := NamingRule(["bank", "banking", "bankers"],
    "Delaware requires approval from the Office of the State Bank Commissioner to use 'bank' or 'banking'.",
    "warning", None)
  const TrustRule := NamingRule(["trust"],
    "Delaware restricts use of 'trust' in entity names. Approval may be required.",
    "warning", None)
  const InsuranceRule := NamingRule(["insurance", "assurance"],
    "Delaware restricts use of 'insurance' — may require Dept. of Insurance approval.",
    "warning", None)
  const EducationRule := NamingRule(["university", "college", "academy"],
    "Using 'university', 'college', or 'academy' may require educational licensing.",
    "warning", None)
  const CooperativeRule := NamingRule(["cooperative", "co-op", "coop"],
    "Delaware cooperative entities have specific formation requirements.",
    "info", None)
  /** Entity-type suffix requirements. */
  const CorporationSuffixRule := NamingRule(["inc", "corp", "incorporated", "corporation"],
    "Suffix 'Inc.' / 'Corp.' is appropriate for Corporations, not LLCs.",
    "warning", Some(["LLC", "LP", "LLP"]))
  const LlcSuffixRule := NamingRule(["llc", "l.l.c"],
    "Suffix 'LLC' is appropriate for LLCs, not Corporations.",
    "warning", Some(["Corporation", "LP", "LLP"]))

  const DelawareRules: seq<NamingRule> := [
    BankRule, TrustRule, InsuranceRule, EducationRule, CooperativeRule,
    CorporationSuffixRule, LlcSuffixRule
  ]

  /** `RULES`: the rule list of each state that has one. */
  const RuleTable: map<string, seq<NamingRule>> := map["DE" := DelawareRules]

  const DelawareSummary :=
    "Delaware prohibits or restricts: 'bank', 'banking', 'trust', 'insurance', 'university', 'college'. "
    + "LLCs must include 'LLC' or 'Limited Liability Company' in their name. "
    + "Corporations must include 'Inc.', 'Corp.', 'Incorporated', or 'Corporation'. "
    + "Names must be distinguishable from all existing Delaware entities."

  /** `STATE_RULES_SUMMARIES` */
  const SummaryTable: map<string, string> := map["DE" := DelawareSummary]

  const NoRulesSummary := "No specific rules encoded for this state."

  /** `RULES.get(state_code.upper(), [])` */
  function RulesFor(stateCode: string): seq<NamingRule> {
    if Upper(stateCode) in RuleTable then RuleTable[Upper(stateCode)] else []
  }

  /** `get_rules_summary`: the state's summary, looked up by upper-cased code,
      or the fixed text for a state without one. */
  function RulesSummary(stateCode: string): (r: string)
    ensures Upper(stateCode) !in SummaryTable ==> r == NoRulesSummary
    ensures Upper(stateCode) in SummaryTable ==> r == SummaryTable[Upper(stateCode)]
  {
    if Upper(stateCode) in SummaryTable then SummaryTable[Upper(stateCode)] else NoRulesSummary
  }

  /** `apply_rules`: walks the state's rules in order, skips those that do not
      apply to the entity type and appends one flag for each whose pattern
      matches the name. */
  method ApplyRules(name: string, entityType: string, stateCode: string) returns (flags: seq<string>)
    ensures flags == Flags(RulesFor(stateCode), name, entityType)
  {
    flags := ApplyRuleList(RulesFor(stateCode), name, entityType);
  }

  /** The loop of `apply_rules` over one state's rule list. */
  method ApplyRuleList(rules: seq<NamingRule>, name: string, entityType: string) returns (flags: seq<string>)
    ensures flags == Flags(rules, name, entityType)
  {
    flags := [];
    var i := 0;
    while i < |rules|
      invariant 0 <= i <= |rules|
      invariant flags == Flags(rules[..i], name, entityType)
    {
      var rule := rules[i];
      FlagsInDeclarationOrder(rules[..i], [rule], name, entityType);
      assert rules[..i + 1] == rules[..i] + [rule];
      i := i + 1;
      if !Applies(rule, entityType) {
        continue;
      }
      if Matches(rule, name) {
        flags := flags + [FlagText(rule)];
      }
    }
    assert rules[..i] == rules;
  }

  // ---------------------------------------------------------------------
  // Properties
  // ---------------------------------------------------------------------

  /** Each flag is the formatted text of one firing rule, taken in
      declaration order: at most one flag per rule. */
  lemma {:induction false} FlagsOfFiringRules(rules: seq<NamingRule>, name: string, entityType: string)
    ensures |Flags(rules, name, entityType)| == |FiringRules(rules, name, entityType)| <= |rules|
    ensures forall i :: 0 <= i < |Flags(rules, name, entityType)| ==>
              Flags(rules, name, entityType)[i] == FlagText(FiringRules(rules, name, entityType)[i])
  {
    if rules != [] {
      FlagsOfFiringRules(rules[1..], name, entityType);
    }
  }

  /** A rule fires exactly when it is in the list, applies to the entity type
      and matches the name. */
  lemma {:induction false} FiringRuleMembers(rules: seq<NamingRule>, name: string, entityType: string, rule: NamingRule)
    ensures rule in FiringRules(rules, name, entityType) <==>
            rule in rules && Applies(rule, entityType) && Matches(rule, name)
  {
    if rules != [] {
      FiringRuleMembers(rules[1..], name, entityType, rule);
      assert rule in rules <==> rule == rules[0] || rule in rules[1..];
    }
  }

  /** Declaration order: the flags of a concatenated rule list are the flags
      of the first part followed by those of the second. */
  lemma {:induction false} FlagsInDeclarationOrder(first: seq<NamingRule>, second: seq<NamingRule>, name: string, entityType: string)
    ensures Flags(first + second, name, entityType) == Flags(first, name, entityType) + Flags(second, name, entityType)
  {
    if first != [] {
      assert (first + second)[1..] == first[1..] + second;
      FlagsInDeclarationOrder(first[1..], second, name, entityType);
    } else {
      assert first + second == second;
    }
  }

  /** A rule restricted to other entity types never produces a flag. */
  lemma SkippedRuleGivesNoFlag(rule: NamingRule, name: string, entityType: string)
    requires rule.entityTypes.Some? && rule.entityTypes.value != [] && entityType !in rule.entityTypes.value
    ensures Flags([rule], name, entityType) == []
  {
  }

  /** A state without rules gets no flags, and the state code is matched
      after upper-casing. */
  lemma UnknownStateHasNoRules(name: string, entityType: string, stateCode: string)
    requires Upper(stateCode) != "DE"
    ensures Flags(RulesFor(stateCode), name, entityType) == []
    ensures RulesSummary(stateCode) == NoRulesSummary
  {
  }

  lemma StateCodeIsCaseInsensitive()
    ensures RulesFor("de") == DelawareRules && RulesFor("DE") == DelawareRules
    ensures RulesSummary("de") == DelawareSummary
  {
    assert Upper("de") == "DE";
    assert Upper("DE") == "DE";
  }

  /** Entity types are compared case-sensitively: the corporation-suffix
      rule applies to "LLC" but is skipped for an entity type written "llc". */
  lemma EntityTypeIsCaseSensitive()
    ensures Applies(CorporationSuffixRule, "LLC") && !Applies(CorporationSuffixRule, "llc")
    ensures !Applies(LlcSuffixRule, "LLC") && Applies(LlcSuffixRule, "Corporation")
  {
  }
}
