/**
 * Worked example of the Delaware rule table: the name "Acme Bank Inc"
 * registered as an LLC.
 */
module RulesExamples {
  import opened Text
  import opened Rules

  const Lowered := "acme bank inc"

  lemma LowerPieces()
    ensures Lower("Acme") == "acme" && Lower(" Bank") == " bank" && Lower(" Inc") == " inc"
  {
  }

  lemma AcmeLowered()
    ensures Lower("Acme Bank Inc") == Lowered
  {
    LowerPieces();
    assert "Acme Bank Inc" == "Acme" + (" Bank" + " Inc");
    assert Lowered == "acme" + (" bank" + " inc");
    LowerAppend("Acme", " Bank" + " Inc");
    LowerAppend(" Bank", " Inc");
  }

  lemma AcmeBankWord()
    ensures HasWordFrom(Lowered, "bank", 0)
  {
    assert WordAt(Lowered, "bank", 5);
  }

  lemma AcmeMatchesBank()
    ensures Matches(BankRule, "Acme Bank Inc")
  {
    AcmeLowered();
    AcmeBankWord();
    var words := BankRule.words;
    assert words[0] == "bank";
    assert AnyWordFrom(Lowered, words, 0);
  }

  lemma AcmeIncWord()
    ensures HasWordFrom(Lowered, "inc", 0)
  {
    assert WordAt(Lowered, "inc", 10);
  }

  lemma AcmeMatchesInc()
    ensures Matches(CorporationSuffixRule, "Acme Bank Inc")
  {
    AcmeLowered();
    AcmeIncWord();
    var words := CorporationSuffixRule.words;
    assert words[0] == "inc";
    assert AnyWordFrom(Lowered, words, 0);
  }

  lemma AcmeOtherWords()
    ensures !HasWordFrom(Lowered, "trust", 0)
    ensures !HasWordFrom(Lowered, "insurance", 0) && !HasWordFrom(Lowered, "assurance", 0)
  {
  }

  lemma AcmeEducationWords()
    ensures !HasWordFrom(Lowered, "university", 0) && !HasWordFrom(Lowered, "college", 0)
    ensures !HasWordFrom(Lowered, "academy", 0)
  {
  }

  lemma AcmeCooperativeWords()
    ensures !HasWordFrom(Lowered, "cooperative", 0) && !HasWordFrom(Lowered, "co-op", 0)
    ensures !HasWordFrom(Lowered, "coop", 0)
  {
    assert !HasWordFrom(Lowered, "coop", 5);
  }

  lemma AcmeMissesTrust()
    ensures !Matches(TrustRule, "Acme Bank Inc")
  {
    AcmeLowered();
    AcmeOtherWords();
    assert TrustRule.words == ["trust"];
  }

  lemma AcmeMissesInsurance()
    ensures !Matches(InsuranceRule, "Acme Bank Inc")
  {
    AcmeLowered();
    AcmeOtherWords();
    assert InsuranceRule.words == ["insurance", "assurance"];
  }

  lemma AcmeMissesEducation()
    ensures !Matches(EducationRule, "Acme Bank Inc")
  {
    AcmeLowered();
    AcmeEducationWords();
    assert EducationRule.words == ["university", "college", "academy"];
  }

  lemma AcmeMissesCooperative()
    ensures !Matches(CooperativeRule, "Acme Bank Inc")
  {
    AcmeLowered();
    AcmeCooperativeWords();
    assert CooperativeRule.words == ["cooperative", "co-op", "coop"];
  }

  /** The rule-by-rule walk over a seven-rule list where only the first and
      the sixth rule fire. */
  lemma FirstAndSixthFire(rules: seq<NamingRule>, name: string, entityType: string)
    requires |rules| == 7
    requires Fires(rules[0], name, entityType) && Fires(rules[5], name, entityType)
    requires !Fires(rules[1], name, entityType) && !Fires(rules[2], name, entityType)
    requires !Fires(rules[3], name, entityType) && !Fires(rules[4], name, entityType)
    requires !Fires(rules[6], name, entityType)
    ensures Flags(rules, name, entityType) == [FlagText(rules[0]), FlagText(rules[5])]
  {
    assert rules[6..][1..] == [];
    assert Flags(rules[6..], name, entityType) == [];
    assert rules[5..][1..] == rules[6..];
    assert Flags(rules[5..], name, entityType) == [FlagText(rules[5])];
    assert rules[4..][1..] == rules[5..];
    assert Flags(rules[4..], name, entityType) == [FlagText(rules[5])];
    assert rules[3..][1..] == rules[4..];
    assert Flags(rules[3..], name, entityType) == [FlagText(rules[5])];
    assert rules[2..][1..] == rules[3..];
    assert Flags(rules[2..], name, entityType) == [FlagText(rules[5])];
    assert rules[1..][1..] == rules[2..];
    assert Flags(rules[1..], name, entityType) == [FlagText(rules[5])];
  }

  lemma AcmeFires(name: string, entityType: string)
    requires name == "Acme Bank Inc" && entityType == "LLC"
    ensures Fires(BankRule, name, entityType) && Fires(CorporationSuffixRule, name, entityType)
    ensures !Fires(TrustRule, name, entityType) && !Fires(InsuranceRule, name, entityType)
    ensures !Fires(EducationRule, name, entityType) && !Fires(CooperativeRule, name, entityType)
    ensures !Fires(LlcSuffixRule, name, entityType)
  {
    AcmeMatchesBank();
    AcmeMatchesInc();
    AcmeMissesTrust();
    AcmeMissesInsurance();
    AcmeMissesEducation();
    AcmeMissesCooperative();
    EntityTypeIsCaseSensitive();
  }

  lemma DelawareTable(stateCode: string)
    requires Upper(stateCode) == "DE"
    ensures RulesFor(stateCode) == DelawareRules
    ensures |DelawareRules| == 7 && DelawareRules[0] == BankRule && DelawareRules[1] == TrustRule
    ensures DelawareRules[2] == InsuranceRule && DelawareRules[3] == EducationRule
    ensures DelawareRules[4] == CooperativeRule && DelawareRules[5] == CorporationSuffixRule
    ensures DelawareRules[6] == LlcSuffixRule
  {
  }

  /** "Acme Bank Inc" as an LLC in Delaware (state code in any case): the
      bank warning, then the corporation-suffix warning; the LLC-suffix rule
      does not apply to an LLC, and both flags carry the "[WARNING]" tag. */
  lemma AcmeBankIncExample(name: string, entityType: string, stateCode: string)
    requires name == "Acme Bank Inc" && entityType == "LLC" && Upper(stateCode) == "DE"
    ensures Flags(RulesFor(stateCode), name, entityType) == [FlagText(BankRule), FlagText(CorporationSuffixRule)]
    ensures Upper(BankRule.severity) == Upper(CorporationSuffixRule.severity) == "WARNING"
  {
    AcmeFires(name, entityType);
    DelawareTable(stateCode);
    FirstAndSixthFire(DelawareRules, name, entityType);
    WarningTag();
  }

  lemma WarningTag()
    ensures Upper(BankRule.severity) == Upper(CorporationSuffixRule.severity) == "WARNING"
  {
    var u := Upper("warning");
    assert |u| == 7;
    assert u[0] == 'W' && u[1] == 'A' && u[2] == 'R' && u[3] == 'N';
    assert u[4] == 'I' && u[5] == 'N' && u[6] == 'G';
  }
}
