/** The allergy-risk classifier: an oil name is normalised (lower-cased,
    then trimmed) and looked up in three fixed lists, tried in order
    high, medium, low; anything else is Unknown. */
module RiskAssessment {
  import opened Strings

  datatype RiskLevel = High | Medium | Low | Unknown

  /** The verdict object: `riskLevel`, `message` and `color`. */
  datatype Assessment = Assessment(riskLevel: RiskLevel, message: string, color: string)

  const HIGH_RISK: seq<string> := ["peanut"]
  const MEDIUM_RISK: seq<string> := ["vegetable", "mixed/other"]
  const LOW_RISK: seq<string> :=
    ["canola", "olive", "coconut", "sunflower", "sesame", "avocado",
     "grapeseed", "walnut", "almond", "corn", "soybean"]

  const HIGH_MESSAGE := "High Risk - Restaurant uses peanut oil. Avoid if you have a peanut allergy."
  const MEDIUM_MESSAGE := "Medium Risk - Restaurant uses vegetable or mixed oil. Exercise caution if you have multiple allergies."
  const LOW_MESSAGE := "Low Risk - Restaurant uses oils with lower allergenic potential."
  const UNKNOWN_MESSAGE := "Unknown Risk - Oil type not recognized. Please verify with the restaurant."

  /** The label the lists are searched for: the oil type lower-cased and
      stripped of surrounding whitespace. */
  function Normalize(oilType: string): (oil: string)
    ensures IsTrimmed(oil) && |oil| <= |oilType|
    ensures forall i :: 0 <= i < |oil| ==> !('A' <= oil[i] <= 'Z')
  {
    Trim(ToLower(oilType))
  }

  /** The three membership tests, in the order the classifier tries them. */
  function Classify(oil: string): (level: RiskLevel)
    ensures level == High <==> oil in HIGH_RISK
    ensures level == Medium <==> oil in MEDIUM_RISK
    ensures level == Low <==> oil in LOW_RISK
    ensures level == Unknown <==> oil !in HIGH_RISK + MEDIUM_RISK + LOW_RISK
  {
    ListsDisjoint(oil);
    if oil in HIGH_RISK then High
    else if oil in MEDIUM_RISK then Medium
    else if oil in LOW_RISK then Low
    else Unknown
  }

  /** The verdict object returned for each level. */
  function Verdict(level: RiskLevel): (a: Assessment)
    ensures a.riskLevel == level
  {
    match level
    case High => Assessment(High, HIGH_MESSAGE, "red")
    case Medium => Assessment(Medium, MEDIUM_MESSAGE, "orange")
    case Low => Assessment(Low, LOW_MESSAGE, "green")
    case Unknown => Assessment(Unknown, UNKNOWN_MESSAGE, "gray")
  }

  /** The classifier `assessRisk`. Total: every string gets a verdict. */
  function AssessRisk(oilType: string): Assessment {
    Verdict(Classify(Normalize(oilType)))
  }

  // ---------------------------------------------------------------------
  // Lemmas

  /** No label is in two lists, so the order of the three tests does not
      matter: exactly one branch can fire. */
  lemma ListsDisjoint(oil: string)
    ensures !(oil in HIGH_RISK && oil in MEDIUM_RISK)
    ensures !(oil in HIGH_RISK && oil in LOW_RISK)
    ensures !(oil in MEDIUM_RISK && oil in LOW_RISK)
  {
  }

  /** A list entry gets the level of its list. */
  lemma ClassifyListed(oil: string)
    ensures oil in HIGH_RISK ==> Classify(oil) == High
    ensures oil in MEDIUM_RISK ==> Classify(oil) == Medium
    ensures oil in LOW_RISK ==> Classify(oil) == Low
  {
    ListsDisjoint(oil);
  }

  /** Each level is reached exactly from its own list. */
  lemma AssessRiskBuckets(oilType: string)
    ensures AssessRisk(oilType).riskLevel == High <==> Normalize(oilType) in HIGH_RISK
    ensures AssessRisk(oilType).riskLevel == Medium <==> Normalize(oilType) in MEDIUM_RISK
    ensures AssessRisk(oilType).riskLevel == Low <==> Normalize(oilType) in LOW_RISK
    ensures AssessRisk(oilType).riskLevel == Unknown <==>
      Normalize(oilType) !in HIGH_RISK + MEDIUM_RISK + LOW_RISK
  {
    var oil := Normalize(oilType);
    ListsDisjoint(oil);
    assert AssessRisk(oilType).riskLevel == Classify(oil);
  }

  /** Each level has its own colour and its own message. */
  lemma VerdictInjective(l1: RiskLevel, l2: RiskLevel)
    ensures Verdict(l1).riskLevel == l1
    ensures Verdict(l1).color == Verdict(l2).color <==> l1 == l2
    ensures Verdict(l1).message == Verdict(l2).message <==> l1 == l2
  {
    var lengths := map[High := 75, Medium := 102, Low := 64, Unknown := 74];
    assert |Verdict(l1).message| == lengths[l1] && |Verdict(l2).message| == lengths[l2];
  }

  /** Level, colour and message are in one-to-one correspondence: two
      verdicts agree on any one of them exactly when they agree on all. */
  lemma VerdictFieldsDetermineEachOther(a: string, b: string)
    ensures AssessRisk(a).color == AssessRisk(b).color <==> AssessRisk(a) == AssessRisk(b)
    ensures AssessRisk(a).message == AssessRisk(b).message <==> AssessRisk(a) == AssessRisk(b)
    ensures AssessRisk(a).riskLevel == AssessRisk(b).riskLevel <==> AssessRisk(a) == AssessRisk(b)
  {
    VerdictInjective(Classify(Normalize(a)), Classify(Normalize(b)));
  }

  /** Normalisation ignores surrounding whitespace. */
  lemma NormalizeIgnoresPadding(p: string, s: string, q: string)
    requires AllWhitespace(p) && AllWhitespace(q)
    ensures Normalize(p + s + q) == Normalize(s)
  {
    ToLowerConcat(p + s, q);
    ToLowerConcat(p, s);
    AllWhitespaceLower(p);
    AllWhitespaceLower(q);
    TrimIgnoresPadding(ToLower(p), ToLower(s), ToLower(q));
  }

  /** The verdict depends on nothing but the normalised label: letter case
      and surrounding whitespace are ignored. */
  lemma AssessRiskIgnoresCaseAndPadding(p: string, a: string, b: string, q: string)
    requires AllWhitespace(p) && AllWhitespace(q)
    requires ToLower(a) == ToLower(b)
    ensures AssessRisk(p + a + q) == AssessRisk(b)
  {
    NormalizeIgnoresPadding(p, a, q);
  }

  /** A label that lower-cases to a list entry, padded with any whitespace,
      normalises to that entry. */
  lemma NormalizePaddedLabel(p: string, name: string, q: string)
    requires AllWhitespace(p) && AllWhitespace(q)
    requires ToLower(name) in HIGH_RISK + MEDIUM_RISK + LOW_RISK
    ensures Normalize(p + name + q) == ToLower(name)
  {
    var oil := ToLower(name);
    NormalizeIgnoresPadding(p, name, q);
    EntryIsTrimmed(oil);
    TrimOfTrimmed(oil);
  }

  /** No list entry has whitespace at its ends. */
  lemma EntryIsTrimmed(oil: string)
    requires oil in HIGH_RISK + MEDIUM_RISK + LOW_RISK
    ensures IsTrimmed(oil)
  {
    var i :| 0 <= i < |HIGH_RISK + MEDIUM_RISK + LOW_RISK| && (HIGH_RISK + MEDIUM_RISK + LOW_RISK)[i] == oil;
    assert 'a' <= oil[0] <= 'z' && 'a' <= oil[|oil| - 1] <= 'z';
  }

  /** A label that lower-cases to a list entry gets that entry's level. */
  lemma LabelLevel(name: string)
    requires ToLower(name) in HIGH_RISK + MEDIUM_RISK + LOW_RISK
    ensures AssessRisk(name).riskLevel == Classify(ToLower(name))
  {
    EntryIsTrimmed(ToLower(name));
    TrimOfTrimmed(ToLower(name));
  }

  /** "peanut", in any letter case and with any surrounding whitespace, is
      High and red. */
  lemma PeanutIsHigh(p: string, name: string, q: string)
    requires AllWhitespace(p) && AllWhitespace(q)
    requires ToLower(name) == "peanut"
    ensures AssessRisk(p + name + q) == Assessment(High, HIGH_MESSAGE, "red")
  {
    NormalizePaddedLabel(p, name, q);
  }

  /** "vegetable" and "mixed/other", in any case and padding, are Medium
      and orange. */
  lemma VegetableAndMixedAreMedium(p: string, name: string, q: string)
    requires AllWhitespace(p) && AllWhitespace(q)
    requires ToLower(name) in MEDIUM_RISK
    ensures AssessRisk(p + name + q) == Assessment(Medium, MEDIUM_MESSAGE, "orange")
  {
    NormalizePaddedLabel(p, name, q);
    ListsDisjoint(ToLower(name));
  }

  /** The eleven low-risk oils, in any case and padding, are Low and green. */
  lemma LowRiskOilsAreLow(p: string, name: string, q: string)
    requires AllWhitespace(p) && AllWhitespace(q)
    requires ToLower(name) in LOW_RISK
    ensures AssessRisk(p + name + q) == Assessment(Low, LOW_MESSAGE, "green")
  {
    NormalizePaddedLabel(p, name, q);
    ListsDisjoint(ToLower(name));
  }

  /** The empty string, and whitespace alone, are Unknown and gray. */
  lemma BlankIsUnknown(s: string)
    requires AllWhitespace(s)
    ensures AssessRisk(s) == Assessment(Unknown, UNKNOWN_MESSAGE, "gray")
  {
    AllWhitespaceLower(s);
    TrimEndEmpty(ToLower(s));
    assert Normalize(s) == [];
  }

  /** Lower-casing then trimming is trimming then lower-casing. */
  lemma NormalizeIsLowerOfTrim(oilType: string)
    ensures Normalize(oilType) == ToLower(Trim(oilType))
  {
    TrimToLowerCommute(oilType);
  }
}
