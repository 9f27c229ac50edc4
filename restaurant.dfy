/** The restaurant document: the closed list of oil labels, the field rules
    of its schema (`name` required and trimmed, `oilType` required and drawn
    from the list, `submittedDate` defaulting to the creation time), and the
    collection that `create` validates against and inserts into. */
module Restaurant {
  import opened Wrappers
  import opened Strings
  import opened RiskAssessment

  /** The accepted oil labels, case-sensitive, in declaration order. */
  const OIL_TYPES: seq<string> :=
    ["Peanut", "Canola", "Vegetable", "Olive", "Coconut", "Sunflower", "Sesame",
     "Avocado", "Grapeseed", "Walnut", "Almond", "Corn", "Soybean", "Mixed/Other"]

  /** A stored restaurant; `submittedDate` is a timestamp. */
  datatype Record = Record(name: string, oilType: string, submittedDate: int)

  /** One failed path of a validation, as `path: message` in the error text. */
  datatype FieldError = FieldError(path: string, message: string)

  const NAME_REQUIRED := "Restaurant name is required"
  const OIL_TYPE_REQUIRED := "Oil type is required"

  /** The enum message template is `{VALUE} is not a valid oil type`: the
      placeholder followed by this tail. */
  const VALUE_PLACEHOLDER := "{VALUE}"
  const ENUM_MESSAGE_TAIL := " is not a valid oil type"

  /** The enum message for a rejected value. The placeholder is replaced
      with `String.prototype.replace`, which reads the value as a
      replacement template: the placeholder stands at the very start of the
      message, so nothing precedes the match and the tail follows it. */
  function InvalidOilTypeMessage(value: string): (m: string)
    ensures '$' !in value ==> m == value + ENUM_MESSAGE_TAIL
  {
    ExpandPlain(value, VALUE_PLACEHOLDER, "", ENUM_MESSAGE_TAIL);
    ExpandReplacement(value, VALUE_PLACEHOLDER, "", ENUM_MESSAGE_TAIL) + ENUM_MESSAGE_TAIL
  }

  /** The `name` path: the value is trimmed when it is set, and then the
      `required` validator rejects an absent or empty string. */
  function CheckName(name: Option<string>): (r: Result<string, FieldError>)
    ensures r.Success? <==> name.Some? && Trim(name.value) != ""
    ensures r.Success? ==> r.value == Trim(name.value) && r.value != "" && IsTrimmed(r.value)
    ensures r.Failure? ==> r.error == FieldError("name", NAME_REQUIRED)
  {
    match name
    case None => Failure(FieldError("name", NAME_REQUIRED))
    case Some(s) =>
      var t := Trim(s);
      if t == "" then Failure(FieldError("name", NAME_REQUIRED)) else Success(t)
  }

  /** The `oilType` path: `required` first, then the enum; the first
      failing validator is the one reported. */
  function CheckOilType(oilType: Option<string>): (r: Result<string, FieldError>)
    ensures r.Success? <==> oilType.Some? && oilType.value in OIL_TYPES
    ensures r.Success? ==> r.value == oilType.value
    ensures r.Failure? ==> r.error.path == "oilType"
  {
    EmptyIsNoOilType();
    match oilType
    case None => Failure(FieldError("oilType", OIL_TYPE_REQUIRED))
    case Some(v) =>
      if v == "" then Failure(FieldError("oilType", OIL_TYPE_REQUIRED))
      else if v !in OIL_TYPES then Failure(FieldError("oilType", InvalidOilTypeMessage(v)))
      else Success(v)
  }

  function ErrorsOf(r: Result<string, FieldError>): seq<FieldError> {
    if r.Failure? then [r.error] else []
  }

  /** Schema validation of a new document. Every path is validated and all
      failures are collected, in schema order; `submittedDate` takes the
      creation time `now` when it is not supplied. */
  function Validate(name: Option<string>, oilType: Option<string>, submittedDate: Option<int>, now: int)
    : (r: Result<Record, seq<FieldError>>)
    ensures r.Success? <==>
      name.Some? && Trim(name.value) != "" && oilType.Some? && oilType.value in OIL_TYPES
    ensures r.Success? ==>
      && r.value.name == Trim(name.value)
      && r.value.name != "" && IsTrimmed(r.value.name)
      && r.value.oilType == oilType.value
      && r.value.submittedDate == (if submittedDate.Some? then submittedDate.value else now)
    ensures r.Failure? ==> 1 <= |r.error| <= 2
    ensures r.Failure? ==>
      (FieldError("name", NAME_REQUIRED) in r.error <==> name.None? || Trim(name.value) == "")
    ensures r.Failure? ==>
      (FieldError("oilType", OIL_TYPE_REQUIRED) in r.error <==> oilType.None? || oilType.value == "")
    ensures r.Failure? && oilType.Some? ==>
      (FieldError("oilType", InvalidOilTypeMessage(oilType.value)) in r.error <==>
       oilType.value != "" && oilType.value !in OIL_TYPES)
    ensures r.Failure? ==>
      r.error == (if name.None? || Trim(name.value) == "" then [FieldError("name", NAME_REQUIRED)] else [])
               + (if oilType.None? || oilType.value == "" then [FieldError("oilType", OIL_TYPE_REQUIRED)]
                  else if oilType.value !in OIL_TYPES then [FieldError("oilType", InvalidOilTypeMessage(oilType.value))]
                  else [])
  {
    var n, o := CheckName(name), CheckOilType(oilType);
    if n.Success? && o.Success? then
      Success(Record(n.value, o.value, if submittedDate.Some? then submittedDate.value else now))
    else
      var errors := ErrorsOf(n) + ErrorsOf(o);
      assert n.Failure? ==> errors[0] == n.error;
      Failure(errors)
  }

  /** The `path: message` list of a validation error. */
  function JoinErrors(errors: seq<FieldError>): string {
    if errors == [] then ""
    else
      var head := errors[0].path + ": " + errors[0].message;
      if |errors| == 1 then head else head + ", " + JoinErrors(errors[1..])
  }

  /** The message of the validation error that `create` throws. */
  function ValidationMessage(errors: seq<FieldError>): string {
    "Restaurant validation failed: " + JoinErrors(errors)
  }

  /** A single failed path reads `<model> validation failed: <path>: <message>`. */
  lemma ValidationMessageOfOne(e: FieldError)
    ensures ValidationMessage([e]) == "Restaurant validation failed: " + e.path + ": " + e.message
  {
  }

  /** Two failed paths are listed in order, separated by a comma. */
  lemma ValidationMessageOfTwo(e1: FieldError, e2: FieldError)
    ensures ValidationMessage([e1, e2])
         == "Restaurant validation failed: " + e1.path + ": " + e1.message + ", " + e2.path + ": " + e2.message
  {
    assert [e1, e2][1..] == [e2];
    assert JoinErrors([e2]) == e2.path + ": " + e2.message;
  }

  /** What `create` yields: the stored record, or the message of the error
      it throws (a validation error, or the insert's own failure
      `writeFault`). */
  function CreateOutcome(name: Option<string>, oilType: Option<string>, submittedDate: Option<int>,
                         now: int, writeFault: Option<string>): Result<Record, string>
  {
    match Validate(name, oilType, submittedDate, now)
    case Failure(errors) => Failure(ValidationMessage(errors))
    case Success(record) => if writeFault.Some? then Failure(writeFault.value) else Success(record)
  }

  /** The records a `create` outcome adds to the collection. */
  function Inserted(outcome: Result<Record, string>): seq<Record> {
    if outcome.Success? then [outcome.value] else []
  }

  /** The restaurants collection, in insertion order. */
  class RestaurantCollection {
    var records: seq<Record>

    /** Every stored record passed validation. */
    ghost predicate Valid()
      reads this
    {
      forall r :: r in records ==> r.name != "" && IsTrimmed(r.name) && r.oilType in OIL_TYPES
    }

    constructor ()
      ensures Valid() && records == []
    {
      records := [];
    }

    /** `Restaurant.create`: validate, then insert one document. Nothing is
        stored when validation or the insert fails, and nothing is merged:
        an identical submission is stored again. */
    method Create(name: Option<string>, oilType: Option<string>, submittedDate: Option<int>,
                  now: int, writeFault: Option<string>) returns (outcome: Result<Record, string>)
      requires Valid()
      modifies this
      ensures Valid()
      ensures outcome == CreateOutcome(name, oilType, submittedDate, now, writeFault)
      ensures records == old(records) + Inserted(outcome)
      ensures |records| == |old(records)| + (if outcome.Success? then 1 else 0)
    {
      var validated := Validate(name, oilType, submittedDate, now);
      if validated.Failure? {
        outcome := Failure(ValidationMessage(validated.error));
      } else if writeFault.Some? {
        outcome := Failure(writeFault.value);
      } else {
        records := records + [validated.value];
        outcome := Success(validated.value);
      }
    }
  }

  // ---------------------------------------------------------------------
  // Lemmas

  /** The list holds fourteen distinct labels. */
  lemma OilTypesDistinct()
    ensures |OIL_TYPES| == 14
    ensures forall i, j :: 0 <= i < j < |OIL_TYPES| ==> OIL_TYPES[i] != OIL_TYPES[j]
  {
  }

  /** Every accepted label, lower-cased, is in exactly one of the
      classifier's lists: Peanut is High, Vegetable and Mixed/Other are
      Medium, the other eleven are Low. */
  lemma OilTypeRisk(i: nat)
    requires i < |OIL_TYPES|
    ensures AssessRisk(OIL_TYPES[i]).riskLevel ==
      if i == 0 then High else if i == 2 || i == 13 then Medium else Low
  {
    var v := OIL_TYPES[i];
    if i == 0 {
      LowerLabel("Peanut", "peanut");
      assert ToLower(v) == HIGH_RISK[0];
    } else if i == 2 {
      LowerLabel("Vegetable", "vegetable");
      assert ToLower(v) == MEDIUM_RISK[0];
    } else if i == 13 {
      LowerLabel("Mixed/Other", "mixed/other");
      assert ToLower(v) == MEDIUM_RISK[1];
    } else {
      LowOilTypeLowered(i);
    }
    ClassifyListed(ToLower(v));
    LabelLevel(v);
  }

  /** The eleven low-risk labels lower-case to the classifier's low list,
      in the same order. */
  lemma LowOilTypeLowered(i: nat)
    requires i < |OIL_TYPES| && i != 0 && i != 2 && i != 13
    ensures ToLower(OIL_TYPES[i]) == LOW_RISK[if i == 1 then 0 else i - 2]
  {
    match i
    case 1 => LowerLabel("Canola", "canola");
    case 3 => LowerLabel("Olive", "olive");
    case 4 => LowerLabel("Coconut", "coconut");
    case 5 => LowerLabel("Sunflower", "sunflower");
    case 6 => LowerLabel("Sesame", "sesame");
    case 7 => LowerLabel("Avocado", "avocado");
    case 8 => LowerLabel("Grapeseed", "grapeseed");
    case 9 => LowerLabel("Walnut", "walnut");
    case 10 => LowerLabel("Almond", "almond");
    case 11 => LowerLabel("Corn", "corn");
    case 12 => LowerLabel("Soybean", "soybean");
  }

  /** Lower-casing a label character by character. */
  lemma LowerLabel(v: string, lower: string)
    requires |v| == |lower|
    requires forall k :: 0 <= k < |v| ==> LowerChar(v[k]) == lower[k]
    ensures ToLower(v) == lower
  {
  }

  /** No record that passes validation is classified Unknown. */
  lemma ValidRecordHasKnownRisk(name: Option<string>, oilType: Option<string>, submittedDate: Option<int>, now: int)
    requires Validate(name, oilType, submittedDate, now).Success?
    ensures AssessRisk(Validate(name, oilType, submittedDate, now).value.oilType).riskLevel != Unknown
  {
    OilTypeHasKnownRisk(oilType.value);
  }

  /** No accepted label is classified Unknown. */
  lemma OilTypeHasKnownRisk(v: string)
    requires v in OIL_TYPES
    ensures AssessRisk(v).riskLevel != Unknown
  {
    var i :| 0 <= i < |OIL_TYPES| && OIL_TYPES[i] == v;
    OilTypeRisk(i);
  }

  /** A label outside the list is rejected with the enum message naming
      the rejected value, and nothing else is reported when the name is
      acceptable. */
  lemma InvalidOilTypeRejected(name: string, oilType: string, submittedDate: Option<int>, now: int)
    requires Trim(name) != ""
    requires oilType != "" && oilType !in OIL_TYPES
    ensures Validate(Some(name), Some(oilType), submittedDate, now)
         == Failure([FieldError("oilType", InvalidOilTypeMessage(oilType))])
  {
    var e := FieldError("oilType", InvalidOilTypeMessage(oilType));
    assert ErrorsOf(CheckName(Some(name))) == [];
    assert ErrorsOf(CheckOilType(Some(oilType))) == [e];
    assert [] + [e] == [e];
  }

  /** A `$&` after a plain value turns into the placeholder itself. */
  lemma InvalidOilTypeMessageSubstitution(value: string)
    ensures '$' !in value ==>
      InvalidOilTypeMessage(value + "$&") == value + "{VALUE}" + " is not a valid oil type"
  {
    if '$' !in value {
      ExpandPlainPrefix(value, "$&", VALUE_PLACEHOLDER, "", ENUM_MESSAGE_TAIL);
    }
  }

  /** The empty string is not a label, so `required` and the enum agree on it. */
  lemma EmptyIsNoOilType()
    ensures "" !in OIL_TYPES
  {
    forall k | 0 <= k < |OIL_TYPES| ensures |OIL_TYPES[k]| > 0 {
    }
  }

  /** The enum is case-sensitive: "Peanut" is accepted, "peanut" is not. */
  lemma OilTypesCaseSensitive()
    ensures "Peanut" in OIL_TYPES && "peanut" !in OIL_TYPES
  {
  }
}
