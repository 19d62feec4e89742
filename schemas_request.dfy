/**
 * The input schema of the predict endpoint (app/schemas/request.py).
 */
module RequestSchemas {
  import opened Wrappers
  import opened Strings

  datatype Field = Responses | Age | Sex

  /** A validated `InputData`; `sex` is in upper case. */
  datatype InputData = InputData(responses: seq<bool>, age: int, sex: string)

  /** `validate_responses_length`. */
  function ValidateResponses(v: seq<bool>): (r: Result<seq<bool>, Field>)
    ensures r.Success? <==> |v| == 40
    ensures r.Success? ==> r.value == v
  {
    if |v| != 40 then Failure(Responses) else Success(v)
  }

  /** `Field(ge=1, le=120)` on `age`. */
  predicate AgeInRange(age: int)
  {
    1 <= age <= 120
  }

  /** `validate_sex`: accepted when its upper-case form is M or F, which is the
      value kept. */
  function ValidateSex(v: string): (r: Result<string, Field>)
    ensures r.Success? <==> Upper(v) == "M" || Upper(v) == "F"
    ensures r.Success? ==> r.value == Upper(v)
  {
    if Upper(v) != "M" && Upper(v) != "F" then Failure(Sex) else Success(Upper(v))
  }

  /** Exactly the upper- and lower-case letters m and f are accepted. */
  lemma {:induction false} ValidateSexAccepts(v: string)
    ensures ValidateSex(v).Success? <==> v in {"M", "m", "F", "f"}
    ensures ValidateSex(v).Success? ==> ValidateSex(v).value == (if v == "M" || v == "m" then "M" else "F")
  {
    if |v| == 1 {
      assert Upper(v) == [UpperChar(v[0])];
      assert v == [v[0]];
    } else {
      assert |Upper(v)| != 1;
    }
  }

  /** Normalisation is idempotent: an accepted value validates to itself. */
  lemma ValidateSexIdempotent(v: string)
    requires ValidateSex(v).Success?
    ensures ValidateSex(ValidateSex(v).value) == ValidateSex(v)
  {
    UpperIdempotent(v);
  }

  /** Validation of a whole `InputData`; failing fields in declaration order. */
  function ValidateInputData(responses: seq<bool>, age: int, sex: string): (r: Result<InputData, seq<Field>>)
    ensures r.Success? <==> |responses| == 40 && AgeInRange(age) && sex in {"M", "m", "F", "f"}
    ensures r.Success? ==> r.value.responses == responses && r.value.age == age && r.value.sex == Upper(sex)
    ensures r.Success? ==> r.value.sex == "M" || r.value.sex == "F"
    ensures r.Failure? ==>
      && (Responses in r.error <==> |responses| != 40)
      && (Age in r.error <==> !AgeInRange(age))
      && (Sex in r.error <==> sex !in {"M", "m", "F", "f"})
  {
    ValidateSexAccepts(sex);
    var q, s := ValidateResponses(responses), ValidateSex(sex);
    var errors := (if q.Success? then [] else [Responses])
                  + (if AgeInRange(age) then [] else [Age])
                  + (if s.Success? then [] else [Sex]);
    if errors == [] then Success(InputData(q.value, age, s.value)) else Failure(errors)
  }
}
