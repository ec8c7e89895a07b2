/** The validators and records of `src/time_monitor/core.py`: the greeting,
    the checked sum and its result record, the user profile with its field
    constraints and normalisation, and the application configuration. */
module Core {
  import opened Wrappers
  import opened Text
  import opened Clock

  /** A dynamically typed Python argument, as far as an `isinstance` check sees it. */
  datatype Value = Str(s: string) | Int(i: int) | Float(f: real) | Other

  /** `isinstance(v, (int, float))` */
  predicate IsNumber(v: Value) { v.Int? || v.Float? }

  /** One entry of a pydantic `ValidationError`: a field whose constraint failed,
      or an error raised by the model validator. */
  datatype Failure = FieldFailure(field: string) | ModelFailure(message: string)

  datatype Error =
    | TypeError(message: string)
    | ValueError(message: string)
    | ValidationError(failures: seq<Failure>)

  // ===========================================================================
  // greet

  function Greet(name: Value): (r: Result<string, Error>)
    ensures r.Failure? <==> !name.Str? || AllSpace(name.s)
    ensures !name.Str? ==> r == Failure(TypeError("Name must be a string"))
    ensures name.Str? && AllSpace(name.s) ==> r == Failure(ValueError("Name cannot be empty"))
    ensures r.Success? ==> r.value == "Hello, " + Strip(name.s) + "!"
  {
    if !name.Str? then Failure(TypeError("Name must be a string"))
    else if Strip(name.s) == [] then Failure(ValueError("Name cannot be empty"))
    else Success("Hello, " + Strip(name.s) + "!")
  }

  /** Whitespace around a name never changes the greeting. */
  lemma GreetIgnoresPadding(before: string, name: string, after: string)
    requires AllSpace(before) && AllSpace(after) && IsStripped(name)
    ensures Greet(Str(before + name + after)) == Greet(Str(name))
  {
    assert Strip(before + name + after) == Strip(name) by {
      StrippedIsFixed(name);
      StripOfPadded(before, name, after);
    }
    GreetDependsOnStrip(before + name + after, name);
  }

  /** Greet looks at a string only through its stripped form. */
  lemma GreetDependsOnStrip(a: string, b: string)
    requires Strip(a) == Strip(b)
    ensures Greet(Str(a)) == Greet(Str(b))
  {
  }

  /** The name can be read back out of a greeting, stripped and non-blank. */
  lemma GreetingHoldsStrippedName(name: string)
    requires Greet(Str(name)).Success?
    ensures var g := Greet(Str(name)).value;
      |g| > 8 && g[..7] == "Hello, " && g[|g| - 1] == '!'
      && g[7..|g| - 1] == Strip(name) && IsStripped(g[7..|g| - 1])
  {
    var g := Greet(Str(name)).value;
    assert g == "Hello, " + Strip(name) + "!";
    assert g[7..|g| - 1] == Strip(name);
  }

  // ===========================================================================
  // calculate_sum and CalculationResult

  /** The type checks of `CalculationResult.__post_init__`, first failure wins. */
  function CheckResultTypes(a: Value, b: Value, operation: Value, result: Value): (r: Outcome<Error>)
    ensures r.Pass? <==> IsNumber(a) && IsNumber(b) && operation.Str? && IsNumber(result)
    ensures !IsNumber(a) ==> r == Fail(TypeError("operand_a must be a number"))
    ensures IsNumber(a) && !IsNumber(b) ==> r == Fail(TypeError("operand_b must be a number"))
    ensures IsNumber(a) && IsNumber(b) && !operation.Str? ==> r == Fail(TypeError("operation must be a string"))
    ensures IsNumber(a) && IsNumber(b) && operation.Str? && !IsNumber(result) ==>
      r == Fail(TypeError("result must be a number"))
  {
    if !IsNumber(a) then Fail(TypeError("operand_a must be a number"))
    else if !IsNumber(b) then Fail(TypeError("operand_b must be a number"))
    else if !operation.Str? then Fail(TypeError("operation must be a string"))
    else if !IsNumber(result) then Fail(TypeError("result must be a number"))
    else Pass
  }

  /** A value of `CalculationResult.to_dict()`: a field as stored, or the timestamp. */
  datatype Entry = Field(value: Value) | Stamp(at: Option<Timestamp>)

  class CalculationResult {
    var operandA: Value
    var operandB: Value
    var operation: Value
    var result: Value
    var timestamp: Option<Timestamp>

    /** The dataclass's generated field assignment, before `__post_init__` runs. */
    constructor (operandA: Value, operandB: Value, operation: Value, result: Value, timestamp: Option<Timestamp>)
      ensures this.operandA == operandA && this.operandB == operandB
      ensures this.operation == operation && this.result == result
      ensures this.timestamp == timestamp
    {
      this.operandA := operandA;
      this.operandB := operandB;
      this.operation := operation;
      this.result := result;
      this.timestamp := timestamp;
    }

    /** `__post_init__`: stamp the record if it has no timestamp, then check the field types. */
    method PostInit(now: Timestamp) returns (outcome: Outcome<Error>)
      modifies this`timestamp
      ensures timestamp == Some(old(timestamp).GetOr(now))
      ensures outcome == CheckResultTypes(operandA, operandB, operation, result)
    {
      if timestamp.None? {
        timestamp := Some(now);
      }
      if !IsNumber(operandA) {
        return Fail(TypeError("operand_a must be a number"));
      }
      if !IsNumber(operandB) {
        return Fail(TypeError("operand_b must be a number"));
      }
      if !operation.Str? {
        return Fail(TypeError("operation must be a string"));
      }
      if !IsNumber(result) {
        return Fail(TypeError("result must be a number"));
      }
      outcome := Pass;
    }

    /** `to_dict()`: one entry per field, under the field's Python name. */
    function ToDict(): (d: map<string, Entry>)
      reads this
      ensures d.Keys == {"operand_a", "operand_b", "operation", "result", "timestamp"}
      ensures d["operand_a"] == Field(operandA) && d["operand_b"] == Field(operandB)
      ensures d["operation"] == Field(operation) && d["result"] == Field(result)
      ensures d["timestamp"] == Stamp(timestamp)
    {
      map["operand_a" := Field(operandA), "operand_b" := Field(operandB),
          "operation" := Field(operation), "result" := Field(result),
          "timestamp" := Stamp(timestamp)]
    }
  }

  /** `CalculationResult(...)`: the generated `__init__` followed by `__post_init__`. */
  method NewCalculationResult(a: Value, b: Value, operation: Value, result: Value,
                              timestamp: Option<Timestamp>, now: Timestamp)
    returns (r: Result<CalculationResult, Error>)
    ensures r.Failure? <==> CheckResultTypes(a, b, operation, result).Fail?
    ensures r.Failure? ==> r.error == CheckResultTypes(a, b, operation, result).error
    ensures r.Success? ==> fresh(r.value)
    ensures r.Success? ==>
      && r.value.operandA == a && r.value.operandB == b
      && r.value.operation == operation && r.value.result == result
      && r.value.timestamp == Some(timestamp.GetOr(now))
  {
    var record := new CalculationResult(a, b, operation, result, timestamp);
    var outcome := record.PostInit(now);
    if outcome.Fail? {
      return Failure(outcome.error);
    }
    r := Success(record);
  }

  function AsReal(v: Value): real
    requires IsNumber(v)
  {
    if v.Int? then v.i as real else v.f
  }

  /** Python `a + b` on numbers: integer when both are integers, float otherwise. */
  function Add(a: Value, b: Value): (r: Value)
    requires IsNumber(a) && IsNumber(b)
    ensures IsNumber(r)
    ensures r.Int? <==> a.Int? && b.Int?
    ensures AsReal(r) == AsReal(a) + AsReal(b)
  {
    if a.Int? && b.Int? then Int(a.i + b.i) else Float(AsReal(a) + AsReal(b))
  }

  lemma AddCommutes(a: Value, b: Value)
    requires IsNumber(a) && IsNumber(b)
    ensures Add(a, b) == Add(b, a)
  {
  }

  /** `calculate_sum(a, b)` */
  method CalculateSum(a: Value, b: Value, now: Timestamp) returns (r: Result<CalculationResult, Error>)
    ensures !IsNumber(a) || !IsNumber(b) ==> r == Failure(TypeError("Both arguments must be numbers"))
    ensures IsNumber(a) && IsNumber(b) ==> r.Success? && fresh(r.value)
    ensures r.Success? ==>
      && r.value.operandA == a && r.value.operandB == b
      && r.value.operation == Str("addition") && r.value.result == Add(a, b)
      && r.value.timestamp == Some(now)
  {
    if !IsNumber(a) || !IsNumber(b) {
      return Failure(TypeError("Both arguments must be numbers"));
    }
    var sum := Add(a, b);
    r := NewCalculationResult(a, b, Str("addition"), sum, None, now);
  }

  // ===========================================================================
  // UserProfile

  predicate NameLengthOk(name: string) { 1 <= |name| <= 100 }

  predicate AgeOk(age: Option<int>) { age.None? || 0 <= age.value <= 120 }

  /** No '@' among e[lo..hi]. */
  predicate NoAtIn(e: string, lo: int, hi: int) {
    forall j :: lo <= j < hi && 0 <= j < |e| ==> e[j] != '@'
  }

  /** Index of the first '@' (|e| when there is none). */
  function IndexOfAt(e: string): (i: nat)
    ensures i <= |e|
    ensures NoAtIn(e, 0, i)
    ensures i < |e| ==> e[i] == '@'
  {
    if e == [] || e[0] == '@' then 0 else 1 + IndexOfAt(e[1..])
  }

  /** The email check as the validator evaluates it: one '@', something before
      it, and a '.' strictly inside the part after it. */
  predicate IsValidEmail(e: string) {
    var at := IndexOfAt(e);
    && 0 < at < |e|
    && NoAtIn(e, at + 1, |e|)
    && exists k :: at + 1 < k < |e| - 1 && e[k] == '.'
  }

  /** The pattern `^[^@]+@[^@]+\.[^@]+$` read position by position: a non-empty
      '@'-free run, '@' at i, a non-empty '@'-free run, '.' at k, a non-empty
      '@'-free run, and nothing else. */
  ghost predicate MatchesEmailPattern(e: string) {
    exists i, k :: 0 < i && i + 1 < k < |e| - 1 && e[i] == '@' && e[k] == '.'
      && NoAtIn(e, 0, i) && NoAtIn(e, i + 1, k) && NoAtIn(e, k + 1, |e|)
  }

  lemma EmailCheckMatchesPattern(e: string)
    ensures IsValidEmail(e) <==> MatchesEmailPattern(e)
  {
    if IsValidEmail(e) {
      EmailCheckGivesPattern(e);
    }
    if MatchesEmailPattern(e) {
      var i, k :| 0 < i && i + 1 < k < |e| - 1 && e[i] == '@' && e[k] == '.'
        && NoAtIn(e, 0, i) && NoAtIn(e, i + 1, k) && NoAtIn(e, k + 1, |e|);
      EmailPatternPassesCheck(e, i, k);
    }
  }

  lemma EmailCheckGivesPattern(e: string)
    requires IsValidEmail(e)
    ensures MatchesEmailPattern(e)
  {
    var i := IndexOfAt(e);
    var k :| i + 1 < k < |e| - 1 && e[k] == '.';
    assert NoAtIn(e, i + 1, k) && NoAtIn(e, k + 1, |e|);
  }

  lemma EmailPatternPassesCheck(e: string, i: nat, k: nat)
    requires 0 < i && i + 1 < k < |e| - 1 && e[i] == '@' && e[k] == '.'
    requires NoAtIn(e, 0, i) && NoAtIn(e, i + 1, k) && NoAtIn(e, k + 1, |e|)
    ensures IsValidEmail(e)
  {
    IndexOfAtIs(e, i);
    assert NoAtIn(e, i + 1, |e|);
  }

  /** The first '@' is the one with no '@' before it. */
  lemma IndexOfAtIs(e: string, i: nat)
    requires i <= |e| && NoAtIn(e, 0, i) && (i < |e| ==> e[i] == '@')
    ensures IndexOfAt(e) == i
  {
  }

  lemma EmailExampleAccepted()
    ensures IsValidEmail("john@example.com")
  {
    EmailPatternPassesCheck("john@example.com", 4, 12);
  }

  lemma EmailExamplesRejected()
    ensures !IsValidEmail("invalid-email")
    ensures !IsValidEmail("@example.com")
    ensures !IsValidEmail("john@")
  {
    IndexOfAtIs("john@", 4);
    IndexOfAtIs("@example.com", 0);
    IndexOfAtIs("invalid-email", 13);
  }

  /** The fields of `UserProfile` that carry constraints, in declaration order. */
  const FieldOrder: seq<string> := ["name", "email", "age"]

  /** Position of a constrained field in declaration order. */
  function FieldRank(field: string): nat {
    if field == "name" then 0 else if field == "email" then 1 else 2
  }

  /** The pydantic field constraints, in field order; empty when all hold. */
  function FieldFailures(name: string, email: string, age: Option<int>): (r: seq<Failure>)
    ensures r == [] <==> NameLengthOk(name) && IsValidEmail(email) && AgeOk(age)
    ensures FieldFailure("name") in r <==> !NameLengthOk(name)
    ensures FieldFailure("email") in r <==> !IsValidEmail(email)
    ensures FieldFailure("age") in r <==> !AgeOk(age)
    ensures |r| <= 3
    ensures forall f :: f in r ==> f.FieldFailure? && f.field in FieldOrder
    ensures forall i, j :: 0 <= i < j < |r| ==> FieldRank(r[i].field) < FieldRank(r[j].field)
  {
    (if NameLengthOk(name) then [] else [FieldFailure("name")])
    + (if IsValidEmail(email) then [] else [FieldFailure("email")])
    + (if AgeOk(age) then [] else [FieldFailure("age")])
  }

  /** `name.strip().title()` */
  function NormalizeName(name: string): (r: string)
    ensures |r| <= |name|
    ensures IsStripped(r)
    ensures !HasDigit(name) ==> !HasDigit(r)
  {
    TitleKeepsSpaces(Strip(name));
    TitleKeepsNoDigit(name);
    Title(Strip(name))
  }

  /** A normalised name is title-cased already, so normalising it again changes nothing. */
  lemma NormalizeNameIdempotent(name: string)
    ensures Title(NormalizeName(name)) == NormalizeName(name)
    ensures NormalizeName(NormalizeName(name)) == NormalizeName(name)
  {
    var r := NormalizeName(name);
    TitleIdempotent(Strip(name));
    StrippedIsFixed(r);
  }

  lemma TitleKeepsNoDigit(name: string)
    ensures !HasDigit(name) ==> !HasDigit(Title(Strip(name)))
  {
    var stripped := Strip(name);
    var r := Title(stripped);
    if !HasDigit(name) {
      forall i | 0 <= i < |r| ensures !IsDigit(r[i]) {
        assert stripped[i] == name[StripStart(name) + i];
        if IsLetter(stripped[i]) { assert IsUpper(Upper(r[i])); }
      }
    }
  }

  lemma NameExample()
    ensures NormalizeName("  john doe  ") == "John Doe"
  {
    StripExample();
    TitleExample();
  }

  lemma StripExample()
    ensures Strip("  john doe  ") == "john doe"
  {
    assert "  " + "john doe" + "  " == "  john doe  ";
    StripOfPadded("  ", "john doe", "  ");
  }

  lemma TitleExample()
    ensures Title("john doe") == "John Doe"
  {
    TitleOfName("john doe");
  }

  /** Title-casing "john doe", one character at a time. */
  lemma TitleOfName(s: string)
    requires s == ['j', 'o', 'h', 'n', ' ', 'd', 'o', 'e']
    ensures Title(s) == ['J', 'o', 'h', 'n', ' ', 'D', 'o', 'e']
  {
    var t := Title(s);
    assert t[0] == 'J' && t[1] == 'o' && t[2] == 'h' && t[3] == 'n';
    assert t[4] == ' ' && t[5] == 'D' && t[6] == 'o' && t[7] == 'e';
  }

  /** The length limit applies to the name as given, so a name of spaces only
      passes it and is stored empty. */
  lemma BlankNameBecomesEmpty()
    ensures NameLengthOk("   ") && !HasDigit("   ")
    ensures NormalizeName("   ") == ""
  {
    assert AllSpace("   ");
  }

  /** One tag through the comprehension: dropped when blank, otherwise stripped and lower-cased. */
  function NormalizeTag(t: string): (r: seq<string>)
    ensures |r| <= 1
    ensures r == [] <==> AllSpace(t)
    ensures forall u :: u in r ==> u != [] && IsStripped(u) && LowerStr(u) == u
  {
    var u := Strip(t);
    LowerStrIdempotent(u);
    if u == [] then [] else [LowerStr(u)]
  }

  /** The tag list comprehension of `validate_model`: keep the tags that are not
      blank after stripping, each stripped and lower-cased, in their order. */
  function NormalizeTags(tags: seq<string>): (r: seq<string>)
    ensures |r| <= |tags|
  {
    if tags == [] then [] else NormalizeTag(tags[0]) + NormalizeTags(tags[1..])
  }

  /** Every tag that survives normalisation is non-empty, stripped and lower-case. */
  lemma {:induction false} NormalizedTagsAreClean(tags: seq<string>)
    ensures forall u :: u in NormalizeTags(tags) ==> u != [] && IsStripped(u) && LowerStr(u) == u
  {
    if tags != [] {
      NormalizedTagsAreClean(tags[1..]);
    }
  }

  /** Tag normalisation works tag by tag: it distributes over concatenation. */
  lemma {:induction false} NormalizeTagsAppend(a: seq<string>, b: seq<string>)
    ensures NormalizeTags(a + b) == NormalizeTags(a) + NormalizeTags(b)
  {
    if a != [] {
      assert (a + b)[0] == a[0];
      assert (a + b)[1..] == a[1..] + b;
      NormalizeTagsAppend(a[1..], b);
    } else {
      assert a + b == b;
    }
  }

  /** A single tag is dropped exactly when it is blank, and otherwise kept stripped and lower-cased. */
  lemma NormalizeOneTag(t: string)
    ensures NormalizeTags([t]) == if AllSpace(t) then [] else [LowerStr(Strip(t))]
  {
    assert [t][1..] == [];
  }

  lemma {:induction false} NormalizeTagsIdempotent(tags: seq<string>)
    ensures NormalizeTags(NormalizeTags(tags)) == NormalizeTags(tags)
  {
    if tags != [] {
      var head, tail := [tags[0]], tags[1..];
      assert tags == head + tail;
      NormalizeTagsAppend(head, tail);
      NormalizeTagsIdempotent(tail);
      NormalizeTagsAppend(NormalizeTags(head), NormalizeTags(tail));
      NormalizeOneTag(tags[0]);
      if !AllSpace(tags[0]) {
        NormalizedTagIsFixed(LowerStr(Strip(tags[0])));
      }
    }
  }

  lemma NormalizedTagIsFixed(u: string)
    requires u != [] && IsStripped(u) && LowerStr(u) == u
    ensures NormalizeTags([u]) == [u]
  {
    StrippedIsFixed(u);
    assert [u][1..] == [];
  }

  /** The stored fields of an accepted profile: the email and age pass their
      constraints, and the name and tags are already in normal form. */
  predicate ValidProfile(name: string, email: string, age: Option<int>, tags: seq<string>) {
    && IsValidEmail(email)
    && AgeOk(age)
    && !HasDigit(name)
    && IsStripped(name) && Title(name) == name
    && NormalizeTags(tags) == tags
  }

  /** Whatever passes the field constraints and the digit check is stored in a
      form that satisfies every constraint and that normalisation leaves alone. */
  lemma AcceptedProfileValid(name: string, email: string, age: Option<int>, tags: seq<string>)
    requires FieldFailures(name, email, age) == [] && !HasDigit(name)
    ensures ValidProfile(NormalizeName(name), email, age, NormalizeTags(tags))
  {
    NormalizeNameIdempotent(name);
    NormalizeTagsIdempotent(tags);
  }

  class UserProfile {
    var name: string
    var email: string
    var age: Option<int>
    var tags: seq<string>
    var createdAt: Timestamp

    /** What holds of every profile that validation lets through. */
    ghost predicate Valid()
      reads this
    {
      ValidProfile(name, email, age, tags)
    }

    /** Field assignment once the field constraints have passed. */
    constructor (name: string, email: string, age: Option<int>, tags: seq<string>, createdAt: Timestamp)
      ensures this.name == name && this.email == email && this.age == age
      ensures this.tags == tags && this.createdAt == createdAt
    {
      this.name := name;
      this.email := email;
      this.age := age;
      this.tags := tags;
      this.createdAt := createdAt;
    }

    /** `validate_model`: reject a name with a digit, else normalise name and tags in place. */
    method ValidateModel() returns (outcome: Outcome<Failure>)
      modifies this`name, this`tags
      ensures old(HasDigit(name)) ==>
        outcome == Fail(ModelFailure("Name cannot contain numbers")) && name == old(name) && tags == old(tags)
      ensures !old(HasDigit(name)) ==>
        outcome == Pass && name == NormalizeName(old(name)) && tags == NormalizeTags(old(tags))
    {
      if HasDigit(name) {
        return Fail(ModelFailure("Name cannot contain numbers"));
      }
      name := NormalizeName(name);
      tags := NormalizeTags(tags);
      outcome := Pass;
    }
  }

  /** `UserProfile(name=..., email=..., age=..., tags=...)`: the field
      constraints (all failures reported together), then the model validator. */
  method NewUserProfile(name: string, email: string, age: Option<int>, tags: seq<string>, now: Timestamp)
    returns (r: Result<UserProfile, Error>)
    ensures r.Failure? <==> FieldFailures(name, email, age) != [] || HasDigit(name)
    ensures FieldFailures(name, email, age) != [] ==>
      r == Failure(ValidationError(FieldFailures(name, email, age)))
    ensures FieldFailures(name, email, age) == [] && HasDigit(name) ==>
      r == Failure(ValidationError([ModelFailure("Name cannot contain numbers")]))
    ensures r.Success? ==> fresh(r.value) && r.value.Valid()
    ensures r.Success? ==>
      && r.value.name == NormalizeName(name) && r.value.email == email
      && r.value.age == age && r.value.tags == NormalizeTags(tags) && r.value.createdAt == now
  {
    var failures := FieldFailures(name, email, age);
    if failures != [] {
      r := Failure(ValidationError(failures));
    } else {
      var profile := new UserProfile(name, email, age, tags, now);
      var outcome := profile.ValidateModel();
      if outcome.Fail? {
        r := Failure(ValidationError([outcome.error]));
      } else {
        AcceptedProfileValid(name, email, age, tags);
        r := Success(profile);
      }
    }
  }

  /** `create_user_profile`: missing tags become the empty list. */
  method CreateUserProfile(name: string, email: string, age: Option<int>, tags: Option<seq<string>>, now: Timestamp)
    returns (r: Result<UserProfile, Error>)
    ensures r.Failure? <==> FieldFailures(name, email, age) != [] || HasDigit(name)
    ensures r.Failure? ==> r.error.ValidationError?
    ensures r.Success? ==> fresh(r.value) && r.value.Valid() && r.value.name == NormalizeName(name)
    ensures r.Success? ==> r.value.tags == NormalizeTags(tags.GetOr([]))
    ensures r.Success? && tags.None? ==> r.value.tags == []
    ensures r.Success? ==> r.value.email == email && r.value.age == age && r.value.createdAt == now
    ensures r.Failure? ==> r.error == ValidationError(
      if FieldFailures(name, email, age) != [] then FieldFailures(name, email, age)
      else [ModelFailure("Name cannot contain numbers")])
  {
    r := NewUserProfile(name, email, age, tags.GetOr([]), now);
  }

  // ===========================================================================
  // ApplicationConfig

  const DefaultFeatures: seq<string> := ["basic", "logging"]

  class ApplicationConfig {
    var debug: bool
    var logLevel: string
    var maxUsers: int
    var timeout: real
    var features: Option<seq<string>>

    /** The dataclass's generated `__init__`, defaults included, which ends by calling `__post_init__`. */
    constructor (debug: bool := false, logLevel: string := "INFO", maxUsers: int := 1000,
                 timeout: real := 30.0, features: Option<seq<string>> := None)
      ensures this.debug == debug && this.logLevel == logLevel
      ensures this.maxUsers == maxUsers && this.timeout == timeout
      ensures this.features == Some(features.GetOr(DefaultFeatures))
    {
      this.debug := debug;
      this.logLevel := logLevel;
      this.maxUsers := maxUsers;
      this.timeout := timeout;
      this.features := features;
      new;
      PostInit();
    }

    /** `__post_init__`: a missing feature list becomes the default one. */
    method PostInit()
      modifies this`features
      ensures features == Some(old(features).GetOr(DefaultFeatures))
    {
      if features.None? {
        features := Some(DefaultFeatures);
      }
    }
  }

  /** The defaults a caller gets from `ApplicationConfig()`. */
  method DefaultConfig() returns (config: ApplicationConfig)
    ensures fresh(config)
    ensures !config.debug && config.logLevel == "INFO" && config.maxUsers == 1000 && config.timeout == 30.0
    ensures config.features == Some(["basic", "logging"])
  {
    config := new ApplicationConfig();
  }
}
