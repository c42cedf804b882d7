/** The declarative validation of the models package: the struct-tag rule language
    of go-playground/validator as the models use it (`validate.Struct`),
    and `FirstError` of models/validation.go, which turns its outcome into a
    single message. */
module Validation {
  import opened Base
  import Text
  import Uuid

  /** The value of one struct field, by Go kind. */
  datatype Value =
    | Str(s: string)
    | Int(i: int)
    | Num(r: real)
    | TimeVal(t: Time)
    | OptTime(ot: Option<Time>)
    | RawVal(raw: Raw)

  /** The rules of a `validate:"..."` tag other than `omitempty`. Lengths
      count characters (runes); `gt`/`gte` compare numbers with the bound. */
  datatype Rule =
    | Required
    | NotBlank
    | Min(n: nat)
    | Max(n: nat)
    | Len(n: nat)
    | OneOf(values: seq<string>)
    | Uuid4
    | Gt(bound: int)
    | Gte(bound: int)
    | Uppercase
    | Alpha
    | Alphanum
    | AlphanumUnicode
    | Numeric
    | Json

  /** One field of a struct in declaration order: its Go name, whether its
      tag starts with `omitempty`, the remaining rules in tag order, and its
      value. Fields without a `validate` tag are not listed: the validator
      checks nothing on them. */
  datatype Field = Field(name: string, omitEmpty: bool, rules: seq<Rule>, value: Value)

  /** `hasValue`: the value is not its type's zero value (a pointer or a
      slice is not nil). */
  predicate HasValue(v: Value) {
    match v
    case Str(s) => s != ""
    case Int(i) => i != 0
    case Num(r) => r != 0.0
    case TimeVal(t) => t != ZeroTime
    case OptTime(ot) => ot.Some?
    case RawVal(raw) => raw != Nil
  }

  predicate AllDigits(s: string) {
    forall i :: 0 <= i < |s| ==> Text.IsAsciiDigit(s[i])
  }

  predicate AllLetters(s: string) {
    forall i :: 0 <= i < |s| ==> Text.IsAsciiLetter(s[i])
  }

  predicate IsAsciiAlnum(c: char) {
    Text.IsAsciiLetter(c) || Text.IsAsciiDigit(c)
  }

  predicate AllAlnum(s: string) {
    forall i :: 0 <= i < |s| ==> IsAsciiAlnum(s[i])
  }

  /** No lower-case letter, i.e. `s == strings.ToUpper(s)`. */
  predicate NoLower(s: string) {
    forall i :: 0 <= i < |s| ==> !('a' <= s[i] <= 'z')
  }

  lemma NoLowerIsUpperFixpoint(s: string)
    ensures NoLower(s) <==> s == Text.ToUpper(s)
  {
    if !NoLower(s) {
      var i :| 0 <= i < |s| && 'a' <= s[i] <= 'z';
      assert Text.ToUpper(s)[i] != s[i];
    }
  }

  /** Number of leading ASCII digits. */
  function DigitPrefix(s: string): (k: nat)
    ensures k <= |s| && AllDigits(s[..k])
    ensures k < |s| ==> !Text.IsAsciiDigit(s[k])
  {
    if s != [] && Text.IsAsciiDigit(s[0]) then
      var k := 1 + DigitPrefix(s[1..]);
      assert s[..k] == [s[0]] + s[1..][..k - 1];
      k
    else 0
  }

  /** The `numeric` rule: `^[-+]?[0-9]+(\.[0-9]+)?$`. */
  predicate IsNumeric(s: string) {
    var t := if s != [] && (s[0] == '+' || s[0] == '-') then s[1..] else s;
    var k := DigitPrefix(t);
    k > 0 && (k == |t| || (t[k] == '.' && k + 1 < |t| && AllDigits(t[k + 1..])))
  }

  /** Whether a value passes one rule. Combinations of a rule and a kind
      that no model declares (`oneof` on a number, say) evaluate to false;
      the validator itself panics on them. */
  predicate Holds(rule: Rule, v: Value) {
    match rule
    case Required => HasValue(v)
    case NotBlank => if v.Str? then !Text.AllSpace(v.s) else HasValue(v)
    case Min(n) => (v.Str? && |v.s| >= n) || (v.Int? && v.i >= n) || (v.Num? && v.r >= n as real)
    case Max(n) => (v.Str? && |v.s| <= n) || (v.Int? && v.i <= n) || (v.Num? && v.r <= n as real)
    case Len(n) => (v.Str? && |v.s| == n) || (v.Int? && v.i == n) || (v.Num? && v.r == n as real)
    case OneOf(values) => v.Str? && v.s in values
    case Uuid4 => v.Str? && Uuid.IsUuid4(v.s)
    case Gt(b) => (v.Str? && |v.s| > b) || (v.Int? && v.i > b) || (v.Num? && v.r > b as real)
    case Gte(b) => (v.Str? && |v.s| >= b) || (v.Int? && v.i >= b) || (v.Num? && v.r >= b as real)
    case Uppercase => v.Str? && NoLower(v.s)
    case Alpha => v.Str? && v.s != "" && AllLetters(v.s)
    case Alphanum => v.Str? && v.s != "" && AllAlnum(v.s)
    case AlphanumUnicode => v.Str? && v.s != "" && AllAlnum(v.s)
    case Numeric => v.Str? && IsNumeric(v.s)
    case Json => v.RawVal? && v.raw.Bytes? && v.raw.wellFormed
  }

  /** `notblank` on a string: something is left after `strings.TrimSpace`. */
  lemma NotBlankIsNonEmptyTrim(s: string)
    ensures Holds(NotBlank, Str(s)) <==> Text.TrimSpace(s) != ""
  {
  }

  /** Every rule of a tag holds of the value. */
  predicate AllHold(rules: seq<Rule>, v: Value) {
    rules == [] || (Holds(rules[0], v) && AllHold(rules[1..], v))
  }

  /** The first rule, in tag order, that the value fails. */
  function FirstFailing(rules: seq<Rule>, v: Value): (r: Option<Rule>)
    ensures r.None? <==> AllHold(rules, v)
  {
    if rules == [] then None
    else if !Holds(rules[0], v) then Some(rules[0])
    else FirstFailing(rules[1..], v)
  }

  lemma AllHold1(r0: Rule, v: Value)
    ensures AllHold([r0], v) <==> Holds(r0, v)
  {
    assert [r0][1..] == [];
  }

  lemma AllHold2(r0: Rule, r1: Rule, v: Value)
    ensures AllHold([r0, r1], v) <==> Holds(r0, v) && Holds(r1, v)
  {
    assert [r0, r1][1..] == [r1];
    AllHold1(r1, v);
  }

  lemma AllHold3(r0: Rule, r1: Rule, r2: Rule, v: Value)
    ensures AllHold([r0, r1, r2], v) <==> Holds(r0, v) && Holds(r1, v) && Holds(r2, v)
  {
    assert [r0, r1, r2][1..] == [r1, r2];
    AllHold2(r1, r2, v);
  }

  lemma AllHold4(r0: Rule, r1: Rule, r2: Rule, r3: Rule, v: Value)
    ensures AllHold([r0, r1, r2, r3], v) <==> Holds(r0, v) && Holds(r1, v) && Holds(r2, v) && Holds(r3, v)
  {
    assert [r0, r1, r2, r3][1..] == [r1, r2, r3];
    AllHold3(r1, r2, r3, v);
  }

  /** The rule a field fails, if any: a field stops at its first failing
      rule, and `omitempty` on a zero value skips every rule. */
  function CheckField(f: Field): (r: Option<Rule>)
    ensures r.None? <==> Passes(f)
  {
    if f.omitEmpty && !HasValue(f.value) then None else FirstFailing(f.rules, f.value)
  }

  /** A field passes when it is zero under `omitempty`, or every rule of its
      tag holds. */
  predicate Passes(f: Field) {
    (f.omitEmpty && !HasValue(f.value)) || AllHold(f.rules, f.value)
  }

  /** A field whose tag has one, two, three or four rules after the
      optional `omitempty` passes when it is zero and `omitempty`, or when
      each rule holds. */
  lemma Passes1(name: string, omitEmpty: bool, r0: Rule, v: Value)
    ensures Passes(Field(name, omitEmpty, [r0], v)) <==> (omitEmpty && !HasValue(v)) || Holds(r0, v)
  {
    AllHold1(r0, v);
  }

  lemma Passes2(name: string, omitEmpty: bool, r0: Rule, r1: Rule, v: Value)
    ensures Passes(Field(name, omitEmpty, [r0, r1], v)) <==> (omitEmpty && !HasValue(v)) || (Holds(r0, v) && Holds(r1, v))
  {
    AllHold2(r0, r1, v);
  }

  lemma Passes3(name: string, omitEmpty: bool, r0: Rule, r1: Rule, r2: Rule, v: Value)
    ensures Passes(Field(name, omitEmpty, [r0, r1, r2], v))
            <==> (omitEmpty && !HasValue(v)) || (Holds(r0, v) && Holds(r1, v) && Holds(r2, v))
  {
    AllHold3(r0, r1, r2, v);
  }

  lemma Passes4(name: string, omitEmpty: bool, r0: Rule, r1: Rule, r2: Rule, r3: Rule, v: Value)
    ensures Passes(Field(name, omitEmpty, [r0, r1, r2, r3], v))
            <==> (omitEmpty && !HasValue(v)) || (Holds(r0, v) && Holds(r1, v) && Holds(r2, v) && Holds(r3, v))
  {
    AllHold4(r0, r1, r2, r3, v);
  }

  // The tag shapes the models use, each with what it demands of a value.

  lemma OptionalUuid4(name: string, s: string)
    ensures Passes(Field(name, true, [Uuid4], Str(s))) <==> s == "" || Uuid.IsUuid4(s)
  {
    Passes1(name, true, Uuid4, Str(s));
  }

  lemma RequiredUuid4(name: string, s: string)
    ensures Passes(Field(name, false, [Required, Uuid4], Str(s))) <==> Uuid.IsUuid4(s)
  {
    Passes2(name, false, Required, Uuid4, Str(s));
  }

  lemma RequiredMax(name: string, n: nat, s: string)
    ensures Passes(Field(name, false, [Required, Max(n)], Str(s))) <==> s != "" && |s| <= n
  {
    Passes2(name, false, Required, Max(n), Str(s));
  }

  lemma OptionalMax(name: string, n: nat, s: string)
    ensures Passes(Field(name, true, [Max(n)], Str(s))) <==> |s| <= n
  {
    Passes1(name, true, Max(n), Str(s));
  }

  lemma NotBlankMax(name: string, n: nat, s: string)
    ensures Passes(Field(name, false, [Required, NotBlank, Max(n)], Str(s))) <==> !Text.AllSpace(s) && |s| <= n
  {
    Passes3(name, false, Required, NotBlank, Max(n), Str(s));
  }

  lemma RequiredLength(name: string, lo: nat, hi: nat, s: string)
    requires 0 < lo
    ensures Passes(Field(name, false, [Required, Min(lo), Max(hi)], Str(s))) <==> lo <= |s| <= hi
  {
    Passes3(name, false, Required, Min(lo), Max(hi), Str(s));
  }

  lemma RequiredOneOf(name: string, values: seq<string>, s: string)
    ensures Passes(Field(name, false, [Required, OneOf(values)], Str(s))) <==> s != "" && s in values
  {
    Passes2(name, false, Required, OneOf(values), Str(s));
  }

  lemma PositiveNumber(name: string, x: real)
    ensures Passes(Field(name, false, [Required, Gt(0)], Num(x))) <==> x > 0.0
  {
    Passes2(name, false, Required, Gt(0), Num(x));
  }

  lemma PositiveInteger(name: string, x: int)
    ensures Passes(Field(name, false, [Required, Gt(0)], Int(x))) <==> x > 0
  {
    Passes2(name, false, Required, Gt(0), Int(x));
  }

  lemma RequiredTime(name: string, t: Time)
    ensures Passes(Field(name, false, [Required], TimeVal(t))) <==> t != ZeroTime
  {
    Passes1(name, false, Required, TimeVal(t));
  }

  lemma RequiredRaw(name: string, raw: Raw)
    ensures Passes(Field(name, false, [Required], RawVal(raw))) <==> raw != Nil
  {
    Passes1(name, false, Required, RawVal(raw));
  }

  lemma NonNegativeInteger(name: string, x: int)
    ensures Passes(Field(name, false, [Gte(0)], Int(x))) <==> x >= 0
  {
    Passes1(name, false, Gte(0), Int(x));
  }

  lemma NonNegativeNumber(name: string, x: real)
    ensures Passes(Field(name, false, [Gte(0)], Num(x))) <==> x >= 0.0
  {
    Passes1(name, false, Gte(0), Num(x));
  }

  lemma OptionalJson(name: string, raw: Raw)
    ensures Passes(Field(name, true, [Json], RawVal(raw))) <==> raw == Nil || raw == Bytes(true)
  {
    Passes1(name, true, Json, RawVal(raw));
  }

  lemma RequiredUpperAlnumMax(name: string, n: nat, s: string)
    ensures Passes(Field(name, false, [Required, Uppercase, Alphanum, Max(n)], Str(s)))
            <==> s != "" && NoLower(s) && AllAlnum(s) && |s| <= n
  {
    Passes4(name, false, Required, Uppercase, Alphanum, Max(n), Str(s));
  }

  lemma RequiredAlnumMax(name: string, n: nat, s: string)
    ensures Passes(Field(name, false, [Required, AlphanumUnicode, Max(n)], Str(s)))
            <==> s != "" && AllAlnum(s) && |s| <= n
  {
    Passes3(name, false, Required, AlphanumUnicode, Max(n), Str(s));
  }

  lemma OptionalAlnumMax(name: string, n: nat, s: string)
    ensures Passes(Field(name, true, [AlphanumUnicode, Max(n)], Str(s)))
            <==> s == "" || (AllAlnum(s) && |s| <= n)
  {
    Passes2(name, true, AlphanumUnicode, Max(n), Str(s));
  }

  lemma OptionalNumericLength(name: string, lo: nat, hi: nat, s: string)
    ensures Passes(Field(name, true, [Numeric, Min(lo), Max(hi)], Str(s)))
            <==> s == "" || (IsNumeric(s) && lo <= |s| <= hi)
  {
    Passes3(name, true, Numeric, Min(lo), Max(hi), Str(s));
  }

  lemma CountryCode(name: string, s: string)
    ensures Passes(Field(name, false, [Required, Alpha, Len(2), Uppercase], Str(s)))
            <==> |s| == 2 && AllLetters(s) && NoLower(s)
  {
    Passes4(name, false, Required, Alpha, Len(2), Uppercase, Str(s));
  }

  /** A tag of `omitempty` alone checks nothing. */
  lemma OmitEmptyOnly(name: string, v: Value)
    ensures Passes(Field(name, true, [], v))
  {
  }

  /** Every field of a struct passes. */
  predicate AllPass(fs: seq<Field>) {
    forall i :: 0 <= i < |fs| ==> Passes(fs[i])
  }

  /** One entry of `validator.ValidationErrors`: the failing field's Go name
      and the rule it failed. */
  datatype FieldError = FieldError(field: string, tag: Rule)

  /** The non-nil errors `validate.Struct` returns. */
  datatype ValidationError =
    | ValidationErrors(errors: seq<FieldError>)
    | InvalidValidation

  /** All failing fields, one entry each, in declaration order. */
  function Errors(fs: seq<Field>): (r: seq<FieldError>)
    ensures |r| <= |fs|
    ensures r == [] <==> AllPass(fs)
  {
    if fs == [] then []
    else
      assert fs == [fs[0]] + fs[1..];
      assert fs[0] in fs;
      match CheckField(fs[0])
      case None => Errors(fs[1..])
      case Some(rule) => [FieldError(fs[0].name, rule)] + Errors(fs[1..])
  }

  /** `validate.Struct`: nil when every field passes. */
  function Struct(fs: seq<Field>): (r: Option<ValidationError>)
    ensures r.None? <==> AllPass(fs)
    ensures r.Some? ==> r.value.ValidationErrors? && r.value.errors != []
  {
    if AllPass(fs) then None else Some(ValidationErrors(Errors(fs)))
  }

  /** `FirstError` (models/validation.go): ("", true) for a nil error, the
      first field's name and " is invalid" for a non-empty list of
      validation errors, "invalid input" otherwise. */
  function FirstError(err: Option<ValidationError>): (r: (string, bool))
    ensures r.1 <==> err.None?
    ensures !r.1 ==> r.0 != ""
    ensures err.Some? && err.value.ValidationErrors? && err.value.errors != []
            ==> r.0 == err.value.errors[0].field + " is invalid"
    ensures err.Some? && !(err.value.ValidationErrors? && err.value.errors != [])
            ==> r == ("invalid input", false)
  {
    match err
    case None => ("", true)
    case Some(ValidationErrors(es)) =>
      if |es| > 0 then (es[0].field + " is invalid", false) else ("invalid input", false)
    case Some(InvalidValidation) => ("invalid input", false)
  }

  /** The first failing field decides the message: fields after it are
      never reported, whatever their values. */
  lemma {:induction false} FirstFailureReported(fs: seq<Field>, k: nat)
    requires k < |fs| && !Passes(fs[k])
    requires forall j :: 0 <= j < k ==> Passes(fs[j])
    ensures Errors(fs) != [] && Errors(fs)[0] == FieldError(fs[k].name, CheckField(fs[k]).value)
    ensures FirstError(Struct(fs)) == (fs[k].name + " is invalid", false)
  {
    if k > 0 {
      assert Passes(fs[0]);
      FirstFailureReported(fs[1..], k - 1);
    }
  }

  /** Two structs whose fields carry the same names and fail the same
      rules produce the same outcome, whatever their values. */
  lemma {:induction false} SameOutcome(fs: seq<Field>, gs: seq<Field>)
    requires |fs| == |gs|
    requires forall i :: 0 <= i < |fs| ==> fs[i].name == gs[i].name && CheckField(fs[i]) == CheckField(gs[i])
    ensures Errors(fs) == Errors(gs)
    ensures Struct(fs) == Struct(gs)
  {
    if fs != [] {
      SameOutcome(fs[1..], gs[1..]);
    }
  }

  /** The message names a field that fails. */
  lemma {:induction false} ReportedFieldFails(fs: seq<Field>)
    requires Errors(fs) != []
    ensures exists f :: f in fs && !Passes(f) && f.name == Errors(fs)[0].field
  {
    if Passes(fs[0]) {
      ReportedFieldFails(fs[1..]);
      var f :| f in fs[1..] && !Passes(f) && f.name == Errors(fs[1..])[0].field;
      assert f in fs;
    } else {
      assert fs[0] in fs;
    }
  }

  /** `validator.New()` knows every rule here except `notblank`, which is a
      non-standard validator that models/validation.go:6 never registers. */
  predicate Registered(rule: Rule) {
    !rule.NotBlank?
  }

  /** What calling `validate.Struct` does as the code is written. */
  datatype Outcome = Panic(message: string) | Returned(err: Option<ValidationError>)

  /** The first field, in declaration order, whose tag names a rule that is
      not registered. */
  function FirstUnregistered(fs: seq<Field>): (r: Option<nat>)
    ensures r.Some? ==> r.value < |fs| && exists i :: 0 <= i < |fs[r.value].rules| && !Registered(fs[r.value].rules[i])
    ensures r.None? ==> forall k, i :: 0 <= k < |fs| && 0 <= i < |fs[k].rules| ==> Registered(fs[k].rules[i])
  {
    if fs == [] then None
    else if exists i :: 0 <= i < |fs[0].rules| && !Registered(fs[0].rules[i]) then Some(0)
    else match FirstUnregistered(fs[1..])
      case None => None
      case Some(k) => assert fs[1..][k] == fs[k + 1]; Some(k + 1)
  }

  /** `validate.Struct` as written: parsing a struct's tags panics with
      "Undefined validation function" on the first unregistered rule, before
      any value is looked at; otherwise it behaves as `Struct`. */
  function StructAsWritten(fs: seq<Field>): (r: Outcome)
    ensures r.Returned? ==> r.err == Struct(fs)
  {
    match FirstUnregistered(fs)
    case Some(k) => Panic("Undefined validation function 'notblank' on field '" + fs[k].name + "'")
    case None => Returned(Struct(fs))
  }

  /** A struct that carries `notblank` on some field panics for every value. */
  lemma NotBlankPanics(fs: seq<Field>, k: nat, i: nat)
    requires k < |fs| && i < |fs[k].rules| && fs[k].rules[i] == NotBlank
    ensures StructAsWritten(fs).Panic?
  {
    assert !Registered(fs[k].rules[i]);
  }
}
