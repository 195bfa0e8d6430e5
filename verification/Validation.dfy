/** The accumulating authoring validators: every rule reports and goes on, so that one answer
    lists all failures. Error messages are left out; a failure is its path and its code. */
module Validation {
  import opened Domain
  import opened Transactions

  const TRIGGERS_MIN := 2
  const TRIGGERS_MAX := 9
  const TRIGGER_VALUE_MAX_BYTES := 512
  const COOLDOWN_FIELDS_MAX := 9
  const COOLDOWN_SECONDS_MAX := 86400
  const TIMEOUT_SECONDS_MAX := 900
  const GRACE_SECONDS_MIN := 60
  const GRACE_SECONDS_MAX := 3600
  const SCRIPT_MAX_BYTES := 262144
  const HANDLE_PARAMS_MIN := 1
  const HANDLE_PARAMS_MAX := 2

  const MATCHABLE_FIELDS: set<string> :=
    {"application", "component", "status", "site", "severity", "environment", "operator", "node_name", "network"}

  datatype ErrorCode =
    | TRIGGERS_TOO_FEW
    | TRIGGERS_TOO_MANY
    | TRIGGERS_DUPLICATE_FIELD
    | UNKNOWN_FIELD
    | INVALID_TRIGGER_SHAPE
    | TRIGGER_VALUE_TOO_LONG
    | COOLDOWN_OUT_OF_RANGE
    | COOLDOWN_FIELDS_REQUIRED
    | COOLDOWN_FIELDS_WITHOUT_SECONDS
    | COOLDOWN_FIELDS_TOO_MANY
    | TIMEOUT_OUT_OF_RANGE
    | GRACE_OUT_OF_RANGE
    | LOGSTASH_SCHEME_NOT_HTTPS
    | LOGSTASH_PRIVATE_ADDRESS
    | LOGSTASH_UNRESOLVABLE
    | SCRIPT_TOO_LARGE
    | SCRIPT_SYNTAX_ERROR
    | HANDLE_MISSING
    | HANDLE_BAD_ARITY
    | NAMESPACE_INVALID

  datatype Input =
    | Namespace
    | Triggers
    | CooldownSeconds
    | CooldownFields
    | TimeoutSeconds
    | GraceSeconds
    | LogstashUrl
    | Script

  /** A whole input, its entry `i`, or the `field` or `value` of its entry `i`. */
  datatype Path =
    | Whole(input: Input)
    | Item(input: Input, index: nat)
    | ItemField(input: Input, index: nat)
    | ItemValue(input: Input, index: nat)
  datatype FieldError = FieldError(path: Path, code: ErrorCode)

  /** `errors` with this failure appended if there is one. */
  function Report(errors: seq<FieldError>, failed: bool, path: Path, code: ErrorCode): (r: seq<FieldError>)
    ensures errors <= r && |r| == |errors| + if failed then 1 else 0
  {
    if failed then errors + [FieldError(path, code)] else errors
  }

  function Utf8Width(c: char): nat {
    if c < '\U{80}' then 1 else if c < '\U{800}' then 2 else if c < '\U{10000}' then 3 else 4
  }

  function Utf8Length(s: string): nat {
    if s == "" then 0 else Utf8Length(s[..|s| - 1]) + Utf8Width(s[|s| - 1])
  }

  /** The UTF-8 bytes of a code point: a first byte and six bits in each following one. */
  function Encode(code: nat): seq<int> {
    var a, b, c := code / 64, code / 64 / 64, code / 64 / 64 / 64;
    if code < 0x80 then [code]
    else if code < 0x800 then [0xC0 + a, 0x80 + code % 64]
    else if code < 0x10000 then [0xE0 + b, 0x80 + a % 64, 0x80 + code % 64]
    else [0xF0 + c, 0x80 + b % 64, 0x80 + a % 64, 0x80 + code % 64]
  }

  /** How many bytes a first byte announces. */
  function SequenceLength(first: int): nat {
    if first < 0x80 then 1 else if first < 0xE0 then 2 else if first < 0xF0 then 3 else 4
  }

  /** The code point a sequence of bytes stands for. */
  function Decode(bytes: seq<int>): int {
    match |bytes|
    case 1 => bytes[0]
    case 2 => (bytes[0] - 0xC0) * 64 + (bytes[1] - 0x80)
    case 3 => ((bytes[0] - 0xE0) * 64 + (bytes[1] - 0x80)) * 64 + (bytes[2] - 0x80)
    case 4 => (((bytes[0] - 0xF0) * 64 + (bytes[1] - 0x80)) * 64 + (bytes[2] - 0x80)) * 64 + (bytes[3] - 0x80)
    case _ => -1
  }

  lemma EncodingDecodes(code: nat)
    requires code < 0x110000
    ensures var bytes := Encode(code);
      && bytes != [] && |bytes| == SequenceLength(bytes[0]) && Decode(bytes) == code
      && (forall i | 0 <= i < |bytes| :: 0 <= bytes[i] < 0x100)
      && (forall i | 0 < i < |bytes| :: 0x80 <= bytes[i] < 0xC0)
  {
  }

  /** The length the limits count is that of an encoding in bytes that decodes to the character again. */
  lemma WidthIsTheEncodings(c: char)
    ensures |Encode(c as int)| == Utf8Width(c) && Decode(Encode(c as int)) == c as int
  {
    assert c as int < 0x110000;
    EncodingDecodes(c as int);
  }

  lemma {:induction false} Utf8LengthAdds(s: string, t: string)
    ensures Utf8Length(s + t) == Utf8Length(s) + Utf8Length(t)
  {
    if t == "" {
      assert s + t == s;
    } else {
      assert (s + t)[..|s + t| - 1] == s + t[..|t| - 1];
      Utf8LengthAdds(s, t[..|t| - 1]);
    }
  }

  // --- triggers -------------------------------------------------------------------------------

  /** Exactly {field: string, value: string}. */
  predicate WellShaped(condition: Json) {
    && condition.JObject? && condition.members.Keys == {"field", "value"}
    && condition.members["field"].JString? && condition.members["value"].JString?
  }

  /** There is no other well-shaped condition than a field with a value. */
  lemma WellShapedExactly(condition: Json)
    ensures WellShaped(condition) <==>
      exists field, value :: condition == JObject(map["field" := JString(field), "value" := JString(value)])
  {
    if WellShaped(condition) {
      var field, value := condition.members["field"].s, condition.members["value"].s;
      assert condition.members == map["field" := JString(field), "value" := JString(value)];
      assert condition == JObject(map["field" := JString(field), "value" := JString(value)]);
    }
  }

  function FieldOf(condition: Json): string
    requires WellShaped(condition)
  {
    condition.members["field"].s
  }

  predicate ValueTooLong(condition: Json)
    requires WellShaped(condition)
  {
    Utf8Length(condition.members["value"].s) > TRIGGER_VALUE_MAX_BYTES
  }

  // Wrapped so that it compares as an atom.
  datatype FieldName = FieldName(text: string)

  /** One condition as the rules see it. */
  datatype Checked = Malformed | Condition(field: FieldName, matchable: bool, tooLong: bool)

  function Check(condition: Json): Checked {
    if !WellShaped(condition) then Malformed
    else Condition(FieldName(FieldOf(condition)), FieldOf(condition) in MATCHABLE_FIELDS, ValueTooLong(condition))
  }

  function CheckAll(triggers: seq<Json>): seq<Checked> {
    seq(|triggers|, i requires 0 <= i < |triggers| => Check(triggers[i]))
  }

  predicate SeenBefore(cs: seq<Checked>, i: nat)
    requires i < |cs| && cs[i].Condition?
  {
    exists j | 0 <= j < i :: cs[j].Condition? && cs[j].field == cs[i].field
  }

  /** The errors so far and what is wrong with condition `i`. */
  function ReportCondition(errors: seq<FieldError>, cs: seq<Checked>, i: nat): seq<FieldError>
    requires i < |cs|
  {
    if cs[i].Malformed? then Report(errors, true, Item(Triggers, i), INVALID_TRIGGER_SHAPE)
    else
      var sized := Report(errors, cs[i].tooLong, ItemValue(Triggers, i), TRIGGER_VALUE_TOO_LONG);
      if !cs[i].matchable then Report(sized, true, ItemField(Triggers, i), UNKNOWN_FIELD)
      else Report(sized, SeenBefore(cs, i), ItemField(Triggers, i), TRIGGERS_DUPLICATE_FIELD)
  }

  function ReportConditions(errors: seq<FieldError>, cs: seq<Checked>, n: nat): seq<FieldError>
    requires n <= |cs|
  {
    if n == 0 then errors else ReportCondition(ReportConditions(errors, cs, n - 1), cs, n - 1)
  }

  /** The failures with no cap on the number of conditions. */
  function UncappedTriggerErrors(triggers: seq<Json>): seq<FieldError> {
    ReportConditions(Report([], |triggers| < TRIGGERS_MIN, Whole(Triggers), TRIGGERS_TOO_FEW),
                     CheckAll(triggers), |triggers|)
  }

  function TriggerErrors(triggers: seq<Json>): seq<FieldError> {
    if |triggers| > TRIGGERS_MAX then [FieldError(Whole(Triggers), TRIGGERS_TOO_MANY)]
    else UncappedTriggerErrors(triggers)
  }

  /** Well-shaped conditions on pairwise distinct matchable fields with values of at most 512 bytes. */
  ghost predicate SoundConditions(triggers: seq<Json>) {
    && (forall i | 0 <= i < |triggers| ::
          WellShaped(triggers[i]) && FieldOf(triggers[i]) in MATCHABLE_FIELDS && !ValueTooLong(triggers[i]))
    && (forall i, j | 0 <= i < j < |triggers| :: FieldOf(triggers[i]) != FieldOf(triggers[j]))
  }

  /** Two to nine of them. */
  ghost predicate AcceptableTriggers(triggers: seq<Json>) {
    TRIGGERS_MIN <= |triggers| <= TRIGGERS_MAX && SoundConditions(triggers)
  }

  predicate CleanAt(cs: seq<Checked>, i: nat)
    requires i < |cs|
  {
    cs[i].Condition? && cs[i].matchable && !cs[i].tooLong && !SeenBefore(cs, i)
  }

  lemma ConditionReported(errors: seq<FieldError>, cs: seq<Checked>, i: nat)
    requires i < |cs|
    ensures |errors| <= |ReportCondition(errors, cs, i)| <= |errors| + 2
    ensures |ReportCondition(errors, cs, i)| == |errors| <==> CleanAt(cs, i)
  {
  }

  lemma {:induction false} ConditionsReported(errors: seq<FieldError>, cs: seq<Checked>, n: nat)
    requires n <= |cs|
    ensures |errors| <= |ReportConditions(errors, cs, n)| <= |errors| + 2 * n
    ensures |ReportConditions(errors, cs, n)| == |errors| <==> forall i | 0 <= i < n :: CleanAt(cs, i)
  {
    if n > 0 {
      ConditionsReported(errors, cs, n - 1);
      ConditionReported(ReportConditions(errors, cs, n - 1), cs, n - 1);
    }
  }

  lemma CleanIsSound(triggers: seq<Json>)
    ensures (forall i | 0 <= i < |triggers| :: CleanAt(CheckAll(triggers), i)) <==> SoundConditions(triggers)
  {
    var cs := CheckAll(triggers);
    if forall i | 0 <= i < |triggers| :: CleanAt(cs, i) {
      forall i | 0 <= i < |triggers|
        ensures WellShaped(triggers[i]) && FieldOf(triggers[i]) in MATCHABLE_FIELDS && !ValueTooLong(triggers[i])
      {
        assert CleanAt(cs, i) && cs[i] == Check(triggers[i]);
      }
      forall i, j | 0 <= i < j < |triggers| ensures FieldOf(triggers[i]) != FieldOf(triggers[j]) {
        assert CleanAt(cs, j) && cs[i] == Check(triggers[i]) && cs[j] == Check(triggers[j]);
      }
    }
  }

  lemma {:induction false} DistinctFit<T>(s: seq<T>, allowed: set<T>)
    requires forall i | 0 <= i < |s| :: s[i] in allowed
    requires forall i, j | 0 <= i < j < |s| :: s[i] != s[j]
    ensures |s| <= |allowed|
  {
    if s != [] {
      DistinctFit(s[1..], allowed - {s[0]});
    }
  }

  /** Pigeonhole over the allowlist: more than nine conditions always repeat a field or leave it. */
  lemma NineFieldsAtMost(triggers: seq<Json>)
    requires SoundConditions(triggers)
    ensures |triggers| <= TRIGGERS_MAX
  {
    DistinctFit(seq(|triggers|, i requires 0 <= i < |triggers| => FieldOf(triggers[i])), MATCHABLE_FIELDS);
    assert |MATCHABLE_FIELDS| == 9;
  }

  lemma TriggersAcceptedExactly(triggers: seq<Json>)
    ensures TriggerErrors(triggers) == [] <==> AcceptableTriggers(triggers)
    ensures |TriggerErrors(triggers)| <= 2 * TRIGGERS_MAX
  {
    ConditionsReported(Report([], |triggers| < TRIGGERS_MIN, Whole(Triggers), TRIGGERS_TOO_FEW), CheckAll(triggers),
                       |triggers|);
    CleanIsSound(triggers);
  }

  /** Condition `i` breaks the rule that `e` names. */
  ghost predicate Breaks(cs: seq<Checked>, i: nat, e: FieldError)
    requires i < |cs|
  {
    || (e == FieldError(Item(Triggers, i), INVALID_TRIGGER_SHAPE) && cs[i].Malformed?)
    || (e == FieldError(ItemValue(Triggers, i), TRIGGER_VALUE_TOO_LONG) && cs[i].Condition? && cs[i].tooLong)
    || (e == FieldError(ItemField(Triggers, i), UNKNOWN_FIELD) && cs[i].Condition? && !cs[i].matchable)
    || (e == FieldError(ItemField(Triggers, i), TRIGGERS_DUPLICATE_FIELD)
        && cs[i].Condition? && cs[i].matchable && SeenBefore(cs, i))
  }

  lemma {:induction false} BrokenRulesReported(errors: seq<FieldError>, cs: seq<Checked>, n: nat, e: FieldError)
    requires n <= |cs|
    ensures e in ReportConditions(errors, cs, n) <==> e in errors || exists i | 0 <= i < n :: Breaks(cs, i, e)
  {
    if n > 0 {
      BrokenRulesReported(errors, cs, n - 1, e);
      var before := ReportConditions(errors, cs, n - 1);
      assert e in ReportCondition(before, cs, n - 1) <==> e in before || Breaks(cs, n - 1, e);
    }
  }

  /** The failures of a list of conditions: the count's, or every condition's own. */
  ghost predicate BreaksTriggers(triggers: seq<Json>, e: FieldError) {
    if |triggers| > TRIGGERS_MAX then e == FieldError(Whole(Triggers), TRIGGERS_TOO_MANY)
    else
      || (e == FieldError(Whole(Triggers), TRIGGERS_TOO_FEW) && |triggers| < TRIGGERS_MIN)
      || exists i | 0 <= i < |triggers| :: Breaks(CheckAll(triggers), i, e)
  }

  /** The answer names every broken rule of every condition, and no other. */
  lemma EveryFailureIsNamed(triggers: seq<Json>, e: FieldError)
    ensures e in TriggerErrors(triggers) <==> BreaksTriggers(triggers, e)
  {
    BrokenRulesReported(Report([], |triggers| < TRIGGERS_MIN, Whole(Triggers), TRIGGERS_TOO_FEW), CheckAll(triggers),
                        |triggers|, e);
  }

  /** The early count cap rejects nothing the uncapped rules would accept. */
  lemma CapRejectsNothingMore(triggers: seq<Json>)
    ensures TriggerErrors(triggers) == [] <==> UncappedTriggerErrors(triggers) == []
  {
    ConditionsReported(Report([], |triggers| < TRIGGERS_MIN, Whole(Triggers), TRIGGERS_TOO_FEW), CheckAll(triggers),
                       |triggers|);
    CleanIsSound(triggers);
    if UncappedTriggerErrors(triggers) == [] {
      NineFieldsAtMost(triggers);
    }
  }

  /** The `seen_fields` dictionary holds the matchable fields met so far. */
  ghost predicate Remembers(seen: map<FieldName, nat>, cs: seq<Checked>, n: nat)
    requires n <= |cs|
  {
    forall f :: f in seen <==> exists j | 0 <= j < n :: cs[j].Condition? && cs[j].matchable && cs[j].field == f
  }

  /** Whether a field is matchable depends on the field alone. */
  ghost predicate Consistent(cs: seq<Checked>) {
    forall i, j | 0 <= i < |cs| && 0 <= j < |cs| && cs[i].Condition? && cs[j].Condition? ::
      cs[i].field == cs[j].field ==> cs[i].matchable == cs[j].matchable
  }

  lemma RememberedExactly(seen: map<FieldName, nat>, cs: seq<Checked>, i: nat)
    requires i < |cs| && Remembers(seen, cs, i) && cs[i].Condition? && cs[i].matchable
    requires Consistent(cs)
    ensures cs[i].field in seen <==> SeenBefore(cs, i)
    ensures Remembers(if SeenBefore(cs, i) then seen else seen[cs[i].field := i], cs, i + 1)
  {
  }

  /** The loop over the conditions, appending to the errors so far. */
  method CheckConditions(cs: seq<Checked>, few: seq<FieldError>) returns (errors: seq<FieldError>)
    requires Consistent(cs)
    ensures errors == ReportConditions(few, cs, |cs|)
  {
    errors := few;
    var seen: map<FieldName, nat> := map[];
    for i := 0 to |cs|
      invariant errors == ReportConditions(few, cs, i)
      invariant Remembers(seen, cs, i)
    {
      if cs[i].Malformed? {
        errors := errors + [FieldError(Item(Triggers, i), INVALID_TRIGGER_SHAPE)];
        continue;
      }
      if cs[i].tooLong {
        errors := errors + [FieldError(ItemValue(Triggers, i), TRIGGER_VALUE_TOO_LONG)];
      }
      if !cs[i].matchable {
        errors := errors + [FieldError(ItemField(Triggers, i), UNKNOWN_FIELD)];
      } else {
        RememberedExactly(seen, cs, i);
        if cs[i].field in seen {
          errors := errors + [FieldError(ItemField(Triggers, i), TRIGGERS_DUPLICATE_FIELD)];
        } else {
          seen := seen[cs[i].field := i];
        }
      }
    }
  }

  method ValidateTriggers(triggers: seq<Json>) returns (errors: seq<FieldError>)
    ensures errors == TriggerErrors(triggers)
    ensures errors == [] <==> AcceptableTriggers(triggers)
    ensures |errors| <= 2 * TRIGGERS_MAX
  {
    TriggersAcceptedExactly(triggers);
    if |triggers| > TRIGGERS_MAX {
      return [FieldError(Whole(Triggers), TRIGGERS_TOO_MANY)];
    }
    errors := [];
    if |triggers| < TRIGGERS_MIN {
      errors := errors + [FieldError(Whole(Triggers), TRIGGERS_TOO_FEW)];
    }
    errors := CheckConditions(CheckAll(triggers), errors);
  }

  // --- cooldown -------------------------------------------------------------------------------

  predicate Matchable(field: Json) { field.JString? && field.s in MATCHABLE_FIELDS }

  function ReportFields(errors: seq<FieldError>, fields: seq<Json>, n: nat): seq<FieldError>
    requires n <= |fields|
  {
    if n == 0 then errors
    else Report(ReportFields(errors, fields, n - 1), !Matchable(fields[n - 1]), Item(CooldownFields, n - 1),
                UNKNOWN_FIELD)
  }

  /** Neither is given, or a window of at most a day with at most nine matchable fields, repeats included. */
  ghost predicate AcceptableCooldown(seconds: Option<int>, fields: Option<seq<Json>>) {
    && (seconds.Some? <==> fields.Some?)
    && (seconds.Some? ==> 1 <= seconds.value <= COOLDOWN_SECONDS_MAX)
    && (fields.Some? ==> |fields.value| <= COOLDOWN_FIELDS_MAX && forall f | f in fields.value :: Matchable(f))
  }

  lemma {:induction false} FieldsReported(errors: seq<FieldError>, fields: seq<Json>, n: nat)
    requires n <= |fields|
    ensures |errors| <= |ReportFields(errors, fields, n)| <= |errors| + n
    ensures |ReportFields(errors, fields, n)| == |errors| <==> forall i | 0 <= i < n :: Matchable(fields[i])
  {
    if n > 0 {
      FieldsReported(errors, fields, n - 1);
    }
  }

  /** What is wrong with the pair as such, before its entries are looked at. */
  function CooldownPairErrors(seconds: Option<int>, fields: Option<seq<Json>>): seq<FieldError> {
    if seconds.Some? then
      Report(Report([], !(1 <= seconds.value <= COOLDOWN_SECONDS_MAX), Whole(CooldownSeconds), COOLDOWN_OUT_OF_RANGE),
             fields.None?, Whole(CooldownFields), COOLDOWN_FIELDS_REQUIRED)
    else Report([], fields.Some?, Whole(CooldownFields), COOLDOWN_FIELDS_WITHOUT_SECONDS)
  }

  function CooldownErrors(seconds: Option<int>, fields: Option<seq<Json>>): seq<FieldError> {
    var pair := CooldownPairErrors(seconds, fields);
    if fields.None? then pair
    else if |fields.value| > COOLDOWN_FIELDS_MAX then
      Report(pair, true, Whole(CooldownFields), COOLDOWN_FIELDS_TOO_MANY)
    else ReportFields(pair, fields.value, |fields.value|)
  }

  lemma CooldownAcceptedExactly(seconds: Option<int>, fields: Option<seq<Json>>)
    ensures CooldownErrors(seconds, fields) == [] <==> AcceptableCooldown(seconds, fields)
    ensures |CooldownErrors(seconds, fields)| <= 1 + COOLDOWN_FIELDS_MAX
  {
    if fields.Some? {
      FieldsReported(CooldownPairErrors(seconds, fields), fields.value, |fields.value|);
    }
  }

  ghost predicate BreaksCooldown(seconds: Option<int>, fields: Option<seq<Json>>, e: FieldError) {
    || (e == FieldError(Whole(CooldownSeconds), COOLDOWN_OUT_OF_RANGE)
        && seconds.Some? && (seconds.value < 1 || seconds.value > 86400))
    || (e == FieldError(Whole(CooldownFields), COOLDOWN_FIELDS_REQUIRED) && seconds.Some? && fields.None?)
    || (e == FieldError(Whole(CooldownFields), COOLDOWN_FIELDS_WITHOUT_SECONDS) && seconds.None? && fields.Some?)
    || (e == FieldError(Whole(CooldownFields), COOLDOWN_FIELDS_TOO_MANY) && fields.Some? && |fields.value| > 9)
    || (&& fields.Some? && |fields.value| <= 9 && e.path.Item? && e.path.index < |fields.value|
        && e == FieldError(Item(CooldownFields, e.path.index), UNKNOWN_FIELD)
        && !Matchable(fields.value[e.path.index]))
  }

  lemma {:induction false} UnknownFieldsReported(errors: seq<FieldError>, fields: seq<Json>, n: nat, e: FieldError)
    requires n <= |fields|
    ensures e in ReportFields(errors, fields, n) <==>
      || e in errors
      || (&& e.path.Item? && e.path.index < n && e == FieldError(Item(CooldownFields, e.path.index), UNKNOWN_FIELD)
          && !Matchable(fields[e.path.index]))
  {
    if n > 0 {
      UnknownFieldsReported(errors, fields, n - 1, e);
    }
  }

  /** Every broken cooldown rule under its own code, and no other. */
  lemma CooldownFailuresNamed(seconds: Option<int>, fields: Option<seq<Json>>, e: FieldError)
    ensures e in CooldownErrors(seconds, fields) <==> BreaksCooldown(seconds, fields, e)
  {
    if fields.Some? {
      UnknownFieldsReported(CooldownPairErrors(seconds, fields), fields.value, |fields.value|, e);
    }
  }

  method ValidateCooldown(seconds: Option<int>, fields: Option<seq<Json>>) returns (errors: seq<FieldError>)
    ensures errors == CooldownErrors(seconds, fields)
    ensures errors == [] <==> AcceptableCooldown(seconds, fields)
    ensures |errors| <= 1 + COOLDOWN_FIELDS_MAX
  {
    CooldownAcceptedExactly(seconds, fields);
    errors := [];
    if seconds.Some? {
      if seconds.value <= 0 || seconds.value > COOLDOWN_SECONDS_MAX {
        errors := errors + [FieldError(Whole(CooldownSeconds), COOLDOWN_OUT_OF_RANGE)];
      }
      if fields.None? {
        errors := errors + [FieldError(Whole(CooldownFields), COOLDOWN_FIELDS_REQUIRED)];
      }
    } else if fields.Some? {
      errors := errors + [FieldError(Whole(CooldownFields), COOLDOWN_FIELDS_WITHOUT_SECONDS)];
    }
    var given := if fields.Some? then fields.value else [];
    if |given| > COOLDOWN_FIELDS_MAX {
      errors := errors + [FieldError(Whole(CooldownFields), COOLDOWN_FIELDS_TOO_MANY)];
      return;
    }
    ghost var pair := errors;
    for i := 0 to |given|
      invariant errors == ReportFields(pair, given, i)
    {
      if !Matchable(given[i]) {
        errors := errors + [FieldError(Item(CooldownFields, i), UNKNOWN_FIELD)];
      }
    }
  }

  /** Unlike the triggers' cap, this one does bind: ten entries may all be matchable, but then some repeat. */
  lemma CooldownCapBindsOnRepeats(fields: seq<Json>)
    requires forall i | 0 <= i < |fields| :: Matchable(fields[i])
    ensures |fields| > COOLDOWN_FIELDS_MAX ==> exists i, j | 0 <= i < j < |fields| :: fields[i] == fields[j]
    ensures !AcceptableCooldown(Some(1), Some(fields)) <==> |fields| > COOLDOWN_FIELDS_MAX
  {
    if forall i, j | 0 <= i < j < |fields| :: fields[i] != fields[j] {
      var triggers := seq(|fields|, i requires 0 <= i < |fields| =>
        JObject(map["field" := fields[i], "value" := JString("")]));
      assert SoundConditions(triggers);
      NineFieldsAtMost(triggers);
    }
  }

  // --- the rest -------------------------------------------------------------------------------

  function ValidateNamespace(namespace: Wallet): (r: Option<FieldError>) {
    if Blank(namespace.name) then Some(FieldError(Whole(Namespace), NAMESPACE_INVALID)) else None
  }

  function ValidateTimeout(seconds: Option<int>): seq<FieldError> {
    if seconds.None? then []
    else Report([], seconds.value <= 0 || seconds.value > TIMEOUT_SECONDS_MAX, Whole(TimeoutSeconds),
                TIMEOUT_OUT_OF_RANGE)
  }

  function ValidateGrace(seconds: Option<int>): seq<FieldError> {
    if seconds.None? then []
    else Report([], seconds.value < GRACE_SECONDS_MIN || seconds.value > GRACE_SECONDS_MAX, Whole(GraceSeconds),
                 GRACE_OUT_OF_RANGE)
  }

  /** A resolved record: not an IP address at all, or one that is global or not. */
  datatype Address = Unparsable | Ip(global: bool)
  datatype Resolution = TimedOut | Unresolved | Resolved(addresses: seq<Address>)

  /** What parsing the Logstash URL and resolving its host say. */
  datatype UrlFacts = UrlFacts(scheme: string, hostname: string, resolution: Resolution)

  ghost predicate AcceptableUrl(url: UrlFacts) {
    && url.scheme == "https" && url.hostname != "" && url.resolution.Resolved?
    && forall a | a in url.resolution.addresses :: a.Ip? ==> a.global
  }

  function LogstashErrors(url: Option<UrlFacts>): seq<FieldError> {
    if url.None? then []
    else if url.value.scheme != "https" || url.value.hostname == "" then
      [FieldError(Whole(LogstashUrl), LOGSTASH_SCHEME_NOT_HTTPS)]
    else if !url.value.resolution.Resolved? then [FieldError(Whole(LogstashUrl), LOGSTASH_UNRESOLVABLE)]
    else Report([], Ip(false) in url.value.resolution.addresses, Whole(LogstashUrl), LOGSTASH_PRIVATE_ADDRESS)
  }

  method ValidateLogstashUrl(url: Option<UrlFacts>) returns (errors: seq<FieldError>)
    ensures errors == LogstashErrors(url)
    ensures errors == [] <==> url.None? || AcceptableUrl(url.value)
  {
    if url.None? {
      return [];
    }
    if url.value.scheme != "https" || url.value.hostname == "" {
      return [FieldError(Whole(LogstashUrl), LOGSTASH_SCHEME_NOT_HTTPS)];
    }
    if !url.value.resolution.Resolved? {
      return [FieldError(Whole(LogstashUrl), LOGSTASH_UNRESOLVABLE)];
    }
    var addresses := url.value.resolution.addresses;
    for i := 0 to |addresses|
      invariant Ip(false) !in addresses[..i]
    {
      if addresses[i].Unparsable? {
        continue;
      }
      if !addresses[i].global {
        return [FieldError(Whole(LogstashUrl), LOGSTASH_PRIVATE_ADDRESS)];
      }
    }
    errors := [];
  }

  /** A top-level statement: a function definition with its positional parameters, or another. */
  datatype Statement = Def(name: string, positionalOnly: nat, positional: nat) | Other

  /** What parsing the script gives: nothing, or its top-level statements. */
  type Syntax = Option<seq<Statement>>

  predicate IsHandle(s: Statement) { s.Def? && s.name == "handle" }

  function FirstHandle(body: seq<Statement>): (r: Option<Statement>)
    ensures r.Some? ==> IsHandle(r.value)
  {
    if body == [] then None else if IsHandle(body[0]) then Some(body[0]) else FirstHandle(body[1..])
  }

  predicate GoodArity(handle: Statement)
    requires handle.Def?
  {
    HANDLE_PARAMS_MIN <= handle.positionalOnly + handle.positional <= HANDLE_PARAMS_MAX
  }

  function ValidateScript(script: string, syntax: Syntax): seq<FieldError> {
    if Utf8Length(script) > SCRIPT_MAX_BYTES then [FieldError(Whole(Script), SCRIPT_TOO_LARGE)]
    else if syntax.None? then [FieldError(Whole(Script), SCRIPT_SYNTAX_ERROR)]
    else
      var handle := FirstHandle(syntax.value);
      if handle.None? then [FieldError(Whole(Script), HANDLE_MISSING)]
      else Report([], !GoodArity(handle.value), Whole(Script), HANDLE_BAD_ARITY)
  }

  /** A body whose first top-level `handle` takes one or two positional parameters. */
  ghost predicate AcceptableScript(script: string, syntax: Syntax) {
    && Utf8Length(script) <= SCRIPT_MAX_BYTES && syntax.Some?
    && exists i | 0 <= i < |syntax.value| ::
         && IsHandle(syntax.value[i]) && GoodArity(syntax.value[i])
         && forall k | 0 <= k < i :: !IsHandle(syntax.value[k])
  }

  lemma {:induction false} FirstHandleIsFirst(body: seq<Statement>, i: nat)
    requires i < |body| && IsHandle(body[i]) && forall k | 0 <= k < i :: !IsHandle(body[k])
    ensures FirstHandle(body) == Some(body[i])
  {
    if i > 0 {
      FirstHandleIsFirst(body[1..], i - 1);
    }
  }

  lemma {:induction false} FirstHandleFound(body: seq<Statement>) returns (i: nat)
    requires FirstHandle(body).Some?
    ensures i < |body| && IsHandle(body[i]) && FirstHandle(body) == Some(body[i])
    ensures forall k | 0 <= k < i :: !IsHandle(body[k])
  {
    if IsHandle(body[0]) {
      i := 0;
    } else {
      var rest := FirstHandleFound(body[1..]);
      i := rest + 1;
    }
  }

  lemma ScriptAcceptedExactly(script: string, syntax: Syntax)
    ensures ValidateScript(script, syntax) == [] <==> AcceptableScript(script, syntax)
    ensures |ValidateScript(script, syntax)| <= 1
  {
    if AcceptableScript(script, syntax) {
      var i :| 0 <= i < |syntax.value| && IsHandle(syntax.value[i]) && GoodArity(syntax.value[i])
        && forall k | 0 <= k < i :: !IsHandle(syntax.value[k]);
      FirstHandleIsFirst(syntax.value, i);
    }
    if ValidateScript(script, syntax) == [] {
      var i := FirstHandleFound(syntax.value);
    }
  }

  // --- the whole payload -------------------------------------------------------------------------

  ghost predicate InRange(seconds: Option<int>, low: int, high: int) {
    seconds.Some? ==> low <= seconds.value <= high
  }

  ghost predicate Acceptable(data: AutomationIn, url: Option<UrlFacts>, syntax: Syntax) {
    && !Blank(data.namespace.name)
    && AcceptableTriggers(data.triggers)
    && AcceptableCooldown(data.cooldownSeconds, data.cooldownFields)
    && InRange(data.timeoutSeconds, 1, TIMEOUT_SECONDS_MAX)
    && InRange(data.graceSeconds, GRACE_SECONDS_MIN, GRACE_SECONDS_MAX)
    && (url.Some? ==> AcceptableUrl(url.value))
    && AcceptableScript(data.script, syntax)
  }

  /** Every rule's failures, in the order of the rules. */
  function AllErrors(data: AutomationIn, url: Option<UrlFacts>, syntax: Syntax): seq<FieldError> {
    Report([], Blank(data.namespace.name), Whole(Namespace), NAMESPACE_INVALID)
    + TriggerErrors(data.triggers)
    + CooldownErrors(data.cooldownSeconds, data.cooldownFields)
    + ValidateTimeout(data.timeoutSeconds)
    + ValidateGrace(data.graceSeconds)
    + LogstashErrors(url)
    + ValidateScript(data.script, syntax)
  }

  const ERRORS_MAX := 33

  lemma PayloadAcceptedExactly(data: AutomationIn, url: Option<UrlFacts>, syntax: Syntax)
    ensures AllErrors(data, url, syntax) == [] <==> Acceptable(data, url, syntax)
    ensures |AllErrors(data, url, syntax)| <= ERRORS_MAX
  {
    TriggersAcceptedExactly(data.triggers);
    CooldownAcceptedExactly(data.cooldownSeconds, data.cooldownFields);
    ScriptAcceptedExactly(data.script, syntax);
  }

  /** All failures in one answer: none exactly for an acceptable payload, and never more than 33. `url` and
      `syntax` are what the URL and script parsers say about this payload. */
  method ValidateAutomation(data: AutomationIn, url: Option<UrlFacts>, syntax: Syntax) returns (errors: seq<FieldError>)
    ensures errors == AllErrors(data, url, syntax)
    ensures errors == [] <==> Acceptable(data, url, syntax)
    ensures |errors| <= ERRORS_MAX
  {
    errors := [];
    var namespaceError := ValidateNamespace(data.namespace);
    if namespaceError.Some? {
      errors := errors + [namespaceError.value];
    }
    var triggers := ValidateTriggers(data.triggers);
    errors := errors + triggers;
    var cooldown := ValidateCooldown(data.cooldownSeconds, data.cooldownFields);
    errors := errors + cooldown;
    errors := errors + ValidateTimeout(data.timeoutSeconds);
    errors := errors + ValidateGrace(data.graceSeconds);
    var logstash := ValidateLogstashUrl(url);
    errors := errors + logstash;
    errors := errors + ValidateScript(data.script, syntax);
    PayloadAcceptedExactly(data, url, syntax);
  }

  ghost predicate BreaksUrl(url: Option<UrlFacts>, e: FieldError) {
    url.Some? &&
    if url.value.scheme != "https" || url.value.hostname == "" then
      e == FieldError(Whole(LogstashUrl), LOGSTASH_SCHEME_NOT_HTTPS)
    else if url.value.resolution.TimedOut? || url.value.resolution.Unresolved? then
      e == FieldError(Whole(LogstashUrl), LOGSTASH_UNRESOLVABLE)
    else
      && e == FieldError(Whole(LogstashUrl), LOGSTASH_PRIVATE_ADDRESS)
      && exists i | 0 <= i < |url.value.resolution.addresses| ::
           url.value.resolution.addresses[i].Ip? && !url.value.resolution.addresses[i].global
  }

  lemma UrlFailureNamed(url: Option<UrlFacts>, e: FieldError)
    ensures e in LogstashErrors(url) <==> BreaksUrl(url, e)
  {
    if url.Some? && url.value.resolution.Resolved? {
      var addresses := url.value.resolution.addresses;
      if i :| 0 <= i < |addresses| && addresses[i].Ip? && !addresses[i].global {
        assert addresses[i] == Ip(false);
      }
    }
  }

  ghost predicate BreaksScript(script: string, syntax: Syntax, e: FieldError) {
    if Utf8Length(script) > 262144 then e == FieldError(Whole(Script), SCRIPT_TOO_LARGE)
    else if syntax.None? then e == FieldError(Whole(Script), SCRIPT_SYNTAX_ERROR)
    else if forall s | s in syntax.value :: !IsHandle(s) then e == FieldError(Whole(Script), HANDLE_MISSING)
    else e == FieldError(Whole(Script), HANDLE_BAD_ARITY) && !AcceptableScript(script, syntax)
  }

  lemma {:induction false} NoHandleNoneFound(body: seq<Statement>)
    requires forall s | s in body :: !IsHandle(s)
    ensures FirstHandle(body).None?
  {
    if body != [] {
      NoHandleNoneFound(body[1..]);
    }
  }

  lemma ScriptFailureNamed(script: string, syntax: Syntax, e: FieldError)
    ensures e in ValidateScript(script, syntax) <==> BreaksScript(script, syntax, e)
  {
    ScriptAcceptedExactly(script, syntax);
    if syntax.Some? {
      if forall s | s in syntax.value :: !IsHandle(s) {
        NoHandleNoneFound(syntax.value);
      } else if FirstHandle(syntax.value).None? {
        FirstHandleExists(syntax.value);
      }
    }
  }

  lemma {:induction false} FirstHandleExists(body: seq<Statement>)
    requires exists s | s in body :: IsHandle(s)
    ensures FirstHandle(body).Some?
  {
    if !IsHandle(body[0]) {
      FirstHandleExists(body[1..]);
    }
  }

  /** Every rule a payload breaks, under its own path and code. */
  ghost predicate BreaksPayload(data: AutomationIn, url: Option<UrlFacts>, syntax: Syntax, e: FieldError) {
    || (e == FieldError(Whole(Namespace), NAMESPACE_INVALID) && Blank(data.namespace.name))
    || BreaksTriggers(data.triggers, e)
    || BreaksCooldown(data.cooldownSeconds, data.cooldownFields, e)
    || (e == FieldError(Whole(TimeoutSeconds), TIMEOUT_OUT_OF_RANGE)
        && data.timeoutSeconds.Some? && (data.timeoutSeconds.value < 1 || data.timeoutSeconds.value > 900))
    || (e == FieldError(Whole(GraceSeconds), GRACE_OUT_OF_RANGE)
        && data.graceSeconds.Some? && (data.graceSeconds.value < 60 || data.graceSeconds.value > 3600))
    || BreaksUrl(url, e)
    || BreaksScript(data.script, syntax, e)
  }

  /** The answer names exactly the rules the payload breaks. */
  lemma EveryPayloadFailureIsNamed(data: AutomationIn, url: Option<UrlFacts>, syntax: Syntax, e: FieldError)
    ensures e in AllErrors(data, url, syntax) <==> BreaksPayload(data, url, syntax, e)
  {
    EveryFailureIsNamed(data.triggers, e);
    CooldownFailuresNamed(data.cooldownSeconds, data.cooldownFields, e);
    UrlFailureNamed(url, e);
    ScriptFailureNamed(data.script, syntax, e);
  }

  /** An accepted payload is stored with its own limits: `value or default` then replaces only an absent one. */
  lemma AcceptedLimitsAreStored(data: AutomationIn, url: Option<UrlFacts>, syntax: Syntax)
    requires Acceptable(data, url, syntax)
    ensures var d := DefinitionOf(data);
      && d.timeoutSeconds == (if data.timeoutSeconds.Some? then data.timeoutSeconds.value else TIMEOUT_SECONDS_DEFAULT)
      && d.graceSeconds == (if data.graceSeconds.Some? then data.graceSeconds.value else GRACE_SECONDS_DEFAULT)
      && 1 <= d.timeoutSeconds <= TIMEOUT_SECONDS_MAX && GRACE_SECONDS_MIN <= d.graceSeconds <= GRACE_SECONDS_MAX
  {
  }

  // --- the bound is reached -----------------------------------------------------------------------

  lemma {:induction false} AsciiLength(n: nat)
    ensures Utf8Length(seq(n, _ => 'a')) == n
  {
    if n > 0 {
      assert seq(n, _ => 'a')[..n - 1] == seq(n - 1, _ => 'a');
      AsciiLength(n - 1);
    }
  }

  lemma {:induction false} TwoErrorsEach(cs: seq<Checked>, n: nat)
    requires n <= |cs| && forall i | 0 <= i < n :: cs[i].Condition? && cs[i].tooLong && !cs[i].matchable
    ensures |ReportConditions([], cs, n)| == 2 * n
  {
    if n > 0 {
      TwoErrorsEach(cs, n - 1);
    }
  }

  lemma {:induction false} OneErrorEach(errors: seq<FieldError>, fields: seq<Json>, n: nat)
    requires n <= |fields| && forall i | 0 <= i < n :: !Matchable(fields[i])
    ensures |ReportFields(errors, fields, n)| == |errors| + n
  {
    if n > 0 {
      OneErrorEach(errors, fields, n - 1);
    }
  }

  function WorstCondition(): Json {
    JObject(map["field" := JString("x"), "value" := JString(seq(TRIGGER_VALUE_MAX_BYTES + 1, _ => 'a'))])
  }

  lemma WorstConditionFails()
    ensures var c := Check(WorstCondition()); c.Condition? && c.tooLong && !c.matchable
  {
    AsciiLength(TRIGGER_VALUE_MAX_BYTES + 1);
    assert WellShaped(WorstCondition());
  }

  lemma WorstTriggers() returns (triggers: seq<Json>)
    ensures |TriggerErrors(triggers)| == 2 * TRIGGERS_MAX
  {
    WorstConditionFails();
    triggers := seq(TRIGGERS_MAX, _ => WorstCondition());
    TwoErrorsEach(CheckAll(triggers), TRIGGERS_MAX);
  }

  /** Some payload does earn all 33. */
  lemma ThirtyThreeIsReached() returns (data: AutomationIn, url: Option<UrlFacts>, syntax: Syntax)
    ensures |AllErrors(data, url, syntax)| == ERRORS_MAX
  {
    var triggers := WorstTriggers();
    var fields := seq(COOLDOWN_FIELDS_MAX, _ => JNull);
    OneErrorEach(CooldownPairErrors(Some(0), Some(fields)), fields, COOLDOWN_FIELDS_MAX);
    data := AutomationIn("", Wallet(""), "", triggers, None, Some(0), Some(fields), Some(0), Some(0), None);
    url, syntax := Some(UrlFacts("http", "", TimedOut)), None;
    ScriptAcceptedExactly("", None);
  }
}
