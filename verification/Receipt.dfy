/** The recursive schema preflight and receipt validator of scripts/validate_hosted_proof_receipt.py
    (lines 82-277).  The regular-expression engine is a parameter; numbers are finite. */
module Receipt {
  import opened Json

  const SUPPORTED_DIALECT := "https://json-schema.org/draft/2020-12/schema"
  const ANNOTATIONS := {"$id", "$schema", "description", "title"}
  const VALIDATIONS := {"additionalProperties", "const", "enum", "maximum", "minimum", "oneOf", "pattern",
                        "properties", "required", "type"}
  const TYPES := {"integer", "number", "object", "string"}

  /** Accept where the function returns; Invalid and ContractError where it raises its two exceptions;
      Crash where Python raises anything else. */
  datatype Outcome = Accept | Invalid | ContractError | Crash

  datatype Regex = Regex(compiles: string -> bool, fullMatch: (string, string) -> bool)

  predicate Has(s: Json, name: string) { s.Obj? && name in Names(s.members) }

  /** `dict.get`: null when absent. */
  function Get(s: Json, name: string): (r: Json)
    ensures if Has(s, name) then r < s else r == Null
  {
    if Has(s, name) then
      LookupMeans(s.members, name);
      Lookup(s.members, name).value
    else Null
  }

  // ---------- equality ----------

  predicate IsNumber(j: Json) { j.Int? || j.Float? }

  /** The value Python compares: True is 1 and False is 0. */
  function Amount(j: Json): real
    requires IsNumber(j) || j.Bool?
  {
    match j
    case Int(n) => n as real
    case Float(r) => r
    case Bool(b) => if b then 1.0 else 0.0
  }

  /** Python's `==` on parsed JSON, where a boolean equals the number it stands for. */
  predicate PyEqual(l: Json, r: Json)
    decreases r
  {
    if (IsNumber(l) || l.Bool?) && (IsNumber(r) || r.Bool?) then Amount(l) == Amount(r)
    else if l.Arr? && r.Arr? then
      |l.items| == |r.items| && forall i :: 0 <= i < |r.items| ==> PyEqual(l.items[i], r.items[i])
    else if l.Obj? && r.Obj? then
      && Names(l.members) == Names(r.members)
      && forall name :: name in Names(r.members) ==> PyEqual(Get(l, name), Get(r, name))
    else l == r
  }

  predicate SameKind(l: Json, r: Json) {
    (l.Null? <==> r.Null?) && (l.Bool? <==> r.Bool?) && (l.Int? <==> r.Int?) && (l.Float? <==> r.Float?)
    && (l.Str? <==> r.Str?) && (l.Arr? <==> r.Arr?) && (l.Obj? <==> r.Obj?)
  }

  /** `_json_equal`. */
  predicate JsonEqual(l: Json, r: Json) {
    if l.Bool? || r.Bool? then l.Bool? && r.Bool? && l.b == r.b
    else if IsNumber(l) && IsNumber(r) then Amount(l) == Amount(r)
    else SameKind(l, r) && PyEqual(l, r)
  }

  /** Equality of JSON values: booleans are never numbers, at any depth. */
  predicate JsonSame(l: Json, r: Json)
    decreases r
  {
    if IsNumber(l) && IsNumber(r) then Amount(l) == Amount(r)
    else if l.Arr? && r.Arr? then
      |l.items| == |r.items| && forall i :: 0 <= i < |r.items| ==> JsonSame(l.items[i], r.items[i])
    else if l.Obj? && r.Obj? then
      && Names(l.members) == Names(r.members)
      && forall name :: name in Names(r.members) ==> JsonSame(Get(l, name), Get(r, name))
    else l == r
  }

  // ---------- when the two equalities agree ----------

  predicate Ambiguous(j: Json) { j.Bool? || (IsNumber(j) && (Amount(j) == 0.0 || Amount(j) == 1.0)) }

  /** No boolean, 0 or 1 anywhere inside. */
  predicate Clear(j: Json) {
    match j
    case Arr(items) => forall i :: 0 <= i < |items| ==> Clear(items[i])
    case Obj(ms) => forall name :: name in Names(ms) ==> Clear(Get(j, name))
    case _ => !Ambiguous(j)
  }

  /** A constant against which `_json_equal` is exact. */
  predicate Plain(j: Json) { j.Arr? || j.Obj? ==> Clear(j) }

  /** The other reading of every boolean, 0 and 1. */
  function Flip(j: Json): Json {
    match j
    case Bool(b) => Int(if b then 1 else 0)
    case Int(n) => if n == 0 then Bool(false) else if n == 1 then Bool(true) else j
    case Float(r) => if r == 0.0 then Bool(false) else if r == 1.0 then Bool(true) else j
    case Arr(items) => Arr(seq(|items|, i requires 0 <= i < |items| => Flip(items[i])))
    case Obj(ms) => Obj(FlipMembers(ms))
    case _ => j
  }

  function FlipMembers(ms: seq<Member>): seq<Member> {
    seq(|ms|, i requires 0 <= i < |ms| => Member(ms[i].name, Flip(ms[i].value)))
  }

  lemma {:induction false} FlipLookup(ms: seq<Member>, name: string)
    ensures Names(FlipMembers(ms)) == Names(ms)
    ensures name in Names(ms) ==>
              Lookup(ms, name).Some? && Lookup(FlipMembers(ms), name) == Some(Flip(Lookup(ms, name).value))
  {
    assert forall i :: 0 <= i < |ms| ==> FlipMembers(ms)[i].name == ms[i].name;
    LookupMeans(ms, name);
    LookupMeans(FlipMembers(ms), name);
    if ms != [] {
      FlipLookup(ms[1..], name);
      assert FlipMembers(ms)[1..] == FlipMembers(ms[1..]);
    }
  }

  lemma {:induction false} ClearAgree(l: Json, r: Json)
    requires Clear(r)
    ensures PyEqual(l, r) == JsonSame(l, r)
    decreases r
  {
    match r
    case Arr(items) =>
      if l.Arr? && |l.items| == |items| {
        forall i | 0 <= i < |items| ensures PyEqual(l.items[i], items[i]) == JsonSame(l.items[i], items[i]) {
          ClearAgree(l.items[i], items[i]);
        }
      }
    case Obj(ms) =>
      if l.Obj? && Names(l.members) == Names(ms) {
        forall name | name in Names(ms)
          ensures PyEqual(Get(l, name), Get(r, name)) == JsonSame(Get(l, name), Get(r, name))
        {
          ClearAgree(Get(l, name), Get(r, name));
        }
      }
    case _ =>
  }

  lemma {:induction false} FlipEqual(r: Json)
    ensures PyEqual(Flip(r), r)
    ensures !Clear(r) ==> !JsonSame(Flip(r), r)
    decreases r
  {
    match r
    case Arr(items) =>
      forall i | 0 <= i < |items|
        ensures PyEqual(Flip(r).items[i], items[i]) && (!Clear(items[i]) ==> !JsonSame(Flip(r).items[i], items[i]))
      {
        FlipEqual(items[i]);
      }
    case Obj(ms) =>
      forall name | name in Names(ms)
        ensures Get(Flip(r), name) == Flip(Get(r, name)) && PyEqual(Get(Flip(r), name), Get(r, name))
        ensures !Clear(Get(r, name)) ==> !JsonSame(Get(Flip(r), name), Get(r, name))
      {
        FlipLookup(ms, name);
        FlipEqual(Get(r, name));
      }
      FlipLookup(ms, "");
    case _ =>
  }

  /** `_json_equal` is equality of JSON values against a constant exactly when that constant is a scalar or
      holds no boolean, 0 or 1: Python finds `[True] == [1]`. */
  lemma EqualMeans(r: Json)
    ensures (forall l :: JsonEqual(l, r) == JsonSame(l, r)) <==> Plain(r)
  {
    hide PyEqual, JsonSame, Clear, Flip;
    if Plain(r) {
      forall l ensures JsonEqual(l, r) == JsonSame(l, r) { PlainAgree(l, r); }
    } else {
      FlipEqual(r);
      FlipKind(r);
      assert JsonEqual(Flip(r), r);
    }
  }

  lemma FlipKind(r: Json)
    requires r.Arr? || r.Obj?
    ensures SameKind(Flip(r), r)
  {
  }

  lemma PlainAgree(l: Json, r: Json)
    requires Plain(r)
    ensures JsonEqual(l, r) == JsonSame(l, r)
  {
    if Clear(r) { ClearAgree(l, r); }
  }

  // ---------- types and bounds ----------

  predicate IsWhole(j: Json) { j.Int? || (j.Float? && j.r == j.r.Floor as real) }

  /** `_matches_type`; None where the schema names an unsupported type. */
  function MatchesType(v: Json, expected: string): Option<bool> {
    if expected == "object" then Some(v.Obj?)
    else if expected == "string" then Some(v.Str?)
    else if expected == "integer" then Some(IsWhole(v))
    else if expected == "number" then Some(IsNumber(v))
    else None
  }

  /** The value lies within the bounds that are numbers. */
  predicate Within(v: Json, minimum: Json, maximum: Json) {
    && IsNumber(v)
    && (IsNumber(minimum) ==> Amount(minimum) <= Amount(v))
    && (IsNumber(maximum) ==> Amount(v) <= Amount(maximum))
  }

  // ---------- what a schema may look like ----------

  predicate IsText(j: Json, texts: set<string>) { j.Str? && j.s in texts }

  predicate IsNumeric(s: Json) { IsText(Get(s, "type"), {"integer", "number"}) }

  predicate HasObjectContract(s: Json) {
    Get(s, "properties") != Null || Get(s, "required") != Null || Has(s, "additionalProperties")
  }

  predicate DistinctTexts(items: seq<Json>) {
    && (forall i :: 0 <= i < |items| ==> items[i].Str?)
    && (forall i, j :: 0 <= i < j < |items| ==> items[i] != items[j])
  }

  /** Keywords, annotations and dialect. */
  predicate HeaderOk(s: Json, root: bool) {
    && s.Obj? && Names(s.members) <= ANNOTATIONS + VALIDATIONS
    && (forall name :: name in ANNOTATIONS && Has(s, name) ==> Get(s, name).Str?)
    && (if root then Get(s, "$schema") == Str(SUPPORTED_DIALECT) else !Has(s, "$schema"))
  }

  predicate TypeOk(s: Json) { Get(s, "type") == Null || IsText(Get(s, "type"), TYPES) }

  predicate BranchesOk(s: Json) {
    var branches := Get(s, "oneOf");
    branches == Null || (branches.Arr? && branches.items != [])
  }

  predicate ObjectOk(s: Json) {
    HasObjectContract(s) ==>
      && IsText(Get(s, "type"), {"object"})
      && Get(s, "properties").Obj?
      && Get(s, "required").Arr? && DistinctTexts(Get(s, "required").items)
      && Get(s, "additionalProperties") == Bool(false)
  }

  predicate EnumOk(s: Json) {
    var allowed := Get(s, "enum");
    allowed == Null || (allowed.Arr? && allowed.items != [])
  }

  predicate PatternOk(re: Regex, s: Json) {
    var pattern := Get(s, "pattern");
    pattern == Null || (pattern.Str? && IsText(Get(s, "type"), {"string"}) && re.compiles(pattern.s))
  }

  predicate BoundsOk(s: Json) {
    var minimum, maximum := Get(s, "minimum"), Get(s, "maximum");
    minimum != Null || maximum != Null ==>
      && IsNumeric(s)
      && (minimum == Null || IsNumber(minimum)) && (maximum == Null || IsNumber(maximum))
      && (IsNumber(minimum) && IsNumber(maximum) ==> Amount(minimum) <= Amount(maximum))
  }

  /** Every subschema is as well formed as the root, and only the root names its dialect. */
  predicate Preflighted(re: Regex, s: Json, root: bool)
    decreases s
  {
    && HeaderOk(s, root) && TypeOk(s) && BranchesOk(s) && ObjectOk(s) && EnumOk(s) && PatternOk(re, s) && BoundsOk(s)
    && (Get(s, "oneOf") != Null ==>
          forall i :: 0 <= i < |Get(s, "oneOf").items| ==> Preflighted(re, Get(s, "oneOf").items[i], false))
    && (HasObjectContract(s) ==>
          forall i :: 0 <= i < |Get(s, "properties").members| ==>
            Preflighted(re, Get(s, "properties").members[i].value, false))
  }

  /** A list or a dictionary cannot be looked up in a set: Python raises TypeError. */
  predicate Unhashable(j: Json) { j.Arr? || j.Obj? }

  /** Where the preflight meets an unhashable type: in this schema once its keywords and annotations have
      passed, or in the first subschema that has not passed, branches before properties. */
  predicate Crashes(re: Regex, s: Json, root: bool)
    decreases s, 1
  {
    && HeaderOk(s, root)
    && (Unhashable(Get(s, "type"))
        || (TypeOk(s) && (BranchCrashes(re, s) || (BranchesPass(re, s) && PropertyCrashes(re, s)))))
  }

  predicate BranchesPass(re: Regex, s: Json) {
    && BranchesOk(s)
    && (Get(s, "oneOf") != Null ==>
          forall i :: 0 <= i < |Get(s, "oneOf").items| ==> Preflighted(re, Get(s, "oneOf").items[i], false))
  }

  predicate PropertiesPass(re: Regex, s: Json) {
    && ObjectOk(s)
    && (HasObjectContract(s) ==>
          forall i :: 0 <= i < |Get(s, "properties").members| ==>
            Preflighted(re, Get(s, "properties").members[i].value, false))
  }

  predicate BranchCrashes(re: Regex, s: Json)
    decreases s, 0
  {
    && Get(s, "oneOf").Arr?
    && exists i :: 0 <= i < |Get(s, "oneOf").items| && Crashes(re, Get(s, "oneOf").items[i], false)
                   && forall j :: 0 <= j < i ==> Preflighted(re, Get(s, "oneOf").items[j], false)
  }

  predicate PropertyCrashes(re: Regex, s: Json)
    decreases s, 0
  {
    && HasObjectContract(s) && ObjectOk(s)
    && exists i :: 0 <= i < |Get(s, "properties").members| && Crashes(re, Get(s, "properties").members[i].value, false)
                   && forall j :: 0 <= j < i ==> Preflighted(re, Get(s, "properties").members[j].value, false)
  }

  /** A whole schema whose only branch has a list as its type. */
  function UnhashableSchema(): Json {
    Obj([Member("$schema", Str(SUPPORTED_DIALECT)), Member("oneOf", Arr([UnhashableBranch()]))])
  }

  function UnhashableBranch(): Json { Obj([Member("type", Arr([]))]) }

  /** So the preflight of that schema raises TypeError, where a contract error was promised. */
  lemma UnhashableCrashes(re: Regex)
    ensures Crashes(re, UnhashableSchema(), true) && !Preflighted(re, UnhashableSchema(), true)
  {
    hide Preflighted;
    UnhashableKeywords();
    var s, branch := UnhashableSchema(), UnhashableBranch();
    assert Crashes(re, branch, false);
    assert Get(s, "oneOf").items[0] == branch;
    assert BranchCrashes(re, s);
    NotBoth(re, s, branch);
  }

  lemma NotBoth(re: Regex, s: Json, branch: Json)
    requires Get(s, "oneOf") == Arr([branch]) && Unhashable(Get(branch, "type"))
    ensures !Preflighted(re, s, true)
  {
    assert Get(s, "oneOf").items[0] == branch;
    assert !Preflighted(re, branch, false);
  }

  lemma UnhashableKeywords()
    ensures var s, branch := UnhashableSchema(), UnhashableBranch();
            && Names(s.members) == {"$schema", "oneOf"} && Names(branch.members) == {"type"}
            && Get(s, "$schema") == Str(SUPPORTED_DIALECT) && Get(s, "oneOf") == Arr([branch])
            && Get(branch, "type") == Arr([])
  {
    var ms, ns := UnhashableSchema().members, UnhashableBranch().members;
    assert ms[0].name == "$schema" && ms[1].name == "oneOf" && ns[0].name == "type";
    assert ms[1..] == [Member("oneOf", Arr([UnhashableBranch()]))];
    forall name | name in Names(ms) ensures name == "$schema" || name == "oneOf" {
      var i :| 0 <= i < |ms| && ms[i].name == name;
    }
    forall name | name in Names(ns) ensures name == "type" { var i :| 0 <= i < |ns| && ns[i].name == name; }
  }

  /** The keyword and annotation checks of `_preflight_schema`. */
  method PreflightHeader(s: Json, root: bool) returns (out: Outcome)
    requires s.Obj?
    ensures out == if HeaderOk(s, root) then Accept else ContractError
  {
    if !(Names(s.members) <= ANNOTATIONS + VALIDATIONS) { return ContractError; }
    if exists name :: name in ANNOTATIONS * Names(s.members) && !Get(s, name).Str? { return ContractError; }
    if root && Get(s, "$schema") != Str(SUPPORTED_DIALECT) { return ContractError; }
    if !root && Has(s, "$schema") { return ContractError; }
    return Accept;
  }

  /** The object contract of `_preflight_schema`, when there is one. */
  method PreflightShape(s: Json) returns (out: Outcome)
    requires HasObjectContract(s)
    ensures out == if ObjectOk(s) then Accept else ContractError
    ensures out == Accept ==> Get(s, "properties").Obj?
  {
    var properties, required, additional := Get(s, "properties"), Get(s, "required"), Get(s, "additionalProperties");
    if Get(s, "type") != Str("object") || !properties.Obj? || !required.Arr? || additional != Bool(false) {
      return ContractError;
    }
    if exists i :: 0 <= i < |required.items| && !required.items[i].Str? { return ContractError; }
    if exists i, j :: 0 <= i < j < |required.items| && required.items[i] == required.items[j] { return ContractError; }
    return Accept;
  }

  /** `_preflight_schema`. */
  method Preflight(re: Regex, s: Json, root: bool) returns (out: Outcome)
    requires s.Obj?
    ensures out == Accept <==> Preflighted(re, s, root)
    ensures out == Crash <==> Crashes(re, s, root)
    ensures out != Invalid
    decreases s
  {
    hide HeaderOk, BranchesOk, ObjectOk, EnumOk, PatternOk, BoundsOk, BranchCrashes, PropertyCrashes;
    out := PreflightHeader(s, root);
    if out != Accept { return; }
    var expected := Get(s, "type");
    if Unhashable(expected) { return Crash; }
    if expected != Null && !IsText(expected, TYPES) { return ContractError; }
    out := PreflightBranches(re, s);
    if out != Accept { return; }
    out := PreflightObject(re, s);
    if out != Accept { return; }
    out := PreflightLeaves(re, s);
  }

  /** The `oneOf` part of `_preflight_schema`. */
  method PreflightBranches(re: Regex, s: Json) returns (out: Outcome)
    requires s.Obj?
    ensures out != Invalid && (out == Crash <==> BranchCrashes(re, s))
    ensures out == Accept <==> BranchesPass(re, s)
    decreases s, 0
  {
    hide Preflighted, Crashes;
    var branches := Get(s, "oneOf");
    if branches == Null { return Accept; }
    if !branches.Arr? || branches.items == [] { return ContractError; }
    for i := 0 to |branches.items|
      invariant forall j :: 0 <= j < i ==>
                  Preflighted(re, branches.items[j], false) && !Crashes(re, branches.items[j], false)
    {
      if !branches.items[i].Obj? { NotPreflighted(re, branches.items[i]); return ContractError; }
      out := Preflight(re, branches.items[i], false);
      if out != Accept { return; }
    }
    return Accept;
  }

  lemma NotPreflighted(re: Regex, s: Json)
    requires !s.Obj?
    ensures !Preflighted(re, s, false) && !Crashes(re, s, false)
  {
  }

  lemma NoObjectContract(s: Json)
    requires !HasObjectContract(s)
    ensures ObjectOk(s)
  {
  }

  /** The `properties` part of `_preflight_schema`. */
  method PreflightObject(re: Regex, s: Json) returns (out: Outcome)
    requires s.Obj?
    ensures out != Invalid && (out == Crash <==> PropertyCrashes(re, s))
    ensures out == Accept <==> PropertiesPass(re, s)
    decreases s, 0
  {
    hide Preflighted, Crashes, ObjectOk;
    var properties, required := Get(s, "properties"), Get(s, "required");
    if properties == Null && required == Null && !Has(s, "additionalProperties") { NoObjectContract(s); return Accept; }
    out := PreflightShape(s);
    if out != Accept { return; }
    for i := 0 to |properties.members|
      invariant forall j :: 0 <= j < i ==>
                  && Preflighted(re, properties.members[j].value, false)
                  && !Crashes(re, properties.members[j].value, false)
    {
      var item := properties.members[i].value;
      if !item.Obj? { NotPreflighted(re, item); return ContractError; }
      out := Preflight(re, item, false);
      if out != Accept { return; }
    }
    return Accept;
  }

  /** The checks of `_preflight_schema` on `enum`, `pattern`, `minimum` and `maximum`. */
  method PreflightLeaves(re: Regex, s: Json) returns (out: Outcome)
    requires s.Obj?
    ensures out == (if EnumOk(s) && PatternOk(re, s) && BoundsOk(s) then Accept else ContractError)
  {
    var expected, allowed, pattern := Get(s, "type"), Get(s, "enum"), Get(s, "pattern");
    if allowed != Null && (!allowed.Arr? || allowed.items == []) { return ContractError; }
    if pattern != Null {
      if !pattern.Str? || expected != Str("string") { return ContractError; }
      if !re.compiles(pattern.s) { return ContractError; }
    }
    var minimum, maximum := Get(s, "minimum"), Get(s, "maximum");
    if minimum != Null || maximum != Null {
      if !IsText(expected, {"integer", "number"}) { return ContractError; }
      if minimum != Null && MatchesType(minimum, "number") != Some(true) { return ContractError; }
      if maximum != Null && MatchesType(maximum, "number") != Some(true) { return ContractError; }
      if minimum != Null && maximum != Null && Amount(minimum) > Amount(maximum) { return ContractError; }
    }
    return Accept;
  }

  // ---------- the preflight, subschema by subschema ----------

  /** One step into a schema: a branch of `oneOf`, or the schema of a property. */
  datatype Turn = Branch(i: nat) | Property(i: nat)

  /** The subschema at the end of a path. */
  function At(s: Json, path: seq<Turn>): Option<Json>
    decreases |path|
  {
    if path == [] then Some(s)
    else
      match path[0]
      case Branch(i) =>
        if Get(s, "oneOf").Arr? && i < |Get(s, "oneOf").items| then At(Get(s, "oneOf").items[i], path[1..]) else None
      case Property(i) =>
        if Get(s, "properties").Obj? && i < |Get(s, "properties").members|
        then At(Get(s, "properties").members[i].value, path[1..]) else None
  }

  /** What one schema must look like, whatever its subschemas. */
  ghost predicate WellFormed(re: Regex, s: Json, root: bool) {
    var kind, branches, allowed, pattern := Get(s, "type"), Get(s, "oneOf"), Get(s, "enum"), Get(s, "pattern");
    var properties, required := Get(s, "properties"), Get(s, "required");
    var minimum, maximum := Get(s, "minimum"), Get(s, "maximum");
    && s.Obj?
    && (forall name :: name in Names(s.members) ==>
          name in {"$id", "$schema", "description", "title", "additionalProperties", "const", "enum", "maximum",
                   "minimum", "oneOf", "pattern", "properties", "required", "type"})
    && (forall name :: name in Names(s.members) && name in {"$id", "$schema", "description", "title"} ==>
          Get(s, name).Str?)
    && (if root then Get(s, "$schema") == Str("https://json-schema.org/draft/2020-12/schema")
        else "$schema" !in Names(s.members))
    && (|| kind == Null || kind == Str("integer") || kind == Str("number") || kind == Str("object")
        || kind == Str("string"))
    && (branches == Null || (branches.Arr? && |branches.items| > 0))
    && (properties != Null || required != Null || "additionalProperties" in Names(s.members) ==>
          && kind == Str("object") && properties.Obj? && required.Arr? && Get(s, "additionalProperties") == Bool(false)
          && (forall i :: 0 <= i < |required.items| ==> required.items[i].Str?)
          && (forall i, j :: 0 <= i < j < |required.items| ==> required.items[i] != required.items[j]))
    && (allowed == Null || (allowed.Arr? && |allowed.items| > 0))
    && (pattern == Null || (kind == Str("string") && pattern.Str? && re.compiles(pattern.s)))
    && (minimum != Null || maximum != Null ==> kind == Str("integer") || kind == Str("number"))
    && (minimum == Null || minimum.Int? || minimum.Float?) && (maximum == Null || maximum.Int? || maximum.Float?)
    && (minimum != Null && maximum != Null ==> Amount(minimum) <= Amount(maximum))
  }

  lemma WellFormedIs(re: Regex, s: Json, root: bool)
    ensures WellFormed(re, s, root) <==>
              && HeaderOk(s, root) && TypeOk(s) && BranchesOk(s) && ObjectOk(s) && EnumOk(s) && PatternOk(re, s)
              && BoundsOk(s)
  {
  }

  lemma {:induction false} PathFits(re: Regex, s: Json, root: bool, path: seq<Turn>)
    requires Preflighted(re, s, root) && At(s, path).Some?
    ensures WellFormed(re, At(s, path).value, root && path == [])
    decreases |path|
  {
    hide WellFormed, HeaderOk, TypeOk, EnumOk, PatternOk, BoundsOk;
    WellFormedIs(re, s, root);
    if path != [] {
      match path[0]
      case Branch(i) => PathFits(re, Get(s, "oneOf").items[i], false, path[1..]);
      case Property(i) => PathFits(re, Get(s, "properties").members[i].value, false, path[1..]);
    }
  }

  ghost predicate AllWellFormed(re: Regex, s: Json, root: bool) {
    forall path :: At(s, path).Some? ==> WellFormed(re, At(s, path).value, root && path == [])
  }

  /** A schema passes the preflight exactly when it and every subschema it reaches, however deep, are well formed, and
      none but the root names its dialect. */
  lemma {:induction false} PreflightReaches(re: Regex, s: Json, root: bool)
    ensures Preflighted(re, s, root) <==> AllWellFormed(re, s, root)
    decreases s
  {
    hide WellFormed, HeaderOk, TypeOk, EnumOk, PatternOk, BoundsOk;
    if Preflighted(re, s, root) {
      forall path | At(s, path).Some? ensures WellFormed(re, At(s, path).value, root && path == []) {
        PathFits(re, s, root, path);
      }
    } else if AllWellFormed(re, s, root) {
      assert At(s, []) == Some(s);
      WellFormedIs(re, s, root);
      if Get(s, "oneOf") != Null {
        forall i | 0 <= i < |Get(s, "oneOf").items| ensures Preflighted(re, Get(s, "oneOf").items[i], false) {
          var t := Get(s, "oneOf").items[i];
          forall path | At(t, path).Some? ensures WellFormed(re, At(t, path).value, false) {
            StepInto(s, Branch(i), path);
          }
          PreflightReaches(re, t, false);
        }
      }
      if HasObjectContract(s) {
        forall i | 0 <= i < |Get(s, "properties").members|
          ensures Preflighted(re, Get(s, "properties").members[i].value, false)
        {
          var t := Get(s, "properties").members[i].value;
          forall path | At(t, path).Some? ensures WellFormed(re, At(t, path).value, false) {
            StepInto(s, Property(i), path);
          }
          PreflightReaches(re, t, false);
        }
      }
      Assembled(re, s, root);
    }
  }

  lemma Assembled(re: Regex, s: Json, root: bool)
    requires HeaderOk(s, root) && TypeOk(s) && BranchesOk(s) && ObjectOk(s) && EnumOk(s)
    requires PatternOk(re, s) && BoundsOk(s)
    requires Get(s, "oneOf") != Null ==>
               forall i :: 0 <= i < |Get(s, "oneOf").items| ==> Preflighted(re, Get(s, "oneOf").items[i], false)
    requires HasObjectContract(s) ==>
               forall i :: 0 <= i < |Get(s, "properties").members| ==>
                 Preflighted(re, Get(s, "properties").members[i].value, false)
    ensures Preflighted(re, s, root)
  {
    hide HeaderOk, TypeOk, EnumOk, PatternOk, BoundsOk;
  }

  lemma StepInto(s: Json, turn: Turn, path: seq<Turn>)
    ensures At(s, [turn]).Some? ==> At(s, [turn] + path) == At(At(s, [turn]).value, path)
    ensures turn.Branch? && Get(s, "oneOf").Arr? && turn.i < |Get(s, "oneOf").items| ==>
              At(s, [turn]) == Some(Get(s, "oneOf").items[turn.i])
    ensures turn.Property? && Get(s, "properties").Obj? && turn.i < |Get(s, "properties").members| ==>
              At(s, [turn]) == Some(Get(s, "properties").members[turn.i].value)
  {
    assert ([turn] + path)[1..] == path;
    assert [turn][1..] == [];
  }

  // ---------- what a preflighted schema admits ----------

  /** The `type` clause alone. */
  predicate TypeAdmits(v: Json, s: Json) {
    Get(s, "type").Str? ==> MatchesType(v, Get(s, "type").s) == Some(true)
  }

  predicate KindAdmits(v: Json, s: Json) {
    && TypeAdmits(v, s)
    && (Has(s, "const") ==> JsonEqual(v, Get(s, "const")))
    && (Get(s, "enum").Arr? ==> exists i :: 0 <= i < |Get(s, "enum").items| && JsonEqual(v, Get(s, "enum").items[i]))
  }

  predicate PatternAdmits(re: Regex, v: Json, s: Json) {
    Get(s, "pattern").Str? ==> v.Str? && re.fullMatch(Get(s, "pattern").s, v.s)
  }

  /** A bound that is present, even as null, makes the value a number. */
  predicate BoundsAdmit(v: Json, s: Json) {
    Has(s, "minimum") || Has(s, "maximum") ==> Within(v, Get(s, "minimum"), Get(s, "maximum"))
  }

  /** The parts of a schema that do not recurse, as the validator applies them. */
  predicate LeavesAdmit(re: Regex, v: Json, s: Json) {
    KindAdmits(v, s) && PatternAdmits(re, v, s) && BoundsAdmit(v, s)
  }

  /** Required within present within declared names. */
  predicate ShapeAdmits(v: Json, s: Json)
    requires Get(s, "properties").Obj? && Get(s, "required").Arr?
  {
    && v.Obj?
    && (forall i :: 0 <= i < |Get(s, "required").items| ==>
          Get(s, "required").items[i].Str? ==> Has(v, Get(s, "required").items[i].s))
    && Names(v.members) <= Names(Get(s, "properties").members)
  }

  /** What the validator accepts under a preflighted schema. */
  ghost predicate Admits(re: Regex, v: Json, s: Json)
    decreases s
  {
    && LeavesAdmit(re, v, s)
    && (Get(s, "oneOf").Arr? ==>
          exists i :: 0 <= i < |Get(s, "oneOf").items| && Admits(re, v, Get(s, "oneOf").items[i])
                      && forall j :: 0 <= j < |Get(s, "oneOf").items| && j != i ==>
                           !Admits(re, v, Get(s, "oneOf").items[j]))
    && (Get(s, "properties").Obj? && Get(s, "required").Arr? ==>
          && ShapeAdmits(v, s)
          && forall i :: 0 <= i < |Get(s, "properties").members| ==>
               var m := Get(s, "properties").members[i];
               Has(v, m.name) ==> Admits(re, Get(v, m.name), m.value))
  }

  /** Preflighted as the root or as a subschema, whichever it is. */
  predicate Checked(re: Regex, s: Json) { Preflighted(re, s, Has(s, "$schema")) }

  lemma CheckedIs(re: Regex, s: Json, root: bool)
    requires Preflighted(re, s, root)
    ensures Checked(re, s)
  {
  }

  /** Preflighted subschemas, and the non-recursive parts. */
  lemma CheckedParts(re: Regex, s: Json)
    requires Checked(re, s)
    ensures s.Obj? && Names(s.members) <= ANNOTATIONS + VALIDATIONS
    ensures TypeOk(s) && BranchesOk(s) && ObjectOk(s) && EnumOk(s) && PatternOk(re, s) && BoundsOk(s)
    ensures Get(s, "oneOf") != Null ==>
              forall i :: 0 <= i < |Get(s, "oneOf").items| ==> Checked(re, Get(s, "oneOf").items[i])
    ensures HasObjectContract(s) ==>
              forall i :: 0 <= i < |Get(s, "properties").members| ==>
                Checked(re, Get(s, "properties").members[i].value)
  {
    hide TypeOk, ObjectOk, EnumOk, PatternOk, BoundsOk, BranchesOk, Checked, HasObjectContract;
    CheckedUnfolds(re, s);
    if Get(s, "oneOf") != Null {
      var branches := Get(s, "oneOf").items;
      forall i | 0 <= i < |branches| ensures Checked(re, branches[i]) { CheckedIs(re, branches[i], false); }
    }
    if HasObjectContract(s) {
      var ms := Get(s, "properties").members;
      forall i | 0 <= i < |ms| ensures Checked(re, ms[i].value) { CheckedIs(re, ms[i].value, false); }
    }
  }

  lemma CheckedUnfolds(re: Regex, s: Json)
    requires Checked(re, s)
    ensures Preflighted(re, s, Has(s, "$schema")) && BranchesOk(s) && ObjectOk(s)
  {
  }

  /** The `oneOf` clause of Admits. */
  ghost predicate OneBranch(re: Regex, v: Json, branches: seq<Json>) {
    exists i :: 0 <= i < |branches| && Admits(re, v, branches[i])
                && forall j :: 0 <= j < |branches| && j != i ==> !Admits(re, v, branches[j])
  }

  ghost predicate PropertiesAdmit(re: Regex, v: Json, ms: seq<Member>) {
    forall i :: 0 <= i < |ms| ==> (Has(v, ms[i].name) ==> Admits(re, Get(v, ms[i].name), ms[i].value))
  }

  lemma AdmitsParts(re: Regex, v: Json, s: Json)
    ensures Admits(re, v, s) <==>
              && LeavesAdmit(re, v, s)
              && (Get(s, "oneOf").Arr? ==> OneBranch(re, v, Get(s, "oneOf").items))
              && (Get(s, "properties").Obj? && Get(s, "required").Arr? ==>
                    ShapeAdmits(v, s) && PropertiesAdmit(re, v, Get(s, "properties").members))
  {
    hide LeavesAdmit, ShapeAdmits;
  }

  /** `_validate`.  Under a preflighted schema it never reports a contract error, and it accepts exactly
      what the schema admits. */
  method Validate(re: Regex, v: Json, s: Json) returns (out: Outcome)
    requires s.Obj?
    ensures out != Crash
    ensures Checked(re, s) ==> out == if Admits(re, v, s) then Accept else Invalid
    decreases s
  {
    hide Checked, Admits, LeavesAdmit, TypeOk, BoundsOk, EnumOk, PatternOk;
    AdmitsParts(re, v, s);
    if Checked(re, s) { CheckedParts(re, s); }
    if !(Names(s.members) <= ANNOTATIONS + VALIDATIONS) { return ContractError; }
    out := ValidateBranches(re, v, s);
    if out != Accept { return; }
    out := ValidateLeaves(re, v, s);
    if out != Accept { return; }
    if Checked(re, s) && HasObjectContract(s) { IsObject(re, v, s); }
    out := ValidateObject(re, v, s);
  }

  lemma IsObject(re: Regex, v: Json, s: Json)
    requires LeavesAdmit(re, v, s) && IsText(Get(s, "type"), {"object"})
    ensures v.Obj?
  {
  }

  lemma TwoBranches(re: Regex, v: Json, branches: seq<Json>, i: nat, j: nat)
    requires i < j < |branches| && Admits(re, v, branches[i]) && Admits(re, v, branches[j])
    ensures !OneBranch(re, v, branches)
  {
    hide Admits;
  }

  /** The `oneOf` loop of `_validate`, counting the branches that match. */
  method ValidateBranches(re: Regex, v: Json, s: Json) returns (out: Outcome)
    requires s.Obj?
    ensures out != Crash
    ensures BranchesOk(s) && (Get(s, "oneOf") != Null ==>
              forall i :: 0 <= i < |Get(s, "oneOf").items| ==> Checked(re, Get(s, "oneOf").items[i]))
            ==> out == if Get(s, "oneOf").Arr? ==> OneBranch(re, v, Get(s, "oneOf").items) then Accept else Invalid
    decreases s, 0
  {
    hide Checked, Admits;
    var branches := Get(s, "oneOf");
    if branches == Null { return Accept; }
    if !branches.Arr? || branches.items == [] { return ContractError; }
    var matches := 0;
    ghost var hit, other := 0, 0;
    ghost var sound := forall i :: 0 <= i < |branches.items| ==> Checked(re, branches.items[i]);
    for i := 0 to |branches.items|
      invariant matches >= 0
      invariant sound && matches == 0 ==> forall j :: 0 <= j < i ==> !Admits(re, v, branches.items[j])
      invariant matches > 0 ==> 0 <= hit < i && (sound ==> Admits(re, v, branches.items[hit]))
      invariant sound && matches == 1 ==> forall j :: 0 <= j < i && j != hit ==> !Admits(re, v, branches.items[j])
      invariant matches > 1 ==> hit < other < i && (sound ==> Admits(re, v, branches.items[other]))
    {
      if !branches.items[i].Obj? {
        if sound { CheckedParts(re, branches.items[i]); }
        return ContractError;
      }
      var branch := Validate(re, v, branches.items[i]);
      if branch == ContractError { return ContractError; }
      if branch == Invalid { continue; }
      if matches == 0 { hit := i; } else { other := i; }
      matches := matches + 1;
    }
    if sound && matches > 1 { TwoBranches(re, v, branches.items, hit, other); }
    return if matches == 1 then Accept else Invalid;
  }

  /** `type`, `const` and `enum` in `_validate`. */
  method ValidateKind(v: Json, s: Json) returns (out: Outcome)
    requires s.Obj?
    ensures out != Crash
    ensures TypeOk(s) && EnumOk(s) ==> out == if KindAdmits(v, s) then Accept else Invalid
  {
    hide JsonEqual;
    var expected := Get(s, "type");
    if expected != Null && !expected.Str? { return ContractError; }
    if expected.Str? {
      var matched := MatchesType(v, expected.s);
      if matched.None? { return ContractError; }
      if !matched.value { return Invalid; }
    }
    if Has(s, "const") && !JsonEqual(v, Get(s, "const")) { return Invalid; }
    var allowed := Get(s, "enum");
    if allowed != Null && !allowed.Arr? { return ContractError; }
    if allowed.Arr? && !(exists i :: 0 <= i < |allowed.items| && JsonEqual(v, allowed.items[i])) { return Invalid; }
    return Accept;
  }

  /** `minimum` and `maximum` in `_validate`. */
  method ValidateBounds(v: Json, s: Json) returns (out: Outcome)
    requires s.Obj?
    ensures out != Crash
    ensures BoundsOk(s) ==> out == if BoundsAdmit(v, s) then Accept else Invalid
  {
    if !Has(s, "minimum") && !Has(s, "maximum") { return Accept; }
    if MatchesType(v, "number") != Some(true) { return Invalid; }
    var minimum, maximum := Get(s, "minimum"), Get(s, "maximum");
    if minimum != Null && MatchesType(minimum, "number") != Some(true) { return ContractError; }
    if maximum != Null && MatchesType(maximum, "number") != Some(true) { return ContractError; }
    if minimum != Null && Amount(v) < Amount(minimum) { return Invalid; }
    if maximum != Null && Amount(v) > Amount(maximum) { return Invalid; }
    return Accept;
  }

  /** The middle of `_validate`: type, const, enum, pattern and bounds. */
  method ValidateLeaves(re: Regex, v: Json, s: Json) returns (out: Outcome)
    requires s.Obj?
    ensures out != Crash
    ensures TypeOk(s) && EnumOk(s) && PatternOk(re, s) && BoundsOk(s) ==>
              out == if LeavesAdmit(re, v, s) then Accept else Invalid
  {
    hide TypeOk, EnumOk, BoundsOk, BoundsAdmit;
    out := ValidateKind(v, s);
    if out != Accept { return; }
    var pattern := Get(s, "pattern");
    if pattern != Null {
      if !pattern.Str? || !v.Str? { return ContractError; }
      if !re.compiles(pattern.s) { return ContractError; }
      if !re.fullMatch(pattern.s, v.s) { return Invalid; }
    }
    out := ValidateBounds(v, s);
  }

  predicate PropertiesChecked(re: Regex, ms: seq<Member>) {
    forall i :: 0 <= i < |ms| ==> Checked(re, ms[i].value)
  }

  /** The object part of `_validate`. */
  method ValidateObject(re: Regex, v: Json, s: Json) returns (out: Outcome)
    requires s.Obj?
    ensures out != Crash
    ensures ObjectOk(s) && (HasObjectContract(s) ==> v.Obj? && PropertiesChecked(re, Get(s, "properties").members)) ==>
            out == if HasObjectContract(s) ==>
                            ShapeAdmits(v, s) && PropertiesAdmit(re, v, Get(s, "properties").members)
                       then Accept else Invalid
    decreases s, 0
  {
    hide Checked, Admits;
    var properties, required := Get(s, "properties"), Get(s, "required");
    if properties == Null && required == Null && Get(s, "additionalProperties") != Bool(false) { return Accept; }
    if !v.Obj? || !properties.Obj? { return ContractError; }
    if !required.Arr? || (exists i :: 0 <= i < |required.items| && !required.items[i].Str?) { return ContractError; }
    if exists i :: 0 <= i < |required.items| && !Has(v, required.items[i].s) { return Invalid; }
    if Get(s, "additionalProperties") == Bool(false) && !(Names(v.members) <= Names(properties.members)) {
      return Invalid;
    }
    ghost var sound := PropertiesChecked(re, properties.members);
    for i := 0 to |properties.members|
      invariant ObjectOk(s) && sound ==> PropertiesAdmit(re, v, properties.members[..i])
    {
      var m := properties.members[i];
      if !m.value.Obj? {
        if sound { CheckedParts(re, m.value); }
        return ContractError;
      }
      if Has(v, m.name) {
        out := Validate(re, Get(v, m.name), m.value);
        if out != Accept { return; }
      }
    }
    assert properties.members[..|properties.members|] == properties.members;
    return Accept;
  }

  /** `validate_receipt`. */
  method ValidateReceipt(re: Regex, receipt: Json, schema: Json) returns (out: Outcome)
    ensures out == Accept <==> Preflighted(re, schema, true) && Admits(re, receipt, schema)
    ensures out == Invalid <==> Preflighted(re, schema, true) && !Admits(re, receipt, schema)
    ensures out == Crash <==> Crashes(re, schema, true)
  {
    hide Preflighted, Admits, Crashes;
    if !schema.Obj? { RootIsObject(re, schema); return ContractError; }
    out := Preflight(re, schema, true);
    if out != Accept { return; }
    CheckedIs(re, schema, true);
    out := Validate(re, receipt, schema);
  }

  lemma RootIsObject(re: Regex, s: Json)
    requires !s.Obj?
    ensures !Preflighted(re, s, true) && !Crashes(re, s, true)
  {
  }

  // ---------- the declarative reading ----------

  /** What a schema says, keyword by keyword (sections 10.2.1.3 and 10.3.2 of JSON Schema Core 2020-12 and
      section 6 of JSON Schema Validation 2020-12), except that patterns match whole strings.  Keywords for
      other kinds of value have no effect. */
  ghost predicate Satisfies(re: Regex, v: Json, s: Json)
    decreases s
  {
    && SatisfiesLeaves(re, v, s)
    && (Get(s, "oneOf").Arr? ==>
          exists i :: 0 <= i < |Get(s, "oneOf").items| && Satisfies(re, v, Get(s, "oneOf").items[i])
                      && forall j :: 0 <= j < |Get(s, "oneOf").items| && j != i ==>
                           !Satisfies(re, v, Get(s, "oneOf").items[j]))
    && (v.Obj? && Get(s, "properties").Obj? ==>
          forall i :: 0 <= i < |Get(s, "properties").members| ==>
            var m := Get(s, "properties").members[i];
            Has(v, m.name) ==> Satisfies(re, Get(v, m.name), m.value))
  }

  ghost predicate SatisfiesKind(v: Json, s: Json) {
    && (Get(s, "type") == Str("object") ==> v.Obj?)
    && (Get(s, "type") == Str("string") ==> v.Str?)
    && (Get(s, "type") == Str("number") ==> v.Int? || v.Float?)
    && (Get(s, "type") == Str("integer") ==> v.Int? || (v.Float? && v.r == v.r.Floor as real))
    && (Has(s, "const") ==> JsonSame(v, Get(s, "const")))
    && (Get(s, "enum").Arr? ==> exists i :: 0 <= i < |Get(s, "enum").items| && JsonSame(v, Get(s, "enum").items[i]))
  }

  ghost predicate SatisfiesBounds(v: Json, s: Json) {
    var minimum, maximum := Get(s, "minimum"), Get(s, "maximum");
    && (IsNumber(minimum) && IsNumber(v) ==> Amount(minimum) <= Amount(v))
    && (IsNumber(maximum) && IsNumber(v) ==> Amount(v) <= Amount(maximum))
  }

  ghost predicate SatisfiesShape(v: Json, s: Json) {
    && (Get(s, "required").Arr? && v.Obj? ==>
          forall i :: 0 <= i < |Get(s, "required").items| ==>
            Get(s, "required").items[i].Str? ==> Has(v, Get(s, "required").items[i].s))
    && (Get(s, "additionalProperties") == Bool(false) && v.Obj? && Get(s, "properties").Obj? ==>
          Names(v.members) <= Names(Get(s, "properties").members))
  }

  ghost predicate SatisfiesLeaves(re: Regex, v: Json, s: Json) {
    && SatisfiesKind(v, s)
    && (Get(s, "pattern").Str? && v.Str? ==> re.fullMatch(Get(s, "pattern").s, v.s))
    && SatisfiesBounds(v, s)
    && SatisfiesShape(v, s)
  }

  /** Every constant is compared exactly, and bounds stand only where the type is numeric. */
  ghost predicate LeavesExact(s: Json) {
    && (Has(s, "const") ==> Plain(Get(s, "const")))
    && (Get(s, "enum").Arr? ==> forall i :: 0 <= i < |Get(s, "enum").items| ==> Plain(Get(s, "enum").items[i]))
    && (Has(s, "minimum") || Has(s, "maximum") ==> IsNumeric(s))
  }

  ghost predicate Exact(s: Json) {
    && LeavesExact(s)
    && (Get(s, "oneOf").Arr? ==> forall i :: 0 <= i < |Get(s, "oneOf").items| ==> Exact(Get(s, "oneOf").items[i]))
    && (Get(s, "properties").Obj? ==>
          forall i :: 0 <= i < |Get(s, "properties").members| ==> Exact(Get(s, "properties").members[i].value))
  }

  lemma TypeMeans(v: Json, s: Json)
    requires TypeOk(s)
    ensures TypeAdmits(v, s) <==>
              && (Get(s, "type") == Str("object") ==> v.Obj?)
              && (Get(s, "type") == Str("string") ==> v.Str?)
              && (Get(s, "type") == Str("number") ==> v.Int? || v.Float?)
              && (Get(s, "type") == Str("integer") ==> v.Int? || (v.Float? && v.r == v.r.Floor as real))
  {
    hide Get;
  }

  lemma KindMeans(v: Json, s: Json)
    requires TypeOk(s) && LeavesExact(s)
    ensures SatisfiesKind(v, s) <==> KindAdmits(v, s)
  {
    hide JsonEqual, JsonSame, Plain, TypeAdmits, Get;
    TypeMeans(v, s);
    forall r: Json | Plain(r) ensures JsonEqual(v, r) == JsonSame(v, r) { PlainAgree(v, r); }
  }

  lemma PatternMeans(re: Regex, v: Json, s: Json)
    requires PatternOk(re, s) && KindAdmits(v, s)
    ensures PatternAdmits(re, v, s) <==> (Get(s, "pattern").Str? && v.Str? ==> re.fullMatch(Get(s, "pattern").s, v.s))
  {
    hide JsonEqual;
  }

  lemma BoundsMean(v: Json, s: Json)
    requires BoundsOk(s) && LeavesExact(s) && KindAdmits(v, s)
    ensures SatisfiesBounds(v, s) <==> BoundsAdmit(v, s)
  {
    hide JsonEqual, Plain;
  }

  lemma ShapeMeans(v: Json, s: Json)
    requires ObjectOk(s) && KindAdmits(v, s)
    ensures SatisfiesShape(v, s) <==> (Get(s, "properties").Obj? && Get(s, "required").Arr? ==> ShapeAdmits(v, s))
    ensures HasObjectContract(s) <==> Get(s, "properties").Obj? && Get(s, "required").Arr?
    ensures HasObjectContract(s) ==> v.Obj?
  {
    hide JsonEqual;
  }

  lemma LeavesMean(re: Regex, v: Json, s: Json)
    requires TypeOk(s) && ObjectOk(s) && PatternOk(re, s) && BoundsOk(s) && LeavesExact(s)
    ensures SatisfiesLeaves(re, v, s) <==>
              LeavesAdmit(re, v, s) && (Get(s, "properties").Obj? && Get(s, "required").Arr? ==> ShapeAdmits(v, s))
    ensures LeavesAdmit(re, v, s) && HasObjectContract(s) ==> v.Obj?
  {
    hide KindAdmits, SatisfiesKind, BoundsAdmit, SatisfiesBounds, SatisfiesShape, ShapeAdmits, PatternOk, BoundsOk,
         TypeOk, ObjectOk, LeavesExact, PatternAdmits, HasObjectContract;
    KindMeans(v, s);
    if KindAdmits(v, s) {
      PatternMeans(re, v, s);
      BoundsMean(v, s);
      ShapeMeans(v, s);
    }
  }

  ghost predicate OneSatisfied(re: Regex, v: Json, branches: seq<Json>) {
    exists i :: 0 <= i < |branches| && Satisfies(re, v, branches[i])
                && forall j :: 0 <= j < |branches| && j != i ==> !Satisfies(re, v, branches[j])
  }

  ghost predicate PropertiesSatisfy(re: Regex, v: Json, ms: seq<Member>) {
    forall i :: 0 <= i < |ms| ==> (Has(v, ms[i].name) ==> Satisfies(re, Get(v, ms[i].name), ms[i].value))
  }

  lemma SatisfiesParts(re: Regex, v: Json, s: Json)
    ensures Satisfies(re, v, s) <==>
              && SatisfiesLeaves(re, v, s)
              && (Get(s, "oneOf").Arr? ==> OneSatisfied(re, v, Get(s, "oneOf").items))
              && (v.Obj? && Get(s, "properties").Obj? ==> PropertiesSatisfy(re, v, Get(s, "properties").members))
  {
    hide SatisfiesLeaves;
  }

  lemma ExactParts(s: Json)
    requires Exact(s)
    ensures LeavesExact(s)
    ensures Get(s, "oneOf").Arr? ==> forall i :: 0 <= i < |Get(s, "oneOf").items| ==> Exact(Get(s, "oneOf").items[i])
    ensures Get(s, "properties").Obj? ==>
              forall i :: 0 <= i < |Get(s, "properties").members| ==> Exact(Get(s, "properties").members[i].value)
  {
    hide LeavesExact;
  }

  lemma ObjectParts(s: Json)
    requires ObjectOk(s) && Get(s, "properties").Obj?
    ensures HasObjectContract(s) && Get(s, "required").Arr?
  {
  }

  /** On a preflighted schema the validator accepts exactly what the schema says, when its constants hold no
      nested boolean, 0 or 1 and its bounds are typed. */
  lemma {:induction false} AdmitsMeans(re: Regex, v: Json, s: Json)
    requires Checked(re, s) && Exact(s)
    ensures Admits(re, v, s) <==> Satisfies(re, v, s)
    decreases s
  {
    hide Checked, Exact, Admits, Satisfies, LeavesAdmit, SatisfiesLeaves, TypeOk, EnumOk, PatternOk, BoundsOk, ObjectOk,
         ShapeAdmits, HasObjectContract, LeavesExact;
    CheckedParts(re, s);
    ExactParts(s);
    LeavesMean(re, v, s);
    AdmitsParts(re, v, s);
    SatisfiesParts(re, v, s);
    if Get(s, "oneOf").Arr? {
      var branches := Get(s, "oneOf").items;
      forall i | 0 <= i < |branches| ensures Admits(re, v, branches[i]) <==> Satisfies(re, v, branches[i]) {
        AdmitsMeans(re, v, branches[i]);
      }
    }
    if Get(s, "properties").Obj? {
      ObjectParts(s);
      var ms := Get(s, "properties").members;
      forall i | 0 <= i < |ms|
        ensures Admits(re, Get(v, ms[i].name), ms[i].value) <==> Satisfies(re, Get(v, ms[i].name), ms[i].value)
      {
        AdmitsMeans(re, Get(v, ms[i].name), ms[i].value);
      }
    }
  }

  /** The bounds of a preflighted schema are read as JSON Schema reads them exactly when no bound stands
      under a type that is not numeric; there it must be null to pass the preflight. */
  lemma BoundsReadExactly(s: Json)
    requires TypeOk(s) && BoundsOk(s)
    ensures (forall v :: TypeAdmits(v, s) ==> (SatisfiesBounds(v, s) <==> BoundsAdmit(v, s)))
            <==> (Has(s, "minimum") || Has(s, "maximum") ==> IsNumeric(s))
  {
    hide MatchesType, Within, Get;
    if Has(s, "minimum") || Has(s, "maximum") ==> IsNumeric(s) {
      forall v | TypeAdmits(v, s) ensures SatisfiesBounds(v, s) <==> BoundsAdmit(v, s) { NumericBoundsMean(v, s); }
    } else {
      var v := if Get(s, "type") == Str("object") then Obj([]) else Str("");
      UntypedBoundsDiffer(v, s);
    }
  }

  lemma NumericBoundsMean(v: Json, s: Json)
    requires BoundsOk(s) && TypeAdmits(v, s) && (Has(s, "minimum") || Has(s, "maximum") ==> IsNumeric(s))
    ensures SatisfiesBounds(v, s) <==> BoundsAdmit(v, s)
  {
  }

  lemma UntypedBoundsDiffer(v: Json, s: Json)
    requires TypeOk(s) && BoundsOk(s) && (Has(s, "minimum") || Has(s, "maximum")) && !IsNumeric(s)
    requires v == if Get(s, "type") == Str("object") then Obj([]) else Str("")
    ensures TypeAdmits(v, s) && SatisfiesBounds(v, s) && !BoundsAdmit(v, s)
  {
  }

  ghost predicate ComparesExactly(r: Json) { forall v :: JsonEqual(v, r) == JsonSame(v, r) }

  ghost predicate BoundsExact(s: Json) {
    forall v :: TypeAdmits(v, s) ==> (SatisfiesBounds(v, s) <==> BoundsAdmit(v, s))
  }

  /** Every keyword of the schema itself reads as JSON Schema reads it, whatever the value. */
  ghost predicate ReadsExactly(s: Json) {
    && (Has(s, "const") ==> ComparesExactly(Get(s, "const")))
    && (Get(s, "enum").Arr? ==>
          forall i :: 0 <= i < |Get(s, "enum").items| ==> ComparesExactly(Get(s, "enum").items[i]))
    && BoundsExact(s)
  }

  /** ... and so do those of its subschemas. */
  ghost predicate ReadsExactlyThroughout(s: Json) {
    && ReadsExactly(s)
    && (Get(s, "oneOf").Arr? ==>
          forall i :: 0 <= i < |Get(s, "oneOf").items| ==> ReadsExactlyThroughout(Get(s, "oneOf").items[i]))
    && (Get(s, "properties").Obj? ==>
          forall i :: 0 <= i < |Get(s, "properties").members| ==>
            ReadsExactlyThroughout(Get(s, "properties").members[i].value))
  }

  lemma LeavesReadExactly(s: Json)
    requires TypeOk(s) && BoundsOk(s)
    ensures ReadsExactly(s) <==> LeavesExact(s)
  {
    hide JsonEqual, JsonSame, Plain, TypeOk, BoundsOk, TypeAdmits;
    hide SatisfiesBounds, BoundsAdmit, IsNumeric, ComparesExactly;
    BoundsReadExactly(s);
    forall r: Json ensures ComparesExactly(r) <==> Plain(r) { ComparedExactly(r); }
  }

  lemma ComparedExactly(r: Json)
    ensures ComparesExactly(r) <==> Plain(r)
  {
    hide JsonEqual, JsonSame, Plain;
    EqualMeans(r);
  }

  /** The condition of AdmitsMeans is the exact one, keyword by keyword: a preflighted schema meets it if and
      only if the validator reads every keyword of it and of its subschemas as JSON Schema does. */
  lemma {:induction false} ExactMeans(re: Regex, s: Json)
    requires Checked(re, s)
    ensures Exact(s) <==> ReadsExactlyThroughout(s)
    decreases s
  {
    hide Checked, LeavesExact, ReadsExactly, TypeOk, EnumOk, PatternOk, BoundsOk, ObjectOk, HasObjectContract;
    CheckedParts(re, s);
    LeavesReadExactly(s);
    if Get(s, "oneOf").Arr? {
      var branches := Get(s, "oneOf").items;
      forall i | 0 <= i < |branches| ensures Exact(branches[i]) <==> ReadsExactlyThroughout(branches[i]) {
        ExactMeans(re, branches[i]);
      }
    }
    if Get(s, "properties").Obj? {
      ObjectParts(s);
      var ms := Get(s, "properties").members;
      forall i | 0 <= i < |ms| ensures Exact(ms[i].value) <==> ReadsExactlyThroughout(ms[i].value) {
        ExactMeans(re, ms[i].value);
      }
    }
  }

  /** What the validator makes of a bound that is not under a numeric type: it is null, and the value must be
      a number.  So a type that is given admits nothing, and without one numbers are admitted and refused as
      if the bound were not there. */
  lemma NullBoundMeans(v: Json, s: Json)
    requires TypeOk(s) && BoundsOk(s) && (Has(s, "minimum") || Has(s, "maximum")) && !IsNumeric(s)
    ensures Get(s, "minimum") == Get(s, "maximum") == Null
    ensures BoundsAdmit(v, s) <==> IsNumber(v)
    ensures TypeAdmits(v, s) && BoundsAdmit(v, s) <==> Get(s, "type") == Null && IsNumber(v)
  {
  }

  /** A bound under a type that is not numeric must be null to pass the preflight, and then nothing is accepted. */
  lemma NullBoundAdmitsNothing(re: Regex, v: Json, s: Json)
    requires Checked(re, s) && (Has(s, "minimum") || Has(s, "maximum")) && Get(s, "type") != Null && !IsNumeric(s)
    ensures Get(s, "minimum") == Get(s, "maximum") == Null
    ensures !Admits(re, v, s)
  {
    hide Checked, Admits, BranchesOk, ObjectOk, EnumOk, PatternOk, JsonEqual, ShapeAdmits;
    CheckedParts(re, s);
    AdmitsParts(re, v, s);
  }

  /** Two such schemas: text with a null minimum, and a null minimum alone. */
  function TextBoundedByNull(): Json {
    Obj([Member("type", Str("string")), Member("minimum", Null)])
  }

  function BoundedByNull(): Json { Obj([Member("minimum", Null)]) }

  lemma NullBoundKeywords()
    ensures var s := TextBoundedByNull();
            && Names(s.members) == {"type", "minimum"}
            && Get(s, "type") == Str("string") && Get(s, "minimum") == Null
  {
    var ms := TextBoundedByNull().members;
    assert ms[0].name == "type" && ms[1].name == "minimum";
    assert ms[1..] == [Member("minimum", Null)];
    forall name | name in Names(ms) ensures name == "type" || name == "minimum" {
      var i :| 0 <= i < |ms| && ms[i].name == name;
    }
  }

  lemma NullBoundPasses(re: Regex, s: Json)
    requires s.Obj? && Names(s.members) == {"type", "minimum"}
    requires Get(s, "type") == Str("string") && Get(s, "minimum") == Null
    ensures Preflighted(re, s, false)
  {
    forall name | name !in {"type", "minimum"} ensures !Has(s, name) && Get(s, name) == Null {}
  }

  lemma NullBoundSaysNothing(re: Regex, s: Json, text: string)
    requires s.Obj? && Names(s.members) == {"type", "minimum"}
    requires Get(s, "type") == Str("string") && Get(s, "minimum") == Null
    ensures Satisfies(re, Str(text), s)
  {
    forall name | name !in {"type", "minimum"} ensures !Has(s, name) && Get(s, name) == Null {}
  }

  /** It passes the preflight as a subschema and says nothing against text, which the validator refuses. */
  lemma NullBoundExample(re: Regex, text: string)
    ensures Preflighted(re, TextBoundedByNull(), false) && Satisfies(re, Str(text), TextBoundedByNull())
    ensures !Admits(re, Str(text), TextBoundedByNull())
  {
    hide TextBoundedByNull, Preflighted, Satisfies, Admits, Checked;
    NullBoundKeywords();
    var s := TextBoundedByNull();
    NullBoundPasses(re, s);
    NullBoundSaysNothing(re, s, text);
    CheckedIs(re, s, false);
    NullBoundAdmitsNothing(re, Str(text), s);
  }

  lemma UntypedNullBoundPasses(re: Regex, s: Json)
    requires s.Obj? && Names(s.members) == {"minimum"} && Get(s, "minimum") == Null
    ensures Preflighted(re, s, false)
  {
    forall name | name != "minimum" ensures !Has(s, name) && Get(s, name) == Null {}
  }

  lemma UntypedNullBoundReads(re: Regex, s: Json, v: Json)
    requires s.Obj? && Names(s.members) == {"minimum"} && Get(s, "minimum") == Null
    ensures Satisfies(re, v, s) && (Admits(re, v, s) <==> IsNumber(v))
  {
    forall name | name != "minimum" ensures !Has(s, name) && Get(s, name) == Null {}
  }

  /** Alone it passes the preflight too and says nothing, but the validator admits numbers only. */
  lemma UntypedNullBoundExample(re: Regex, v: Json)
    ensures Preflighted(re, BoundedByNull(), false) && Satisfies(re, v, BoundedByNull())
    ensures Admits(re, v, BoundedByNull()) <==> IsNumber(v)
  {
    hide Preflighted, Satisfies, Admits;
    var ms := BoundedByNull().members;
    assert ms[0].name == "minimum";
    forall name | name in Names(ms) ensures name == "minimum" { var i :| 0 <= i < |ms| && ms[i].name == name; }
    UntypedNullBoundPasses(re, BoundedByNull());
    UntypedNullBoundReads(re, BoundedByNull(), v);
  }
}
