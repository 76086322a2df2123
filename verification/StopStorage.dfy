/** The durable record of the human-stop controller: what `bounded_json` admits, what
    `_persist` writes and what a reload reads back
    (experiments/human_override/model.py, lines 11-87 and 119-183). */
module StopStorage {
  import opened Json
  import opened Arithmetic

  const MAX_INTEGER := 1_000_000_000
  const MAX_BYTES := 65_536
  const MAX_NODES := 4096
  const MAX_DEPTH := 12
  const MAX_STRING := 256
  const AUDIT_LIMIT := 64
  const AUDIT_TEXT_LIMIT := 64
  const SCHEMA := "human-stop-state.v1"

  datatype Key = A | B
  datatype Principal = Human | Scheduler | Guest
  datatype Op = Approve | Start | Stop | Reset

  const PRINCIPALS := {Human, Scheduler, Guest}
  const KEYS := {A, B}

  lemma EveryPrincipal()
    ensures forall p: Principal :: p in PRINCIPALS
  {
    forall p: Principal ensures p in PRINCIPALS {
      match p case Human => case Scheduler => case Guest =>
    }
  }

  lemma EveryKey()
    ensures forall k: Key :: k in KEYS
  {
    forall k: Key ensures k in KEYS {
      match k case A => case B =>
    }
  }

  type Sequences = m: map<Principal, int> | forall p: Principal :: p in m
    witness ZeroSequences()

  function ZeroSequences(): (m: map<Principal, int>)
    ensures forall p: Principal :: p in m && m[p] == 0
  {
    EveryPrincipal();
    map p | p in PRINCIPALS :: 0
  }

  datatype Allocation = Allocation(
    generation: int, epoch: int, latched: bool, approved: bool, control: bool,
    sequence: Sequences, audit: seq<string>, dropped: int)

  function FreshAllocation(generation: int): Allocation {
    Allocation(generation, 0, false, false, true, ZeroSequences(), [], 0)
  }

  type Records = m: map<Key, Allocation> | forall k: Key :: k in m
    witness FreshRecords()

  function FreshRecords(): (m: map<Key, Allocation>)
    ensures forall k: Key :: k in m && m[k] == FreshAllocation(1)
  {
    EveryKey();
    map k | k in KEYS :: FreshAllocation(1)
  }

  // ---------- bounded_json ----------

  /** Number of times the recursive check is entered, keys included. */
  function Nodes(j: Json): nat
    decreases j, 0
  {
    match j
    case Arr(items) => 1 + ItemNodes(items)
    case Obj(ms) => 1 + MemberNodes(ms)
    case _ => 1
  }

  function ItemNodes(items: seq<Json>): nat
    decreases items, 1
  {
    if items == [] then 0 else Nodes(items[0]) + ItemNodes(items[1..])
  }

  function MemberNodes(ms: seq<Member>): nat
    decreases ms, 1
  {
    if ms == [] then 0 else 1 + Nodes(ms[0].value) + MemberNodes(ms[1..])
  }

  /** Depth of the deepest node below `j`; a member's name sits one level down. */
  function Height(j: Json): nat {
    match j
    case Arr(items) => if items == [] then 0 else 1 + ItemHeight(items)
    case Obj(ms) => if ms == [] then 0 else 1 + MemberHeight(ms)
    case _ => 0
  }

  function ItemHeight(items: seq<Json>): nat {
    if items == [] then 0 else Max(Height(items[0]), ItemHeight(items[1..]))
  }

  function MemberHeight(ms: seq<Member>): nat {
    if ms == [] then 0 else Max(Height(ms[0].value), MemberHeight(ms[1..]))
  }

  /** Every leaf is of an admitted type and within its limit, and no object repeats a name. */
  predicate LeavesFit(j: Json) {
    match j
    case Null => true
    case Bool(_) => true
    case Int(n) => 0 <= n <= MAX_INTEGER
    case Float(_) => false
    case Str(s) => |s| <= MAX_STRING
    case Arr(items) => forall i :: 0 <= i < |items| ==> LeavesFit(items[i])
    case Obj(ms) =>
      forall i :: 0 <= i < |ms| ==> |ms[i].name| <= MAX_STRING && LeavesFit(ms[i].value)
  }

  predicate NoDuplicates(j: Json) {
    match j
    case Arr(items) => forall i :: 0 <= i < |items| ==> NoDuplicates(items[i])
    case Obj(ms) => DistinctNames(ms) && forall i :: 0 <= i < |ms| ==> NoDuplicates(ms[i].value)
    case _ => true
  }

  /** What `bounded_json` promises about a text of `length` bytes that parses to `j`. */
  predicate Bounded(length: nat, j: Json) {
    && length <= MAX_BYTES
    && NoDuplicates(j)
    && LeavesFit(j)
    && Nodes(j) <= MAX_NODES
    && Height(j) <= MAX_DEPTH
  }

  /** The object-pairs hook, applied bottom-up by the parser. */
  method RefuseDuplicates(j: Json) returns (ok: bool)
    ensures ok == NoDuplicates(j)
  {
    match j {
      case Arr(items) =>
        for i := 0 to |items|
          invariant forall n :: 0 <= n < i ==> NoDuplicates(items[n])
        {
          var inner := RefuseDuplicates(items[i]);
          if !inner { return false; }
        }
        return true;
      case Obj(ms) =>
        var result: set<string> := {};
        for i := 0 to |ms|
          invariant forall n :: 0 <= n < i ==> NoDuplicates(ms[n].value)
          invariant result == Names(ms[..i])
          invariant DistinctNames(ms[..i])
        {
          var inner := RefuseDuplicates(ms[i].value);
          if !inner { return false; }
          if ms[i].name in result {
            var n :| 0 <= n < i && ms[..i][n].name == ms[i].name;
            return false;
          }
          assert ms[..i + 1] == ms[..i] + [ms[i]];
          result := result + {ms[i].name};
        }
        assert ms[..|ms|] == ms;
        return true;
      case _ => return true;
    }
  }

  /** The members `ms`, checked one level down, pass with `left` checks to spend. */
  ghost predicate MembersPass(ms: seq<Member>, depth: nat, left: nat) {
    && (forall i :: 0 <= i < |ms| ==> |ms[i].name| <= MAX_STRING && LeavesFit(ms[i].value))
    && MemberNodes(ms) <= left
    && (ms != [] ==> depth + MemberHeight(ms) <= MAX_DEPTH)
  }

  ghost predicate ItemsPass(items: seq<Json>, depth: nat, left: nat) {
    && (forall i :: 0 <= i < |items| ==> LeavesFit(items[i]))
    && ItemNodes(items) <= left
    && (items != [] ==> depth + ItemHeight(items) <= MAX_DEPTH)
  }

  ghost predicate Passes(j: Json, depth: nat, left: nat) {
    LeavesFit(j) && Nodes(j) <= left && depth + Height(j) <= MAX_DEPTH
  }

  lemma MembersPassFirst(ms: seq<Member>, i: nat, depth: nat, left: nat)
    requires i < |ms| && depth <= MAX_DEPTH
    ensures MembersPass(ms[i..], depth, left)
            <==> && |ms[i].name| <= MAX_STRING && 0 < left && Passes(ms[i].value, depth, left - 1)
                 && MembersPass(ms[i + 1..], depth, left - 1 - Nodes(ms[i].value))
    ensures MemberNodes(ms[i..]) == 1 + Nodes(ms[i].value) + MemberNodes(ms[i + 1..])
  {
    var rest := ms[i..];
    assert rest[1..] == ms[i + 1..];
    assert rest[0] == ms[i];
    assert forall n :: 0 < n < |rest| ==> rest[n] == rest[1..][n - 1];
    assert forall n :: 0 <= n < |rest[1..]| ==> rest[1..][n] == rest[n + 1];
  }

  lemma ItemsPassFirst(items: seq<Json>, i: nat, depth: nat, left: nat)
    requires i < |items| && depth <= MAX_DEPTH
    ensures ItemsPass(items[i..], depth, left)
            <==> && Passes(items[i], depth, left)
                 && ItemsPass(items[i + 1..], depth, left - Nodes(items[i]))
    ensures ItemNodes(items[i..]) == Nodes(items[i]) + ItemNodes(items[i + 1..])
  {
    var rest := items[i..];
    assert rest[1..] == items[i + 1..];
    assert rest[0] == items[i];
    assert forall n :: 0 < n < |rest| ==> rest[n] == rest[1..][n - 1];
    assert forall n :: 0 <= n < |rest[1..]| ==> rest[1..][n] == rest[n + 1];
  }

  lemma PassesUnfolds(j: Json, depth: nat, remaining: nat)
    requires remaining > 0 && depth <= MAX_DEPTH
    ensures j.Obj? ==> (Passes(j, depth, remaining) <==> MembersPass(j.members, depth + 1, remaining - 1))
                       && Nodes(j) == 1 + MemberNodes(j.members)
    ensures j.Arr? ==> (Passes(j, depth, remaining) <==> ItemsPass(j.items, depth + 1, remaining - 1))
                       && Nodes(j) == 1 + ItemNodes(j.items)
  {
  }

  /** The nested `check`: `left` is the shared countdown after the call. */
  method Check(j: Json, depth: nat, remaining: nat) returns (ok: bool, left: nat)
    ensures ok == Passes(j, depth, remaining)
    ensures ok ==> left == remaining - Nodes(j)
    decreases j, 1
  {
    if remaining == 0 || depth > MAX_DEPTH { return false, 0; }
    left := remaining - 1;
    match j {
      case Obj(_) =>
        PassesUnfolds(j, depth, remaining);
        ok, left := CheckMembers(j, depth + 1, left);
      case Arr(_) =>
        PassesUnfolds(j, depth, remaining);
        ok, left := CheckItems(j, depth + 1, left);
      case Str(s) => return |s| <= MAX_STRING, left;
      case Int(n) => return 0 <= n <= MAX_INTEGER, left;
      case Float(_) => return false, left;
      case _ => return true, left;
    }
  }

  /** Its loop over the names and values of an object. */
  method CheckMembers(j: Json, depth: nat, remaining: nat) returns (ok: bool, left: nat)
    requires j.Obj?
    ensures ok == MembersPass(j.members, depth, remaining)
    ensures ok ==> left == remaining - MemberNodes(j.members)
    decreases j, 0
  {
    hide Passes, MembersPass, MemberNodes, Nodes, LeavesFit;
    var ms := j.members;
    left := remaining;
    assert ms[0..] == ms;
    for i := 0 to |ms|
      invariant MembersPass(ms, depth, remaining) <==> MembersPass(ms[i..], depth, left)
      invariant left + MemberNodes(ms) == remaining + MemberNodes(ms[i..])
    {
      if depth > MAX_DEPTH {
        NonEmptyTooDeep(ms[i..], depth, left);
        return false, 0;
      }
      MembersPassFirst(ms, i, depth, left);
      if left == 0 || |ms[i].name| > MAX_STRING { return false, 0; }
      var inner;
      inner, left := Check(ms[i].value, depth, left - 1);
      if !inner { return false, 0; }
    }
    NonePasses(ms[|ms|..], depth, left);
    return true, left;
  }

  /** Its loop over the items of an array. */
  method CheckItems(j: Json, depth: nat, remaining: nat) returns (ok: bool, left: nat)
    requires j.Arr?
    ensures ok == ItemsPass(j.items, depth, remaining)
    ensures ok ==> left == remaining - ItemNodes(j.items)
    decreases j, 0
  {
    hide Passes, ItemsPass, ItemNodes, Nodes, LeavesFit;
    var items := j.items;
    left := remaining;
    assert items[0..] == items;
    for i := 0 to |items|
      invariant ItemsPass(items, depth, remaining) <==> ItemsPass(items[i..], depth, left)
      invariant left + ItemNodes(items) == remaining + ItemNodes(items[i..])
    {
      if depth > MAX_DEPTH {
        NonEmptyItemsTooDeep(items[i..], depth, left);
        return false, 0;
      }
      ItemsPassFirst(items, i, depth, left);
      var inner;
      inner, left := Check(items[i], depth, left);
      if !inner { return false, 0; }
    }
    NoItemPasses(items[|items|..], depth, left);
    return true, left;
  }

  lemma NonEmptyTooDeep(ms: seq<Member>, depth: nat, left: nat)
    requires ms != [] && depth > MAX_DEPTH
    ensures !MembersPass(ms, depth, left)
  {
  }

  lemma NonEmptyItemsTooDeep(items: seq<Json>, depth: nat, left: nat)
    requires items != [] && depth > MAX_DEPTH
    ensures !ItemsPass(items, depth, left)
  {
  }

  lemma NonePasses(ms: seq<Member>, depth: nat, left: nat)
    requires ms == []
    ensures MembersPass(ms, depth, left) && MemberNodes(ms) == 0
  {
  }

  lemma NoItemPasses(items: seq<Json>, depth: nat, left: nat)
    requires items == []
    ensures ItemsPass(items, depth, left) && ItemNodes(items) == 0
  {
  }

  /** `bounded_json` on a text of `length` bytes that the parser reads as `j`. */
  method BoundedJson(length: nat, j: Json) returns (ok: bool)
    ensures ok == Bounded(length, j)
  {
    if length > MAX_BYTES { return false; }
    ok := RefuseDuplicates(j);
    if ok {
      var left;
      ok, left := Check(j, 0, MAX_NODES);
    }
  }

  // ---------- length of the text json.dumps writes ----------

  function DigitCount(n: nat): (d: nat)
    ensures 1 <= d
    decreases n
  {
    if n < 10 then 1 else 1 + DigitCount(n / 10)
  }

  /** Bytes written for one character: short escape, plain ASCII, or \\u escape(s). */
  function CharLength(c: char): nat {
    var code := c as int;
    if code in {34, 92, 10, 13, 9, 8, 12} then 2
    else if 32 <= code <= 126 then 1
    else if code > 0xFFFF then 12
    else 6
  }

  function BodyLength(s: string): nat {
    if s == "" then 0 else CharLength(s[0]) + BodyLength(s[1..])
  }

  function StringLength(s: string): nat { 2 + BodyLength(s) }

  /** Length of `json.dumps(j)`.  A float is never written, so its length is arbitrary here. */
  function Length(j: Json): nat
    decreases j, 0
  {
    match j
    case Null => 4
    case Bool(b) => if b then 4 else 5
    case Int(n) => if n < 0 then 1 + DigitCount(-n) else DigitCount(n)
    case Float(_) => 0
    case Str(s) => StringLength(s)
    case Arr(items) => 2 + ItemLength(items)
    case Obj(ms) => 2 + MemberLength(ms)
  }

  function ItemLength(items: seq<Json>): nat
    decreases items, 1
  {
    if items == [] then 0
    else Length(items[0]) + (if |items| > 1 then 2 else 0) + ItemLength(items[1..])
  }

  function MemberLength(ms: seq<Member>): nat
    decreases ms, 1
  {
    if ms == [] then 0
    else StringLength(ms[0].name) + 2 + Length(ms[0].value)
         + (if |ms| > 1 then 2 else 0) + MemberLength(ms[1..])
  }

  // ---------- the text itself ----------

  function Digits(n: nat): string {
    if n < 10 then ["0123456789"[n]] else Digits(n / 10) + ["0123456789"[n % 10]]
  }

  function Hex(n: nat): string { "0123456789abcdef"[n % 16..n % 16 + 1] }

  /** `\uXXXX`. */
  function Unit(n: nat): string { "\\u" + Hex(n / 4096) + Hex(n / 256) + Hex(n / 16) + Hex(n) }

  /** A character as `json.dumps` writes it with `ensure_ascii`; beyond 16 bits as a surrogate pair. */
  function Escaped(c: char): string {
    var code := c as int;
    if c == '"' then "\\\""
    else if c == '\\' then "\\\\"
    else if c == '\n' then "\\n"
    else if c == '\r' then "\\r"
    else if c == '\t' then "\\t"
    else if code == 8 then "\\b"
    else if code == 12 then "\\f"
    else if ' ' <= c <= '~' then [c]
    else if code > 0xFFFF then
      Unit(0xD800 + (code - 0x10000) / 1024) + Unit(0xDC00 + (code - 0x10000) % 1024)
    else Unit(code)
  }

  function Body(s: string): string {
    if s == "" then "" else Escaped(s[0]) + Body(s[1..])
  }

  function Quoted(s: string): string { "\"" + Body(s) + "\"" }

  /** `json.dumps(j)` of a value without floats. */
  function Dumped(j: Json): string
    decreases j, 0
  {
    match j
    case Null => "null"
    case Bool(b) => if b then "true" else "false"
    case Int(n) => if n < 0 then "-" + Digits(-n) else Digits(n)
    case Float(_) => ""
    case Str(s) => Quoted(s)
    case Arr(items) => "[" + ItemText(items) + "]"
    case Obj(ms) => "{" + MemberText(ms) + "}"
  }

  function ItemText(items: seq<Json>): string
    decreases items, 1
  {
    if items == [] then ""
    else Dumped(items[0]) + (if |items| > 1 then ", " else "") + ItemText(items[1..])
  }

  function MemberText(ms: seq<Member>): string
    decreases ms, 1
  {
    if ms == [] then ""
    else Quoted(ms[0].name) + ": " + Dumped(ms[0].value) + (if |ms| > 1 then ", " else "") + MemberText(ms[1..])
  }

  lemma {:induction false} DigitsLength(n: nat)
    ensures |Digits(n)| == DigitCount(n)
  {
    if n >= 10 { DigitsLength(n / 10); }
  }

  lemma EscapedLength(c: char)
    ensures |Escaped(c)| == CharLength(c)
  {
  }

  lemma {:induction false} QuotedLength(s: string)
    ensures |Body(s)| == BodyLength(s)
  {
    hide Escaped, CharLength;
    if s != "" {
      EscapedLength(s[0]);
      QuotedLength(s[1..]);
    }
  }

  /** The length the limits are checked against is that of the text that is written. */
  lemma {:induction false} LengthIsText(j: Json)
    ensures |Dumped(j)| == Length(j)
    decreases j, 0
  {
    match j
    case Int(n) => DigitsLength(if n < 0 then -n else n);
    case Str(s) => QuotedLength(s);
    case Arr(items) => ItemsLength(items);
    case Obj(ms) => MembersLength(ms);
    case _ =>
  }

  lemma {:induction false} ItemsLength(items: seq<Json>)
    ensures |ItemText(items)| == ItemLength(items)
    decreases items, 1
  {
    if items != [] {
      LengthIsText(items[0]);
      ItemsLength(items[1..]);
    }
  }

  lemma {:induction false} MembersLength(ms: seq<Member>)
    ensures |MemberText(ms)| == MemberLength(ms)
    decreases ms, 1
  {
    if ms != [] {
      QuotedLength(ms[0].name);
      LengthIsText(ms[0].value);
      MembersLength(ms[1..]);
    }
  }

  // ---------- the record, written and read ----------

  datatype Result = OK | DENIED

  function OpText(op: Op): string {
    match op
    case Approve => "approve"
    case Start => "start"
    case Stop => "stop"
    case Reset => "reset"
  }

  function ResultText(r: Result): string { if r.OK? then "OK" else "DENIED" }

  /** One audit entry. */
  function AuditText(op: Op, r: Result): string { OpText(op) + ":" + ResultText(r) }

  /** An entry that `command` can have written. */
  ghost predicate Known(entry: string) { exists op: Op, r: Result :: entry == AuditText(op, r) }

  /** A record the state machine can reach: every field in range, latch excludes approval,
      and the audit holds nothing but entries that `command` writes. */
  ghost predicate Storable(row: Allocation) {
    && 1 <= row.generation <= MAX_INTEGER
    && 0 <= row.epoch <= MAX_INTEGER
    && 0 <= row.dropped <= MAX_INTEGER
    && !(row.latched && row.approved)
    && (forall p: Principal :: 0 <= row.sequence[p] <= MAX_INTEGER)
    && |row.audit| <= AUDIT_LIMIT
    && (forall i :: 0 <= i < |row.audit| ==> Known(row.audit[i]))
  }

  ghost predicate AllStorable(records: Records) {
    forall k: Key :: Storable(records[k])
  }

  function KeyName(k: Key): string {
    match k case A => "A" case B => "B"
  }

  function PrincipalName(p: Principal): string {
    match p case Human => "human" case Scheduler => "scheduler" case Guest => "guest"
  }

  function TextItems(texts: seq<string>): seq<Json> {
    seq(|texts|, i requires 0 <= i < |texts| => Str(texts[i]))
  }

  function SequenceMembers(s: Sequences): seq<Member> {
    [Member(PrincipalName(Guest), Int(s[Guest])), Member(PrincipalName(Human), Int(s[Human])),
     Member(PrincipalName(Scheduler), Int(s[Scheduler]))]
  }

  datatype RowField =
    ApprovedField | AuditField | ControlField | DroppedField
    | EpochField | GenerationField | LatchedField | SequenceField

  function RowName(f: RowField): string {
    match f
    case ApprovedField => "approved"
    case AuditField => "audit"
    case ControlField => "control"
    case DroppedField => "dropped"
    case EpochField => "epoch"
    case GenerationField => "generation"
    case LatchedField => "latched"
    case SequenceField => "sequence"
  }

  function RowValue(row: Allocation, f: RowField): Json {
    match f
    case ApprovedField => Bool(row.approved)
    case AuditField => Arr(TextItems(row.audit))
    case ControlField => Bool(row.control)
    case DroppedField => Int(row.dropped)
    case EpochField => Int(row.epoch)
    case GenerationField => Int(row.generation)
    case LatchedField => Bool(row.latched)
    case SequenceField => Obj(SequenceMembers(row.sequence))
  }

  function RowMember(row: Allocation, f: RowField): Member {
    Member(RowName(f), RowValue(row, f))
  }

  /** `asdict(row)` in the order json.dumps writes it with `sort_keys`. */
  function RowMembers(row: Allocation): seq<Member> {
    [RowMember(row, ApprovedField), RowMember(row, AuditField), RowMember(row, ControlField),
     RowMember(row, DroppedField), RowMember(row, EpochField), RowMember(row, GenerationField),
     RowMember(row, LatchedField), RowMember(row, SequenceField)]
  }

  function RowsMembers(records: Records): seq<Member> {
    [Member(KeyName(A), Obj(RowMembers(records[A]))), Member(KeyName(B), Obj(RowMembers(records[B])))]
  }

  function Document(rows: Json, schema: string): Json {
    Obj([Member("allocations", rows), Member("schema", Str(schema))])
  }

  /** The document `_persist` writes. */
  function Encode(records: Records): Json {
    Document(Obj(RowsMembers(records)), SCHEMA)
  }

  const ROW_FIELDS := {"approved", "audit", "control", "dropped", "epoch", "generation", "latched", "sequence"}

  predicate IsInRange(j: Json) { j.Int? && 0 <= j.n <= MAX_INTEGER }

  /** Member `name` of an object whose names have been checked. */
  function Field(ms: seq<Member>, name: string): Json {
    var found := Lookup(ms, name);
    if found.Some? then found.value else Null
  }

  function AsInt(j: Json): int { if j.Int? then j.n else 0 }

  function AsText(j: Json): string { if j.Str? then j.s else "" }

  function AsItems(j: Json): seq<Json> { if j.Arr? then j.items else [] }

  function AsMembers(j: Json): seq<Member> { if j.Obj? then j.members else [] }

  predicate ValidField(f: RowField, j: Json) {
    match f
    case AuditField => ValidAudit(j)
    case SequenceField => j.Obj? && ValidSequence(j.members)
    case GenerationField => IsInRange(j) && j.n >= 1
    case EpochField => IsInRange(j)
    case DroppedField => IsInRange(j)
    case _ => j.Bool?
  }

  /** `_validate_record`: true when it raises nothing. */
  predicate ValidRecord(ms: seq<Member>) {
    && Names(ms) == ROW_FIELDS
    && (forall f: RowField :: ValidField(f, Field(ms, RowName(f))))
    && !(Field(ms, RowName(LatchedField)) == Bool(true) && Field(ms, RowName(ApprovedField)) == Bool(true))
  }

  predicate ValidSequence(ms: seq<Member>) {
    && Names(ms) == {"human", "scheduler", "guest"}
    && forall p: Principal :: IsInRange(Field(ms, PrincipalName(p)))
  }

  predicate ValidAudit(j: Json) {
    && j.Arr?
    && |j.items| <= AUDIT_LIMIT
    && forall i :: 0 <= i < |j.items| ==> j.items[i].Str? && |j.items[i].s| <= AUDIT_TEXT_LIMIT
  }

  function DecodeSequence(ms: seq<Member>): Sequences {
    EveryPrincipal();
    map p | p in PRINCIPALS :: AsInt(Field(ms, PrincipalName(p)))
  }

  /** `Allocation(**row)` of a validated row. */
  function DecodeRow(ms: seq<Member>): Allocation {
    var items := AsItems(Field(ms, RowName(AuditField)));
    Allocation(AsInt(Field(ms, RowName(GenerationField))), AsInt(Field(ms, RowName(EpochField))),
               Field(ms, RowName(LatchedField)) == Bool(true), Field(ms, RowName(ApprovedField)) == Bool(true),
               Field(ms, RowName(ControlField)) == Bool(true),
               DecodeSequence(AsMembers(Field(ms, RowName(SequenceField)))),
               seq(|items|, i requires 0 <= i < |items| => AsText(items[i])),
               AsInt(Field(ms, RowName(DroppedField))))
  }

  predicate ValidRows(ms: seq<Member>) {
    && Names(ms) == {"A", "B"}
    && forall k: Key :: Field(ms, KeyName(k)).Obj? && ValidRecord(Field(ms, KeyName(k)).members)
  }

  function DecodeRows(ms: seq<Member>): Records {
    EveryKey();
    map k | k in KEYS :: DecodeRow(AsMembers(Field(ms, KeyName(k))))
  }

  predicate ValidEnvelope(j: Json) {
    && j.Obj?
    && Names(j.members) == {"schema", "allocations"}
    && Field(j.members, "schema") == Str(SCHEMA)
    && Field(j.members, "allocations").Obj?
    && ValidRows(Field(j.members, "allocations").members)
  }

  /** What a reload makes of a state file that holds the text of `j`; None when it raises. */
  function Load(j: Json): Option<Records> {
    if Bounded(Length(j), j) && ValidEnvelope(j) then
      Some(DecodeRows(AsMembers(Field(AsMembers(j), "allocations"))))
    else
      None
  }

  predicate RowFits(row: Allocation) {
    && 1 <= row.generation <= 1_000_000_000 && 0 <= row.epoch <= 1_000_000_000
    && 0 <= row.dropped <= 1_000_000_000 && !(row.latched && row.approved)
    && (forall p: Principal :: 0 <= row.sequence[p] <= 1_000_000_000)
    && |row.audit| <= 64 && forall i :: 0 <= i < |row.audit| ==> |row.audit[i]| <= 64
  }

  /** Nothing is loaded but records whose numbers are in range, whose latch excludes approval and whose audit is
      short, from a document of the expected schema that is within all limits. */
  lemma LoadedFits(j: Json)
    requires Load(j).Some?
    ensures Bounded(Length(j), j) && j.Obj? && Names(j.members) == {"schema", "allocations"}
    ensures Lookup(j.members, "schema") == Some(Str("human-stop-state.v1"))
    ensures forall k: Key :: RowFits(Load(j).value[k])
  {
    hide Bounded, Length;
    var rows := Field(j.members, "allocations").members;
    forall k: Key ensures RowFits(Load(j).value[k]) { RecordFits(Field(rows, KeyName(k)).members); }
  }

  lemma RecordFits(ms: seq<Member>)
    requires ValidRecord(ms)
    ensures RowFits(DecodeRow(ms))
  {
    hide Lookup;
    assert ValidField(GenerationField, Field(ms, RowName(GenerationField)));
    assert ValidField(EpochField, Field(ms, RowName(EpochField)));
    assert ValidField(DroppedField, Field(ms, RowName(DroppedField)));
    assert ValidField(AuditField, Field(ms, RowName(AuditField)));
    assert ValidField(SequenceField, Field(ms, RowName(SequenceField)));
  }

  // ---------- every reachable record is storable, without loss ----------

  lemma {:induction false} DigitsBound(n: nat, digits: nat)
    requires digits >= 1 && n < Power10(digits)
    ensures DigitCount(n) <= digits
    decreases digits
  {
    if n >= 10 { DigitsBound(n / 10, digits - 1); }
  }

  function Power10(d: nat): nat { if d == 0 then 1 else 10 * Power10(d - 1) }

  /** Fits: a value small enough that eight of them, twice over, stay under every limit. */
  ghost predicate Small(j: Json, nodes: nat, height: nat, length: nat) {
    LeavesFit(j) && NoDuplicates(j) && Nodes(j) <= nodes && Height(j) <= height && Length(j) <= length
  }

  predicate Plain(s: string) {
    forall i :: 0 <= i < |s| ==> 32 <= s[i] as int <= 126 && s[i] as int !in {34, 92}
  }

  lemma {:induction false} PlainLength(s: string)
    requires Plain(s)
    ensures BodyLength(s) == |s|
  {
    if s != "" { PlainLength(s[1..]); }
  }

  lemma AuditTextSmall(op: Op, r: Result)
    ensures Plain(AuditText(op, r)) && |AuditText(op, r)| <= 14
    ensures Small(Str(AuditText(op, r)), 1, 0, 16)
  {
    var t := AuditText(op, r);
    assert Plain(OpText(op)) && |OpText(op)| <= 7;
    assert Plain(ResultText(r)) && |ResultText(r)| <= 6;
    PlainLength(t);
  }

  function Times(n: nat, cost: nat): nat { if n == 0 then 0 else cost + Times(n - 1, cost) }

  lemma {:induction false} TimesMonotone(n: nat, m: nat, cost: nat)
    requires n <= m
    ensures Times(n, cost) <= Times(m, cost)
    decreases m
  {
    if n < m { TimesMonotone(n, m - 1, cost); }
  }

  lemma {:induction false} TimesProduct(n: nat, cost: nat)
    ensures Times(n, cost) == n * cost
  {
    if n > 0 { TimesProduct(n - 1, cost); }
  }

  lemma {:induction false} ItemsSmall(items: seq<Json>, nodes: nat, height: nat, length: nat)
    requires forall i :: 0 <= i < |items| ==> Small(items[i], nodes, height, length)
    ensures ItemNodes(items) <= Times(|items|, nodes)
    ensures ItemHeight(items) <= height
    ensures ItemLength(items) <= Times(|items|, length + 2)
  {
    if items != [] {
      assert Small(items[0], nodes, height, length);
      ItemsSmall(items[1..], nodes, height, length);
    }
  }

  lemma {:induction false} MembersSmall(ms: seq<Member>, name: nat, nodes: nat, height: nat, length: nat)
    requires forall i :: 0 <= i < |ms| ==> Plain(ms[i].name) && |ms[i].name| <= name
    requires forall i :: 0 <= i < |ms| ==> Small(ms[i].value, nodes, height, length)
    ensures MemberNodes(ms) <= Times(|ms|, nodes + 1)
    ensures MemberHeight(ms) <= height
    ensures MemberLength(ms) <= Times(|ms|, name + length + 6)
  {
    if ms != [] {
      PlainLength(ms[0].name);
      assert Small(ms[0].value, nodes, height, length);
      MembersSmall(ms[1..], name, nodes, height, length);
    }
  }

  /** An object of at most eight small members, with plain and distinct names, is small. */
  lemma ObjectSmall(ms: seq<Member>, nodes: nat, height: nat, length: nat)
    requires |ms| <= 8 && DistinctNames(ms)
    requires forall i :: 0 <= i < |ms| ==> Plain(ms[i].name) && |ms[i].name| <= 11
    requires forall i :: 0 <= i < |ms| ==> Small(ms[i].value, nodes, height, length)
    ensures Small(Obj(ms), 1 + Times(|ms|, nodes + 1), 1 + height, 2 + Times(|ms|, length + 17))
  {
    MembersSmall(ms, 11, nodes, height, length);
  }

  lemma NumberSmall(n: int)
    requires 0 <= n <= MAX_INTEGER
    ensures Small(Int(n), 1, 0, 10)
  {
    assert Power10(10) == 10 * Power10(9);
    DigitsBound(n, 10);
  }

  lemma AuditSmall(row: Allocation)
    requires Storable(row)
    ensures Small(Arr(TextItems(row.audit)), 65, 1, 1154)
    ensures ValidAudit(Arr(TextItems(row.audit)))
  {
    var items := TextItems(row.audit);
    forall i | 0 <= i < |items|
      ensures Small(items[i], 1, 0, 16) && |row.audit[i]| <= 14
    {
      hide Small, AuditText;
      var op: Op, r: Result :| row.audit[i] == AuditText(op, r);
      AuditTextSmall(op, r);
    }
    ItemsSmall(items, 1, 0, 16);
    TimesProduct(|items|, 1);
    TimesProduct(|items|, 18);
  }

  lemma SequenceDistinct(s: Sequences)
    ensures DistinctNames(SequenceMembers(s))
    ensures Names(SequenceMembers(s)) == {"human", "scheduler", "guest"}
  {
    var ms := SequenceMembers(s);
    var names := Names(ms);
    assert ms[0].name in names && ms[1].name in names && ms[2].name in names;
  }

  lemma SequenceSmall(s: Sequences)
    requires forall p: Principal :: 0 <= s[p] <= MAX_INTEGER
    ensures Small(Obj(SequenceMembers(s)), 7, 1, 83)
  {
    SequenceDistinct(s);
    NumberSmall(s[Guest]);
    NumberSmall(s[Human]);
    NumberSmall(s[Scheduler]);
    ObjectSmall(SequenceMembers(s), 1, 0, 10);
    TimesProduct(3, 2);
    TimesProduct(3, 27);
  }

  lemma SequenceAt(s: Sequences, p: Principal)
    ensures Field(SequenceMembers(s), PrincipalName(p)) == Int(s[p])
  {
    SequenceDistinct(s);
    LookupAt(SequenceMembers(s), match p case Guest => 0 case Human => 1 case Scheduler => 2);
  }

  lemma SequenceLoads(s: Sequences)
    requires forall p: Principal :: 0 <= s[p] <= MAX_INTEGER
    ensures ValidSequence(SequenceMembers(s))
    ensures DecodeSequence(SequenceMembers(s)) == s
  {
    hide Lookup, Field, PrincipalName, SequenceMembers, Names;
    SequenceDistinct(s);
    forall p: Principal ensures Field(SequenceMembers(s), PrincipalName(p)) == Int(s[p]) {
      SequenceAt(s, p);
    }
    EveryPrincipal();
    assert DecodeSequence(SequenceMembers(s)) == s;
  }

  function RowIndex(f: RowField): nat {
    match f
    case ApprovedField => 0
    case AuditField => 1
    case ControlField => 2
    case DroppedField => 3
    case EpochField => 4
    case GenerationField => 5
    case LatchedField => 6
    case SequenceField => 7
  }

  function RowFieldAt(i: nat): RowField {
    match i
    case 0 => ApprovedField
    case 1 => AuditField
    case 2 => ControlField
    case 3 => DroppedField
    case 4 => EpochField
    case 5 => GenerationField
    case 6 => LatchedField
    case _ => SequenceField
  }

  lemma RowNamesDiffer(f: RowField, g: RowField)
    requires f != g
    ensures RowName(f) != RowName(g)
  {
  }

  lemma RowNameListed(f: RowField)
    ensures RowName(f) in ROW_FIELDS
    ensures Plain(RowName(f)) && |RowName(f)| <= 11
  {
  }

  /** The members of `ms` are the eight named values of `row`, each once. */
  ghost predicate IsRow(ms: seq<Member>, row: Allocation) {
    && |ms| == 8
    && (forall i :: 0 <= i < 8 ==> ms[i] == RowMember(row, RowFieldAt(i)))
  }

  lemma RowMembersAreRow(row: Allocation)
    ensures IsRow(RowMembers(row), row)
  {
  }

  lemma RowDistinct(ms: seq<Member>, row: Allocation)
    requires IsRow(ms, row)
    ensures DistinctNames(ms)
  {
    forall i, j | 0 <= i < j < 8 ensures ms[i].name != ms[j].name {
      RowNamesDiffer(RowFieldAt(i), RowFieldAt(j));
    }
  }

  lemma RowFieldsListed(name: string)
    requires name in ROW_FIELDS
    ensures exists f: RowField :: RowName(f) == name
  {
    assert {RowName(ApprovedField), RowName(AuditField), RowName(ControlField), RowName(DroppedField),
            RowName(EpochField), RowName(GenerationField), RowName(LatchedField), RowName(SequenceField)}
           == ROW_FIELDS;
  }

  lemma RowNames(ms: seq<Member>, row: Allocation)
    requires IsRow(ms, row)
    ensures Names(ms) == ROW_FIELDS
  {
    forall name | name in Names(ms) ensures name in ROW_FIELDS {
      var i :| 0 <= i < |ms| && ms[i].name == name;
      RowNameListed(RowFieldAt(i));
    }
    forall name | name in ROW_FIELDS ensures name in Names(ms) {
      RowFieldsListed(name);
      var f: RowField :| RowName(f) == name;
      assert ms[RowIndex(f)].name == name;
    }
  }

  lemma RowAt(ms: seq<Member>, row: Allocation, f: RowField)
    requires IsRow(ms, row)
    ensures Field(ms, RowName(f)) == RowValue(row, f)
  {
    RowDistinct(ms, row);
    assert ms[RowIndex(f)] == RowMember(row, f);
    LookupAt(ms, RowIndex(f));
  }

  lemma RowValueFits(row: Allocation, f: RowField)
    requires Storable(row)
    ensures Small(RowValue(row, f), 65, 1, 1154)
    ensures ValidField(f, RowValue(row, f))
  {
    match f
    case AuditField => AuditSmall(row);
    case SequenceField => SequenceSmall(row.sequence); SequenceLoads(row.sequence);
    case DroppedField => NumberSmall(row.dropped);
    case EpochField => NumberSmall(row.epoch);
    case GenerationField => NumberSmall(row.generation);
    case _ =>
  }

  lemma RowSmall(ms: seq<Member>, row: Allocation)
    requires Storable(row) && IsRow(ms, row)
    ensures Small(Obj(ms), 529, 2, 9370)
  {
    RowDistinct(ms, row);
    forall i | 0 <= i < |ms|
      ensures Plain(ms[i].name) && |ms[i].name| <= 11 && Small(ms[i].value, 65, 1, 1154)
    {
      RowValueFits(row, RowFieldAt(i));
      RowNameListed(RowFieldAt(i));
    }
    ObjectSmall(ms, 65, 1, 1154);
    TimesProduct(8, 66);
    TimesProduct(8, 1171);
  }

  lemma RowValid(ms: seq<Member>, row: Allocation)
    requires Storable(row) && IsRow(ms, row)
    ensures ValidRecord(ms)
  {
    hide Lookup, Field, RowName, ROW_FIELDS, SequenceMembers, TextItems;
    RowNames(ms, row);
    forall f: RowField ensures ValidField(f, Field(ms, RowName(f))) {
      RowAt(ms, row, f);
      RowValueFits(row, f);
    }
    RowAt(ms, row, LatchedField);
    RowAt(ms, row, ApprovedField);
  }

  lemma RowDecodes(ms: seq<Member>, row: Allocation)
    requires Storable(row) && IsRow(ms, row)
    ensures DecodeRow(ms) == row
  {
    hide Lookup, Field, RowName, SequenceMembers, DecodeSequence;
    forall f: RowField ensures Field(ms, RowName(f)) == RowValue(row, f) {
      RowAt(ms, row, f);
    }
    SequenceLoads(row.sequence);
    assert DecodeRow(ms).audit == row.audit;
  }

  lemma RowsDistinct(records: Records)
    ensures DistinctNames(RowsMembers(records)) && Names(RowsMembers(records)) == {"A", "B"}
  {
    var ms := RowsMembers(records);
    assert ms[0].name in Names(ms) && ms[1].name in Names(ms);
  }

  lemma RowsAt(records: Records, k: Key)
    ensures Field(RowsMembers(records), KeyName(k)) == Obj(RowMembers(records[k]))
  {
    RowsDistinct(records);
    LookupAt(RowsMembers(records), match k case A => 0 case B => 1);
  }

  lemma RowsLoad(ms: seq<Member>, records: Records)
    requires AllStorable(records)
    requires Names(ms) == {"A", "B"}
    requires forall k: Key :: Field(ms, KeyName(k)).Obj? && IsRow(Field(ms, KeyName(k)).members, records[k])
    ensures ValidRows(ms)
    ensures DecodeRows(ms) == records
  {
    hide Lookup, Field, KeyName, ValidRecord, DecodeRow, Storable;
    forall k: Key
      ensures ValidRecord(Field(ms, KeyName(k)).members)
      ensures DecodeRow(AsMembers(Field(ms, KeyName(k)))) == records[k]
    {
      RowValid(Field(ms, KeyName(k)).members, records[k]);
      RowDecodes(Field(ms, KeyName(k)).members, records[k]);
    }
    EveryKey();
    assert DecodeRows(ms) == records;
  }

  lemma DocumentFields(rows: Json, schema: string)
    ensures var ms := Document(rows, schema).members;
            && DistinctNames(ms) && Names(ms) == {"schema", "allocations"}
            && Field(ms, "allocations") == rows && Field(ms, "schema") == Str(schema)
  {
    var ms := Document(rows, schema).members;
    assert ms[0].name in Names(ms) && ms[1].name in Names(ms);
    LookupAt(ms, 0);
    LookupAt(ms, 1);
  }

  lemma RowsSmall(records: Records)
    requires AllStorable(records)
    ensures Small(Obj(RowsMembers(records)), 1061, 3, 18776)
  {
    hide RowMembers, Small, Names, IsRow, Storable, DistinctNames;
    forall k: Key ensures Small(Obj(RowMembers(records[k])), 529, 2, 9370) {
      RowMembersAreRow(records[k]);
      RowSmall(RowMembers(records[k]), records[k]);
    }
    RowsDistinct(records);
    ObjectSmall(RowsMembers(records), 529, 2, 9370);
    TimesProduct(2, 530);
    TimesProduct(2, 9387);
  }

  lemma PlainSmall(s: string)
    requires Plain(s) && |s| <= 38
    ensures Small(Str(s), 1, 0, 40)
  {
    PlainLength(s);
  }

  lemma SchemaSmall()
    ensures Small(Str(SCHEMA), 1, 0, 40)
  {
    hide BodyLength, Small;
    PlainSmall(SCHEMA);
  }

  lemma DocumentSmall(ms: seq<Member>)
    requires |ms| == 2 && DistinctNames(ms)
    requires forall i :: 0 <= i < 2 ==> Plain(ms[i].name) && |ms[i].name| <= 11
    requires Small(ms[0].value, 1061, 3, 18776) && Small(ms[1].value, 1, 0, 40)
    ensures Bounded(Length(Obj(ms)), Obj(ms))
  {
    ObjectSmall(ms, 1061, 3, 18776);
    TimesProduct(2, 1062);
    TimesProduct(2, 18793);
  }

  /** A storable record never fails the size checks of `_persist`. */
  lemma StorableIsBounded(records: Records)
    requires AllStorable(records)
    ensures Bounded(Length(Encode(records)), Encode(records))
  {
    hide Lookup, Field, SCHEMA, Small, RowsMembers, Bounded, Names;
    var rows := Obj(RowsMembers(records));
    RowsSmall(records);
    SchemaSmall();
    DocumentFields(rows, SCHEMA);
    DocumentSmall(Document(rows, SCHEMA).members);
  }

  /** Storage is lossless: a reload reads back exactly the committed records. */
  lemma LoadsBack(records: Records)
    requires AllStorable(records)
    ensures Load(Encode(records)) == Some(records)
  {
    hide Lookup, Field, KeyName, RowsMembers, RowMembers, ValidRows, DecodeRows, Bounded, Names, IsRow;
    StorableIsBounded(records);
    RowsDistinct(records);
    forall k: Key
      ensures Field(RowsMembers(records), KeyName(k)) == Obj(RowMembers(records[k]))
      ensures IsRow(RowMembers(records[k]), records[k])
    {
      RowsAt(records, k);
      RowMembersAreRow(records[k]);
    }
    RowsLoad(RowsMembers(records), records);
    DocumentFields(Obj(RowsMembers(records)), SCHEMA);
  }
}
