/** The nesting check on undecoded JSON text (scripts/export_detection_receipt.py, lines 95-116), against the
    grammar of RFC 8259, sections 2, 4, 5 and 7. */
module DepthScan {
  import opened Json
  import opened Arithmetic

  const MAX_JSON_DEPTH := 64

  // ---------- the scanner ----------

  datatype Scan = Scan(depth: int, quoted: bool, escaped: bool)

  const START := Scan(0, false, false)

  /** One character; None where the check fails. */
  function Read(s: Scan, c: char): Option<Scan> {
    if s.quoted then
      if s.escaped then Some(s.(escaped := false))
      else if c == '\\' then Some(s.(escaped := true))
      else if c == '"' then Some(s.(quoted := false))
      else Some(s)
    else if c == '"' then Some(s.(quoted := true))
    else if c == '[' || c == '{' then
      if s.depth + 1 > MAX_JSON_DEPTH then None else Some(s.(depth := s.depth + 1))
    else if c == ']' || c == '}' then
      if s.depth - 1 < 0 then None else Some(s.(depth := s.depth - 1))
    else Some(s)
  }

  function ReadAll(s: Option<Scan>, text: string): Option<Scan>
    decreases |text|
  {
    if s.None? || text == "" then s else ReadAll(Read(s.value, text[0]), text[1..])
  }

  /** `_check_depth`; false where it fails. */
  method CheckDepth(text: string) returns (ok: bool)
    ensures ok == ReadAll(Some(START), text).Some?
  {
    var depth, quoted, escaped := 0, false, false;
    for i := 0 to |text|
      invariant ReadAll(Some(START), text) == ReadAll(Some(Scan(depth, quoted, escaped)), text[i..])
    {
      var character := text[i];
      ghost var before := Scan(depth, quoted, escaped);
      assert text[i..][0] == character && text[i..][1..] == text[i + 1..];
      if quoted {
        if escaped {
          escaped := false;
        } else if character == '\\' {
          escaped := true;
        } else if character == '"' {
          quoted := false;
        }
      } else if character == '"' {
        quoted := true;
      } else if character in "[{" {
        depth := depth + 1;
        if depth > MAX_JSON_DEPTH { assert Read(before, character).None?; return false; }
      } else if character in "]}" {
        depth := depth - 1;
        if depth < 0 { assert Read(before, character).None?; return false; }
      }
      assert Read(before, character) == Some(Scan(depth, quoted, escaped));
    }
    return true;
  }

  // ---------- JSON text ----------

  /** A character of a string, or an escape of any character (`\u` is an escape followed by digits). */
  datatype Piece = Plain(c: char) | Escape(c: char)

  /** A value as written, with the white space around its parts. */
  datatype Text =
    | Token(token: string)
    | Quoted(body: seq<Piece>)
    | List(inner: string, items: seq<Item>)
    | Dict(inner: string, entries: seq<Entry>)

  datatype Item = Item(before: string, value: Text, after: string)

  datatype Entry = Entry(before: string, name: seq<Piece>, colonBefore: string, item: Item)

  predicate Neutral(c: char) { c !in "\"[]{}" }

  predicate Space(text: string) { forall i :: 0 <= i < |text| ==> text[i] in " \t\n\r" }

  predicate Pieces(body: seq<Piece>) {
    forall i :: 0 <= i < |body| ==> body[i].Plain? ==> body[i].c != '"' && body[i].c != '\\'
  }

  predicate Valid(t: Text) {
    match t
    case Token(token) => forall i :: 0 <= i < |token| ==> Neutral(token[i])
    case Quoted(body) => Pieces(body)
    case List(inner, items) => Space(inner) && forall i :: 0 <= i < |items| ==> ValidItem(items[i])
    case Dict(inner, entries) =>
      Space(inner) && forall i :: 0 <= i < |entries| ==>
        && Space(entries[i].before) && Pieces(entries[i].name)
        && Space(entries[i].colonBefore) && ValidItem(entries[i].item)
  }

  predicate ValidItem(item: Item) { Space(item.before) && Valid(item.value) && Space(item.after) }

  function WritePieces(body: seq<Piece>): string {
    if body == [] then ""
    else (if body[0].Plain? then [body[0].c] else ['\\', body[0].c]) + WritePieces(body[1..])
  }

  function WriteString(body: seq<Piece>): string { "\"" + WritePieces(body) + "\"" }

  function Write(t: Text): string {
    match t
    case Token(token) => token
    case Quoted(body) => WriteString(body)
    case List(inner, items) => "[" + inner + WriteItems(items) + "]"
    case Dict(inner, entries) => "{" + inner + WriteEntries(entries) + "}"
  }

  function WriteItem(item: Item): string { item.before + Write(item.value) + item.after }

  function WriteItems(items: seq<Item>): string {
    if items == [] then ""
    else WriteItem(items[0]) + (if |items| > 1 then "," else "") + WriteItems(items[1..])
  }

  function WriteEntry(e: Entry): string
    decreases e, 1
  {
    e.before + WriteString(e.name) + e.colonBefore + ":" + WriteItem(e.item)
  }

  function WriteEntries(entries: seq<Entry>): string {
    if entries == [] then ""
    else WriteEntry(entries[0]) + (if |entries| > 1 then "," else "") + WriteEntries(entries[1..])
  }

  /** How deeply arrays and objects nest. */
  function Nesting(t: Text): nat {
    match t
    case Token(_) => 0
    case Quoted(_) => 0
    case List(_, items) => 1 + ItemNesting(items)
    case Dict(_, entries) => 1 + EntryNesting(entries)
  }

  function ItemNesting(items: seq<Item>): nat {
    if items == [] then 0 else Max(Nesting(items[0].value), ItemNesting(items[1..]))
  }

  function EntryNesting(entries: seq<Entry>): nat {
    if entries == [] then 0 else Max(Nesting(entries[0].item.value), EntryNesting(entries[1..]))
  }

  // ---------- the scanner on JSON text ----------

  lemma {:induction false} ReadConcat(s: Option<Scan>, a: string, b: string)
    ensures ReadAll(s, a + b) == ReadAll(ReadAll(s, a), b)
    decreases |a|
  {
    if a == "" {
      assert a + b == b;
    } else if s.Some? {
      assert (a + b)[1..] == a[1..] + b;
      ReadConcat(Read(s.value, a[0]), a[1..], b);
    }
  }

  lemma {:induction false} ReadNeutral(depth: int, text: string)
    requires forall i :: 0 <= i < |text| ==> Neutral(text[i])
    ensures ReadAll(Some(Scan(depth, false, false)), text) == Some(Scan(depth, false, false))
  {
    if text != "" { ReadNeutral(depth, text[1..]); }
  }

  lemma {:induction false} ReadPieces(depth: int, body: seq<Piece>)
    requires Pieces(body)
    ensures ReadAll(Some(Scan(depth, true, false)), WritePieces(body)) == Some(Scan(depth, true, false))
  {
    if body != [] {
      var first := if body[0].Plain? then [body[0].c] else ['\\', body[0].c];
      var s := Some(Scan(depth, true, false));
      if body[0].Escape? {
        assert first[1..] == [body[0].c];
        assert ReadAll(s, first) == ReadAll(Some(Scan(depth, true, true)), [body[0].c]);
      }
      assert ReadAll(s, first) == s;
      ReadConcat(s, first, WritePieces(body[1..]));
      ReadPieces(depth, body[1..]);
    }
  }

  /** What reading a value does at a depth: nothing, or failure when it nests too deeply. */
  function Outcome(depth: int, nesting: nat): Option<Scan> {
    if depth + nesting > MAX_JSON_DEPTH then None else Some(Scan(depth, false, false))
  }

  lemma ReadString(depth: int, body: seq<Piece>)
    requires Pieces(body)
    ensures ReadAll(Some(Scan(depth, false, false)), WriteString(body)) == Some(Scan(depth, false, false))
  {
    var s := Some(Scan(depth, false, false));
    ReadConcat(s, "\"" + WritePieces(body), "\"");
    ReadConcat(s, "\"", WritePieces(body));
    ReadPieces(depth, body);
    assert ReadAll(s, "\"") == Some(Scan(depth, true, false));
  }

  lemma ReadSpace(depth: int, text: string)
    requires Space(text)
    ensures ReadAll(Some(Scan(depth, false, false)), text) == Some(Scan(depth, false, false))
  {
    ReadNeutral(depth, text);
  }

  lemma {:induction false} ReadItem(depth: int, item: Item)
    requires 0 <= depth <= MAX_JSON_DEPTH && ValidItem(item)
    ensures ReadAll(Some(Scan(depth, false, false)), WriteItem(item)) == Outcome(depth, Nesting(item.value))
    decreases item, 1
  {
    hide Read, Valid, Write;
    var s := Some(Scan(depth, false, false));
    ReadConcat(s, item.before + Write(item.value), item.after);
    ReadConcat(s, item.before, Write(item.value));
    ReadSpace(depth, item.before);
    ReadText(depth, item.value);
    if depth + Nesting(item.value) <= MAX_JSON_DEPTH { ReadSpace(depth, item.after); }
  }

  lemma {:induction false} ReadItems(depth: int, items: seq<Item>)
    requires 0 <= depth <= MAX_JSON_DEPTH && forall i :: 0 <= i < |items| ==> ValidItem(items[i])
    ensures ReadAll(Some(Scan(depth, false, false)), WriteItems(items)) == Outcome(depth, ItemNesting(items))
    decreases items, 0
  {
    hide Read, ValidItem, WriteItem;
    if items != [] {
      var s := Some(Scan(depth, false, false));
      var comma := if |items| > 1 then "," else "";
      ReadConcat(s, WriteItem(items[0]) + comma, WriteItems(items[1..]));
      ReadConcat(s, WriteItem(items[0]), comma);
      ReadItem(depth, items[0]);
      ReadNeutral(depth, comma);
      ReadItems(depth, items[1..]);
    }
  }

  lemma {:induction false} ReadEntry(depth: int, e: Entry)
    requires 0 <= depth <= MAX_JSON_DEPTH
    requires Space(e.before) && Pieces(e.name) && Space(e.colonBefore) && ValidItem(e.item)
    ensures ReadAll(Some(Scan(depth, false, false)), WriteEntry(e)) == Outcome(depth, Nesting(e.item.value))
    decreases e, 1
  {
    hide Read, ValidItem, WriteItem, WriteString;
    var s := Some(Scan(depth, false, false));
    ReadConcat(s, e.before + WriteString(e.name) + e.colonBefore + ":", WriteItem(e.item));
    ReadConcat(s, e.before + WriteString(e.name) + e.colonBefore, ":");
    ReadConcat(s, e.before + WriteString(e.name), e.colonBefore);
    ReadConcat(s, e.before, WriteString(e.name));
    ReadSpace(depth, e.before);
    ReadString(depth, e.name);
    ReadSpace(depth, e.colonBefore);
    ReadNeutral(depth, ":");
    ReadItem(depth, e.item);
  }

  lemma {:induction false} ReadEntries(depth: int, entries: seq<Entry>)
    requires 0 <= depth <= MAX_JSON_DEPTH
    requires forall i :: 0 <= i < |entries| ==>
               && Space(entries[i].before) && Pieces(entries[i].name)
               && Space(entries[i].colonBefore) && ValidItem(entries[i].item)
    ensures ReadAll(Some(Scan(depth, false, false)), WriteEntries(entries)) == Outcome(depth, EntryNesting(entries))
    decreases entries, 0
  {
    hide Read, ValidItem, WriteEntry, Space, Pieces;
    if entries != [] {
      var s := Some(Scan(depth, false, false));
      var comma := if |entries| > 1 then "," else "";
      ReadConcat(s, WriteEntry(entries[0]) + comma, WriteEntries(entries[1..]));
      ReadConcat(s, WriteEntry(entries[0]), comma);
      ReadEntry(depth, entries[0]);
      ReadNeutral(depth, comma);
      ReadEntries(depth, entries[1..]);
    }
  }

  /** A bracketed body read one level down. */
  lemma ReadBracketed(depth: int, open: char, inner: string, body: string, close: char, nesting: nat)
    requires 0 <= depth <= MAX_JSON_DEPTH && open in "[{" && close in "]}" && Space(inner)
    requires depth < MAX_JSON_DEPTH ==>
               ReadAll(Some(Scan(depth + 1, false, false)), body) == Outcome(depth + 1, nesting)
    ensures ReadAll(Some(Scan(depth, false, false)), [open] + inner + body + [close]) == Outcome(depth, 1 + nesting)
  {
    var s := Some(Scan(depth, false, false));
    ReadConcat(s, [open] + inner + body, [close]);
    ReadConcat(s, [open] + inner, body);
    ReadConcat(s, [open], inner);
    assert ReadAll(s, [open]) == Read(s.value, open);
    if depth < MAX_JSON_DEPTH {
      ReadSpace(depth + 1, inner);
      assert ReadAll(Some(Scan(depth + 1, false, false)), [close]) == s;
    }
  }

  lemma {:induction false} ReadText(depth: int, t: Text)
    requires 0 <= depth <= MAX_JSON_DEPTH && Valid(t)
    ensures ReadAll(Some(Scan(depth, false, false)), Write(t)) == Outcome(depth, Nesting(t))
    decreases t, 0
  {
    hide Read, ReadAll, WriteString, Space, ValidItem, Pieces;
    match t
    case Token(token) => ReadNeutral(depth, token);
    case Quoted(body) => ReadString(depth, body);
    case List(inner, items) =>
      if depth < MAX_JSON_DEPTH { ReadItems(depth + 1, items); }
      ReadBracketed(depth, '[', inner, WriteItems(items), ']', ItemNesting(items));
    case Dict(inner, entries) =>
      if depth < MAX_JSON_DEPTH { ReadEntries(depth + 1, entries); }
      ReadBracketed(depth, '{', inner, WriteEntries(entries), '}', EntryNesting(entries));
  }

  /** The check is exact: on the text of any JSON value, whatever its strings hold, it fails if and only if
      containers nest more than 64 deep, and otherwise ends outside every string and container. */
  lemma DepthIsExact(before: string, t: Text, after: string)
    requires Space(before) && Valid(t) && Space(after)
    ensures ReadAll(Some(START), before + Write(t) + after)
            == if Nesting(t) > MAX_JSON_DEPTH then None else Some(START)
  {
    hide Valid, Write, Nesting;
    ReadItem(0, Item(before, t, after));
  }
}
