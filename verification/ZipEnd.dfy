/** The search for an exact ZIP end record (scripts/first_kill.py, lines 535-552, and
    scripts/verify_release.py, lines 33-50), against section 4.3.16 of PKWARE APPNOTE.TXT. */
module ZipEnd {
  import opened Arithmetic

  const MAX_ZIP_COMMENT_BYTES := 65_535
  const END_RECORD := 22
  const MARKER: seq<Byte> := [0x50, 0x4B, 0x05, 0x06]

  type Byte = b: int | 0 <= b < 256

  predicate MarkerAt(bytes: seq<Byte>, p: int) {
    0 <= p && p + |MARKER| <= |bytes| && bytes[p..p + |MARKER|] == MARKER
  }

  /** The 16-bit little-endian comment length of the record at `p`. */
  function CommentSize(bytes: seq<Byte>, p: int): int
    requires 0 <= p && p + END_RECORD <= |bytes|
  {
    var low: int, high: int := bytes[p + 20], bytes[p + 21];
    low + 256 * high
  }

  /** `int.from_bytes(bytes, "little")`. */
  function FromLittleEndian(bytes: seq<Byte>): int {
    if bytes == [] then 0
    else
      var low: int := bytes[0];
      low + 256 * FromLittleEndian(bytes[1..])
  }

  lemma CommentSizeRead(bytes: seq<Byte>, p: int)
    requires 0 <= p && p + END_RECORD <= |bytes|
    ensures FromLittleEndian(bytes[p + 20..p + 22]) == CommentSize(bytes, p)
  {
    var field := bytes[p + 20..p + 22];
    assert field[1..] == [bytes[p + 21]];
    var high: int := bytes[p + 21];
    assert FromLittleEndian(field[1..]) == high by { assert field[1..][1..] == []; }
  }

  /** The record at `p` is whole and its comment ends with the file. */
  predicate ClosesAt(bytes: seq<Byte>, p: int) {
    && MarkerAt(bytes, p) && p + END_RECORD <= |bytes|
    && p + END_RECORD + CommentSize(bytes, p) == |bytes|
  }

  /** Some record anywhere in the file ends exactly where the file does. */
  ghost predicate EndsExactly(bytes: seq<Byte>) {
    exists p :: ClosesAt(bytes, p)
  }

  /** `bytes.find(marker, start)`: the first place at or after `start`, or -1. */
  method Find(bytes: seq<Byte>, start: nat) returns (p: int)
    ensures p == -1 || (start <= p && MarkerAt(bytes, p))
    ensures forall q :: start <= q && MarkerAt(bytes, q) ==> 0 <= p <= q
  {
    p := start;
    while p + |MARKER| <= |bytes|
      invariant start <= p
      invariant forall q :: start <= q < p ==> !MarkerAt(bytes, q)
    {
      if bytes[p..p + |MARKER|] == MARKER { return; }
      p := p + 1;
    }
    return -1;
  }

  function Window(file: seq<Byte>): seq<Byte> {
    file[|file| - Min(|file|, MAX_ZIP_COMMENT_BYTES + END_RECORD)..]
  }

  /** Nothing outside the window can close the file: a comment is at most 65 535 bytes long. */
  lemma WindowSuffices(file: seq<Byte>)
    ensures EndsExactly(file) <==> EndsExactly(Window(file))
  {
    var tail := Window(file);
    var skipped := |file| - |tail|;
    forall p ensures ClosesAt(file, p) ==> p >= skipped {}
    forall p ensures ClosesAt(tail, p) <==> ClosesAt(file, p + skipped) && p >= 0 { ShiftedClose(file, skipped, p); }
    if EndsExactly(file) {
      var p :| ClosesAt(file, p);
      assert ClosesAt(tail, p - skipped);
    }
  }

  lemma ShiftedClose(file: seq<Byte>, skipped: nat, p: int)
    requires skipped <= |file|
    ensures ClosesAt(file[skipped..], p) <==> p >= 0 && ClosesAt(file, p + skipped)
  {
    var tail := file[skipped..];
    if 0 <= p && p + |MARKER| <= |tail| {
      assert tail[p..p + |MARKER|] == file[p + skipped..p + skipped + |MARKER|];
    }
  }

  /** Whether the record at a marker and its comment end with the bytes. */
  method Closes(tail: seq<Byte>, position: nat) returns (closes: bool)
    requires MarkerAt(tail, position)
    ensures closes <==> ClosesAt(tail, position)
  {
    if position + END_RECORD > |tail| { return false; }
    CommentSizeRead(tail, position);
    var commentSize := FromLittleEndian(tail[position + 20..position + 22]);
    return position + END_RECORD + commentSize == |tail|;
  }

  /** `has_exact_zip_end`: true exactly when the file ends with a whole record and its comment. */
  method HasExactZipEnd(file: seq<Byte>, readable: bool) returns (exact: bool)
    ensures exact <==> readable && EndsExactly(file)
  {
    if !readable { return false; }
    WindowSuffices(file);
    var windowSize := Min(|file|, MAX_ZIP_COMMENT_BYTES + END_RECORD);
    var tail := file[|file| - windowSize..];
    var position := Find(tail, 0);
    while position >= 0
      invariant position >= 0 ==> MarkerAt(tail, position)
      invariant forall q :: ClosesAt(tail, q) ==> 0 <= position <= q
      decreases if position >= 0 then |tail| - position else -1
    {
      var closes := Closes(tail, position);
      if closes { return true; }
      position := Find(tail, position + 1);
    }
    return false;
  }

  datatype Exit = Returns | CannotBeRead | NotExact

  /** `require_exact_zip_end` reaches the same verdict and says which way it failed. */
  method RequireExactZipEnd(file: seq<Byte>, readable: bool) returns (exit: Exit)
    ensures exit == if !readable then CannotBeRead else if EndsExactly(file) then Returns else NotExact
  {
    if !readable { return CannotBeRead; }
    WindowSuffices(file);
    var windowSize := Min(|file|, MAX_ZIP_COMMENT_BYTES + END_RECORD);
    var tail := file[|file| - windowSize..];
    var position := Find(tail, 0);
    while position >= 0
      invariant position >= 0 ==> MarkerAt(tail, position)
      invariant forall q :: ClosesAt(tail, q) ==> 0 <= position <= q
      decreases if position >= 0 then |tail| - position else -1
    {
      var closes := Closes(tail, position);
      if closes { return Returns; }
      position := Find(tail, position + 1);
    }
    return NotExact;
  }
}
