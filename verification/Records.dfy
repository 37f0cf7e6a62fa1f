/** The capped line reader behind every child's stderr, against a reader that holds the whole
    stream (`RecordReader` in src-tauri/src/companion_service.rs). */
module Records {
  import opened Wrappers

  type Byte = bv8

  const NEWLINE: Byte := 10

  // ---------- the simple reading: split, then cut ----------

  function NewlineAt(bytes: seq<Byte>): (k: nat)
    ensures k <= |bytes| && NEWLINE !in bytes[..k]
    ensures k < |bytes| ==> bytes[k] == NEWLINE
  {
    if bytes == [] || bytes[0] == NEWLINE then 0
    else
      var k := NewlineAt(bytes[1..]);
      assert bytes[..k + 1] == [bytes[0]] + bytes[1..][..k];
      k + 1
  }

  /** The parts between newlines; the last one is what follows the last newline. */
  function Split(bytes: seq<Byte>): (parts: seq<seq<Byte>>)
    ensures |parts| > 0
    decreases |bytes|
  {
    var k := NewlineAt(bytes);
    if k == |bytes| then [bytes] else [bytes[..k]] + Split(bytes[k + 1..])
  }

  function Rejoined(parts: seq<seq<Byte>>): seq<Byte>
    requires parts != []
  {
    if |parts| == 1 then parts[0] else parts[0] + [NEWLINE] + Rejoined(parts[1..])
  }

  /** The parts are the stream's, and no part holds a newline: that determines them. */
  lemma {:induction false} SplitIsExact(bytes: seq<Byte>)
    ensures Rejoined(Split(bytes)) == bytes
    ensures forall part :: part in Split(bytes) ==> NEWLINE !in part
    decreases |bytes|
  {
    var k := NewlineAt(bytes);
    if k < |bytes| {
      SplitIsExact(bytes[k + 1..]);
      assert Split(bytes)[1..] == Split(bytes[k + 1..]);
      assert bytes == bytes[..k] + [NEWLINE] + bytes[k + 1..];
    }
  }

  function Cut(part: seq<Byte>, cap: nat): seq<Byte> {
    if |part| <= cap then part else part[..cap]
  }

  /** Trailing carriage returns go. */
  function Trimmed(line: string): string {
    if line != "" && line[|line| - 1] == '\r' then Trimmed(line[..|line| - 1]) else line
  }

  /** What goes is carriage returns, and none is left at the end. */
  lemma {:induction false} TrimmedExactly(line: string, kept: string)
    ensures kept == Trimmed(line) <==>
              && kept <= line && (forall k :: |kept| <= k < |line| ==> line[k] == '\r')
              && (kept == "" || kept[|kept| - 1] != '\r')
    decreases |line|
  {
    if line != "" && line[|line| - 1] == '\r' {
      var shorter := line[..|line| - 1];
      TrimmedExactly(shorter, kept);
      assert kept <= line && |kept| < |line| <==> kept <= shorter;
    }
  }

  /** The lines of the parts: each cut, decoded and trimmed. A last part without a newline
      counts if the stream ends well and something of it is kept. */
  function Lines(parts: seq<seq<Byte>>, cap: nat, ends: bool, lossy: seq<Byte> -> string): seq<string>
    requires parts != []
  {
    var line := Trimmed(lossy(Cut(parts[0], cap)));
    if |parts| > 1 then [line] + Lines(parts[1..], cap, ends, lossy)
    else if ends && Cut(parts[0], cap) != [] then [line]
    else []
  }

  function Flat(chunks: seq<seq<Byte>>): seq<Byte> {
    if chunks == [] then [] else chunks[0] + Flat(chunks[1..])
  }

  // ---------- the reader ----------

  lemma {:induction false} NewlineIs(bytes: seq<Byte>, k: nat)
    requires k <= |bytes| && NEWLINE !in bytes[..k]
    requires k < |bytes| ==> bytes[k] == NEWLINE
    ensures NewlineAt(bytes) == k
  {
    if k > 0 {
      assert bytes[0] == bytes[..k][0];
      assert bytes[1..][..k - 1] == bytes[..k][1..];
      NewlineIs(bytes[1..], k - 1);
    }
  }

  class RecordReader {
    /** What is still to come, in the buffers it arrives in; then the end, or an error. */
    var chunks: seq<seq<Byte>>
    const ends: bool
    var record: seq<Byte>
    const cap: nat
    /** Bytes up to the next newline are being dropped. */
    var skipping: bool
    const lossy: seq<Byte> -> string

    ghost predicate Valid()
      reads this
    {
      && (forall k :: 0 <= k < |chunks| ==> chunks[k] != [])
      && NEWLINE !in record
      && |record| <= cap
      && (skipping ==> |record| == cap)
    }

    /** The lines that are still to be read. */
    ghost function Rest(): seq<string>
      reads this
    {
      Lines(Split(record + Flat(chunks)), cap, ends, lossy)
    }

    constructor (source: seq<seq<Byte>>, ends: bool, cap: nat, lossy: seq<Byte> -> string)
      requires forall k :: 0 <= k < |source| ==> source[k] != []
      ensures Valid() && Rest() == Lines(Split(Flat(source)), cap, ends, lossy)
      ensures chunks == source
    {
      this.chunks, this.ends, this.cap, this.lossy := source, ends, cap, lossy;
      record, skipping := [], false;
      new;
      assert record + Flat(chunks) == Flat(source);
    }

    method Take() returns (line: string)
      modifies this`record
      ensures line == Trimmed(lossy(old(record))) && record == []
    {
      line := Trimmed(lossy(record));
      record := [];
    }

    /** The next line, or none at the end. However the stream is chunked, the lines are those
        of the simple reading, and never more than `cap` bytes are held. */
    method Next() returns (line: Option<string>)
      requires Valid()
      modifies this
      ensures Valid() && |chunks| <= |old(chunks)|
      ensures old(Rest()) == [] ==> line.None? && Rest() == []
      ensures old(Rest()) != [] ==> line == Some(old(Rest())[0]) && Rest() == old(Rest())[1..]
    {
      // Every byte of the current record, those that were cut included.
      ghost var whole := record;
      while chunks != []
        invariant Valid() && |chunks| <= |old(chunks)|
        invariant NEWLINE !in whole && record == Cut(whole, cap)
        invariant Lines(Split(whole + Flat(chunks)), cap, ends, lossy) == old(Rest())
        decreases |chunks|
      {
        var newline := FindNewline(chunks[0]);
        if newline < |chunks[0]| {
          var taken := EndRecord(newline, whole);
          return Some(taken);
        }
        whole := Continue(whole);
      }
      assert whole + Flat(chunks) == whole;
      AtEnd(whole, cap, ends, lossy);
      line := Finish();
    }

    /** The buffer ends the record. */
    method EndRecord(newline: nat, ghost whole: seq<Byte>) returns (line: string)
      requires Valid() && chunks != [] && newline == NewlineAt(chunks[0]) < |chunks[0]|
      requires NEWLINE !in whole && record == Cut(whole, cap)
      modifies this
      ensures Valid() && |chunks| <= |old(chunks)|
      ensures Lines(Split(whole + old(Flat(chunks))), cap, ends, lossy) == [line] + Rest()
    {
      var body := chunks[0][..newline];
      ghost var before := Flat(chunks);
      Regrouped(whole, chunks[0], newline, Flat(chunks[1..]));
      Absorb(body, whole);
      Consume(newline + 1);
      assert whole + before == (whole + body) + [NEWLINE] + Flat(chunks);
      AtNewline(whole + body, Flat(chunks), cap, ends, lossy);
      skipping := false;
      line := Take();
      assert record + Flat(chunks) == Flat(chunks);
    }

    /** The record goes on after the buffer. */
    method Continue(ghost whole: seq<Byte>) returns (ghost longer: seq<Byte>)
      requires Valid() && chunks != [] && NewlineAt(chunks[0]) == |chunks[0]|
      requires NEWLINE !in whole && record == Cut(whole, cap)
      modifies this
      ensures Valid() && |chunks| < |old(chunks)|
      ensures NEWLINE !in longer && record == Cut(longer, cap)
      ensures longer + Flat(chunks) == whole + old(Flat(chunks))
    {
      var body := chunks[0][..|chunks[0]|];
      assert body == chunks[0];
      longer := whole + body;
      Appended(whole, body, Flat(chunks[1..]));
      Absorb(body, whole);
      Consume(|chunks[0]|);
    }

    /** `fill_buf` failed, or gave nothing: the end. */
    method Finish() returns (line: Option<string>)
      requires Valid() && chunks == []
      modifies this`record, this`skipping
      ensures Valid() && Rest() == []
      ensures line == if ends && old(record) != [] then Some(Trimmed(lossy(old(record)))) else None
    {
      AtEnd(record, cap, ends, lossy);
      AtEnd([], cap, ends, lossy);
      assert record + Flat(chunks) == record;
      if !ends {
        return None;
      }
      skipping := false;
      if record == [] {
        return None;
      }
      var last := Take();
      assert record + Flat(chunks) == [];
      line := Some(last);
    }

    /** Keeps what fits of the record's next bytes. */
    method Absorb(body: seq<Byte>, ghost whole: seq<Byte>)
      requires Valid() && NEWLINE !in body && NEWLINE !in whole && record == Cut(whole, cap)
      modifies this`record, this`skipping
      ensures Valid() && record == Cut(whole + body, cap) && NEWLINE !in whole + body
    {
      if !skipping {
        var kept := if |body| <= cap - |record| then |body| else cap - |record|;
        record := record + body[..kept];
        skipping := kept < |body|;
      }
    }

    /** `fill_buf` gave the first buffer; so many of its bytes are used up. */
    method Consume(used: nat)
      requires Valid() && chunks != [] && used <= |chunks[0]|
      modifies this`chunks
      ensures Valid() && |chunks| <= |old(chunks)| && (used == |old(chunks)[0]| ==> |chunks| < |old(chunks)|)
      ensures Flat(chunks) == old(chunks)[0][used..] + Flat(old(chunks)[1..])
    {
      if used == |chunks[0]| {
        assert chunks[0][used..] + Flat(chunks[1..]) == Flat(chunks[1..]);
        chunks := chunks[1..];
      } else {
        var rest := [chunks[0][used..]] + chunks[1..];
        assert rest[1..] == chunks[1..];
        chunks := rest;
      }
    }
  }

  lemma Appended(whole: seq<Byte>, chunk: seq<Byte>, tail: seq<Byte>)
    ensures whole + (chunk + tail) == (whole + chunk) + tail
    ensures chunk[|chunk|..] + tail == tail
  {
  }

  lemma Regrouped(whole: seq<Byte>, chunk: seq<Byte>, k: nat, tail: seq<Byte>)
    requires k < |chunk| && chunk[k] == NEWLINE
    ensures whole + (chunk + tail) == (whole + chunk[..k]) + [NEWLINE] + (chunk[k + 1..] + tail)
  {
  }

  method FindNewline(chunk: seq<Byte>) returns (at: nat)
    ensures at == NewlineAt(chunk)
  {
    at := 0;
    while at < |chunk| && chunk[at] != NEWLINE
      invariant at <= |chunk| && NEWLINE !in chunk[..at]
    {
      at := at + 1;
    }
    NewlineIs(chunk, at);
  }

  lemma AtEnd(whole: seq<Byte>, cap: nat, ends: bool, lossy: seq<Byte> -> string)
    requires NEWLINE !in whole
    ensures Lines(Split(whole), cap, ends, lossy)
            == if ends && Cut(whole, cap) != [] then [Trimmed(lossy(Cut(whole, cap)))] else []
  {
    assert whole[..|whole|] == whole;
    NewlineIs(whole, |whole|);
  }

  lemma AtNewline(whole: seq<Byte>, rest: seq<Byte>, cap: nat, ends: bool, lossy: seq<Byte> -> string)
    requires NEWLINE !in whole
    ensures Lines(Split(whole + [NEWLINE] + rest), cap, ends, lossy)
            == [Trimmed(lossy(Cut(whole, cap)))] + Lines(Split(rest), cap, ends, lossy)
  {
    var bytes := whole + [NEWLINE] + rest;
    assert bytes[..|whole|] == whole && bytes[|whole| + 1..] == rest;
    NewlineIs(bytes, |whole|);
    assert Split(bytes)[1..] == Split(rest);
  }

  /** Reading to the end gives exactly the lines of the simple reading. */
  method ReadAll(source: seq<seq<Byte>>, ends: bool, cap: nat, lossy: seq<Byte> -> string) returns (lines: seq<string>)
    requires forall k :: 0 <= k < |source| ==> source[k] != []
    ensures lines == Lines(Split(Flat(source)), cap, ends, lossy)
  {
    hide Lines, Split, Flat;
    var reader := new RecordReader(source, ends, cap, lossy);
    lines := [];
    var line := reader.Next();
    while line.Some?
      invariant reader.Valid() && fresh(reader)
      invariant line.Some? ==> lines + [line.value] + reader.Rest() == Lines(Split(Flat(source)), cap, ends, lossy)
      invariant line.None? ==> lines == Lines(Split(Flat(source)), cap, ends, lossy)
      decreases line.Some?, |reader.Rest()|
    {
      ghost var left := reader.Rest();
      ghost var before := lines + [line.value];
      lines := lines + [line.value];
      line := reader.Next();
      if left != [] {
        assert left == [left[0]] + left[1..];
        assert before + left == (before + [line.value]) + reader.Rest();
      }
    }
  }
}
