/**
 * A channel handler: the 512-byte transfer buffer between the bus and a
 * stream (`iecChannelHandler`), filled and drained by either a file
 * handler (`iecChannelHandlerFile`) or a directory handler that
 * synthesises the listing (`iecChannelHandlerDir`).
 */
module Channels {
  import opened Bytes
  import opened Status
  import opened Storage
  import opened Listing

  const BUFFER_SIZE := 512

  /** The load address a directory opened as a file is patched to (the BASIC start, $0801). */
  const BASIC_START := 0x0801

  /** The two handlers: a file in one direction, or the listing of a directory. */
  datatype Kind = FileHandler(mode: Mode) | DirHandler(src: DirSource)

  // ----- file handler: what one refill reads ---------------------------------------------------

  /** The raw bytes with the first two replaced by the little-endian load address, when it applies. */
  function Patched(raw: seq<byte>, applies: bool, address: int): (r: seq<byte>)
    requires applies ==> |raw| >= 2 && address >= 0
    ensures |r| == |raw|
  {
    if applies then [address % 256, (address / 256) % 256] + raw[2..] else raw
  }

  /** A refill of a file handler: the bytes, and the stream and load-address setting afterwards. */
  datatype FileRefill = FileRefill(bytes: seq<byte>, stream: Stream, fixLoadAddress: int)

  /**
   * The number of bytes a refill reads: a full buffer or the rest of the
   * stream, or nothing from a stream whose read calls deliver nothing.
   */
  function FillCount(s: Stream): nat
  {
    if s.chunk == 0 then 0 else Min(BUFFER_SIZE, Remaining(s))
  }

  /**
   * A file handler's refill: it reads until the buffer is full, the stream
   * ends, or a read call delivers nothing; while a load-address fix is
   * pending and the stream is at its start, the first read call's bytes
   * get the fix, provided that call delivered at least two, and the fix is
   * dropped either way.
   */
  function FileFill(s: Stream, fix: int): FileRefill
  {
    var k := FillCount(s);
    var pending := fix >= 0 && s.pos == 0;
    var applies := pending && ReadCount(s, BUFFER_SIZE) >= 2;
    FileRefill(Patched(Segment(s, k), applies, fix), Advance(s, k), if pending then -1 else fix)
  }

  /** The bytes of `count` refills in a row. */
  function FileFills(s: Stream, fix: int, count: nat): seq<byte>
    decreases count
  {
    if count == 0 then []
    else
      var f := FileFill(s, fix);
      f.bytes + FileFills(f.stream, f.fixLoadAddress, count - 1)
  }

  /**
   * The whole rest of a stream as the bus receives it: with the load
   * address patched in when the fix applies; nothing from a stream whose
   * read calls deliver nothing.
   */
  function Delivered(s: Stream, fix: int): seq<byte>
  {
    var applies := fix >= 0 && s.pos == 0 && ReadCount(s, BUFFER_SIZE) >= 2;
    if s.chunk == 0 then [] else Patched(Segment(s, Remaining(s)), applies, fix)
  }

  /**
   * A refill reads a full buffer, or the rest of the stream when less is
   * left: it is short only at the end of the stream or when a read call
   * delivered nothing.
   */
  lemma FileFillSize(s: Stream, fix: int)
    ensures var f := FileFill(s, fix);
            |f.bytes| == (if s.chunk == 0 then 0 else Min(BUFFER_SIZE, Remaining(s))) &&
            (|f.bytes| < BUFFER_SIZE ==> Eos(f.stream) || s.chunk == 0) &&
            f.stream.content == s.content
  {
  }

  /** Without a pending fix a refill passes the stream's bytes on unchanged. */
  lemma FileFillUnpatched(s: Stream, fix: int)
    requires fix < 0 || s.pos > 0
    ensures FileFill(s, fix).bytes == Segment(s, FillCount(s))
    ensures FileFill(s, fix).fixLoadAddress == fix
  {
  }

  /**
   * The fix depends on the first read call: a stream whose reads deliver a
   * single byte at a time never has its load address patched, however
   * long the file.
   */
  lemma FileFillByteStream(s: Stream, fix: int)
    requires s.chunk == 1
    ensures FileFill(s, fix).bytes == Segment(s, FillCount(s))
  {
  }

  /** With the fix applied, the first two bytes carry the load address, low byte first. */
  lemma FileFillPatched(s: Stream, fix: int)
    requires fix >= 0 && s.pos == 0 && ReadCount(s, BUFFER_SIZE) >= 2
    ensures var b := FileFill(s, fix).bytes;
            |b| >= 2 && b[0] as int + 256 * b[1] as int == fix % 0x10000 &&
            b[2..] == Segment(s, Min(BUFFER_SIZE, Remaining(s)))[2..]
    ensures FileFill(s, fix).fixLoadAddress == -1
  {
    var raw := Segment(s, Min(BUFFER_SIZE, Remaining(s)));
    var b := FileFill(s, fix).bytes;
    assert b == [fix % 256, (fix / 256) % 256] + raw[2..];
    LowTwoBytes(fix);
  }

  /** The two low bytes of a number, low byte first, make up its value modulo 65536. */
  lemma LowTwoBytes(x: nat)
    ensures x % 256 + 256 * ((x / 256) % 256) == x % 0x10000
  {
    var a, q := x % 256, x / 256;
    var b, c := q % 256, q / 256;
    assert x == 256 * q + a;
    assert q == 256 * c + b;
    var low := 256 * b + a;
    assert 0 <= low < 0x10000;
    assert x == 0x10000 * c + low;
    ModOfSplit(x, c, low);
  }

  /** The remainder of `m * 65536 + low` is `low` when `low` is below 65536. */
  lemma ModOfSplit(x: nat, m: nat, low: nat)
    requires low < 0x10000 && x == 0x10000 * m + low
    ensures x % 0x10000 == low
  {
  }

  /** The BASIC start goes in as the bytes 0x01, 0x08. */
  lemma BasicStartBytes(raw: seq<byte>)
    requires |raw| >= 2
    ensures Patched(raw, true, BASIC_START)[..2] == [0x01, 0x08]
  {
  }

  lemma PatchedAppend(a: seq<byte>, b: seq<byte>, applies: bool, address: int)
    requires applies ==> |a| >= 2 && address >= 0
    ensures Patched(a + b, applies, address) == Patched(a, applies, address) + b
  {
    if applies {
      assert (a + b)[2..] == a[2..] + b;
    }
  }

  /** What one more read call appends keeps the buffer the patched prefix of the stream. */
  lemma PatchedGrows(s: Stream, have: nat, k: nat, applies: bool, address: int)
    requires have + k <= Remaining(s)
    requires applies ==> have >= 2 && address >= 0
    ensures Patched(Segment(s, have), applies, address) + Segment(Advance(s, have), k)
            == Patched(Segment(s, have + k), applies, address)
  {
    SegmentsJoin(s, have, k);
    PatchedAppend(Segment(s, have), Segment(Advance(s, have), k), applies, address);
  }

  /**
   * Refill after refill, a file handler delivers the whole rest of its
   * stream, in order, with the load address patched in at most once.
   */
  lemma {:induction false} FileFillsDeliver(s: Stream, fix: int, count: nat)
    requires count * BUFFER_SIZE >= Remaining(s)
    ensures FileFills(s, fix, count) == Delivered(s, fix)
    decreases count
  {
    if s.chunk == 0 {
      StalledFills(s, fix, count);
    } else if count == 0 {
      assert Remaining(s) == 0;
    } else {
      var f := FileFill(s, fix);
      var k := Min(BUFFER_SIZE, Remaining(s));
      var pending := fix >= 0 && s.pos == 0;
      var applies := pending && ReadCount(s, BUFFER_SIZE) >= 2;
      FileFillsDeliver(f.stream, f.fixLoadAddress, count - 1);
      assert Delivered(f.stream, f.fixLoadAddress) == Segment(f.stream, Remaining(f.stream)) by {
        if f.stream.pos == 0 {
          assert k == 0 && Remaining(s) == 0;
        }
      }
      SegmentsJoin(s, k, Remaining(s) - k);
      PatchedAppend(Segment(s, k), Segment(f.stream, Remaining(f.stream)), applies, fix);
    }
  }

  /** From a stream whose read calls deliver nothing, refills deliver nothing. */
  lemma {:induction false} StalledFills(s: Stream, fix: int, count: nat)
    requires s.chunk == 0
    ensures FileFills(s, fix, count) == []
    decreases count
  {
    if count > 0 {
      var f := FileFill(s, fix);
      assert f.bytes == [] && f.stream == s;
      StalledFills(f.stream, f.fixLoadAddress, count - 1);
    }
  }

  /**
   * The refill loop as the source writes it: passes of its body (one read
   * call of up to the free room, appended) from `have` buffered bytes,
   * `rounds` of them unless its condition fails first; the stream and the
   * number of buffered bytes afterwards.
   */
  function SourceFillLoop(s: Stream, have: nat, rounds: nat): (Stream, nat)
    decreases rounds
  {
    if rounds == 0 || have >= BUFFER_SIZE || Eos(s) then (s, have)
    else
      var k := ReadCount(s, BUFFER_SIZE - have);
      SourceFillLoop(Advance(s, k), have + k, rounds - 1)
  }

  /**
   * A read call that delivers nothing before the end of the stream leaves
   * the source's loop where it was: after any number of passes nothing has
   * been read and its condition still holds, so it never ends.
   */
  lemma {:induction false} StalledFillSpins(s: Stream, have: nat, rounds: nat)
    requires s.chunk == 0 && have < BUFFER_SIZE && !Eos(s)
    ensures SourceFillLoop(s, have, rounds) == (s, have)
    ensures var (s', have') := SourceFillLoop(s, have, rounds);
            have' < BUFFER_SIZE && !Eos(s')
    decreases rounds
  {
    if rounds > 0 {
      assert Advance(s, 0) == s;
      StalledFillSpins(s, have, rounds - 1);
    }
  }

  // ----- directory handler ----------------------------------------------------------------------

  /** The bytes a step of the listing machine writes. */
  function StepBytes(src: DirSource, s: DirStep): seq<byte>
    requires s.line.Some? ==> WellFormed(s.line.value)
  {
    if s.line.Some? then Render(src, s.line.value) else []
  }

  /** A directory refill writes one whole record, or nothing once the listing is done. */
  lemma StepBytesSize(src: DirSource, s: DirStep)
    requires s.line.Some? ==> WellFormed(s.line.value)
    ensures |StepBytes(src, s)| == if s.line.Some? then RECORD_SIZE else 0
  {
  }

  /** The bytes of `count` successive directory refills from a state of the listing machine. */
  function DirFills(src: DirSource, headers: seq<Name>, headerLine: nat, cursor: nat, count: nat): seq<byte>
    requires headerLine >= 1 && cursor <= |src.entries| && LongLines(headers)
    decreases count
  {
    if count == 0 then []
    else
      var s := NextDirStep(src.entries, headers, headerLine, cursor);
      StepBytes(src, s) + DirFills(src, headers, s.headerLine, s.cursor, count - 1)
  }

  /** Every line the listing machine writes can be rendered. */
  lemma {:induction false} StepsWellFormed(entries: seq<Entry>, headers: seq<Name>, headerLine: nat, cursor: nat, count: nat)
    requires headerLine >= 1 && cursor <= |entries| && LongLines(headers)
    ensures Renderable(Steps(entries, headers, headerLine, cursor, count))
    decreases count
  {
    if count > 0 {
      var s := NextDirStep(entries, headers, headerLine, cursor);
      var head := if s.line.Some? then [s.line.value] else [];
      var rest := Steps(entries, headers, s.headerLine, s.cursor, count - 1);
      var lines := Steps(entries, headers, headerLine, cursor, count);
      assert lines == head + rest;
      StepsWellFormed(entries, headers, s.headerLine, s.cursor, count - 1);
      if s.line.Some? && s.line.value.Info? {
        assert s.line.value.text == headers[headerLine - 2];
      }
      forall i | 0 <= i < |lines|
        ensures WellFormed(lines[i])
      {
        if i < |head| {
          assert lines[i] == s.line.value;
        } else {
          assert lines[i] == rest[i - |head|];
        }
      }
    }
  }

  lemma RenderAllCons(src: DirSource, line: Line, rest: seq<Line>)
    requires WellFormed(line)
    ensures RenderAll(src, [line] + rest) == Render(src, line) + RenderAll(src, rest)
  {
    assert ([line] + rest)[1..] == rest;
  }

  /** The bytes of successive refills are the records of the lines the machine writes, one after another. */
  lemma {:induction false} DirFillsRender(src: DirSource, headers: seq<Name>, headerLine: nat, cursor: nat, count: nat)
    requires headerLine >= 1 && cursor <= |src.entries| && LongLines(headers)
    ensures DirFills(src, headers, headerLine, cursor, count) == RenderAll(src, Steps(src.entries, headers, headerLine, cursor, count))
    decreases count
  {
    if count > 0 {
      var s := NextDirStep(src.entries, headers, headerLine, cursor);
      var rest := Steps(src.entries, headers, s.headerLine, s.cursor, count - 1);
      DirFillsRender(src, headers, s.headerLine, s.cursor, count - 1);
      DirFillsUnfold(src, headers, headerLine, cursor, count, s);
      if s.line.Some? {
        RenderAllCons(src, s.line.value, rest);
        assert StepBytes(src, s) == Render(src, s.line.value);
      }
    }
  }

  /** One refill more: its record, then the bytes and lines of the rest. */
  lemma DirFillsUnfold(src: DirSource, headers: seq<Name>, headerLine: nat, cursor: nat, count: nat, s: DirStep)
    requires headerLine >= 1 && cursor <= |src.entries| && LongLines(headers) && count > 0
    requires s == NextDirStep(src.entries, headers, headerLine, cursor)
    ensures s.line.Some? ==> WellFormed(s.line.value)
    ensures DirFills(src, headers, headerLine, cursor, count)
            == StepBytes(src, s) + DirFills(src, headers, s.headerLine, s.cursor, count - 1)
    ensures s.line.Some? ==>
              Steps(src.entries, headers, headerLine, cursor, count)
              == [s.line.value] + Steps(src.entries, headers, s.headerLine, s.cursor, count - 1)
    ensures s.line.None? ==>
              Steps(src.entries, headers, headerLine, cursor, count)
              == Steps(src.entries, headers, s.headerLine, s.cursor, count - 1)
  {
    if s.line.Some? && s.line.value.Info? {
      assert s.line.value.text == headers[headerLine - 2];
    }
    if s.line.None? {
      assert [] + Steps(src.entries, headers, s.headerLine, s.cursor, count - 1)
             == Steps(src.entries, headers, s.headerLine, s.cursor, count - 1);
    }
  }

  /**
   * Refills of a new directory handler put into the buffer, one record at
   * a time, exactly the bytes of the whole listing, and nothing after it.
   */
  lemma ListingBytes(src: DirSource, headers: seq<Name>, count: nat)
    requires LongLines(headers) && |headers| + 2 < DONE
    requires count >= |ListingLines(src.entries, headers)|
    ensures var lines := ListingLines(src.entries, headers);
            Renderable(lines) &&
            DirFills(src, headers, 1, 0, count) == RenderAll(src, lines) &&
            |DirFills(src, headers, 1, 0, count)| == RECORD_SIZE * |lines|
  {
    ListingComplete(src.entries, headers, count);
    StepsWellFormed(src.entries, headers, 1, 0, count);
    DirFillsRender(src, headers, 1, 0, count);
  }

  /** A refill of either handler: the bytes and the handler's state afterwards. */
  datatype Refill = Refill(bytes: seq<byte>, stream: Stream, fixLoadAddress: int, headerLine: nat, cursor: nat)

  class Channel {
    const kind: Kind
    /** `m_data`, the transfer buffer. */
    const data: array<byte>
    /** `m_len`: the bytes the buffer holds. */
    var len: nat
    /** `m_ptr`: the read position in the buffer. */
    var ptr: nat

    /** A file handler's stream and pending load-address fix (-1: none). */
    var stream: Stream
    var fixLoadAddress: int

    /** A directory handler's extra lines, its header line and its position in the entries. */
    var headers: seq<Name>
    var headerLine: nat
    var cursor: nat

    ghost predicate Valid()
      reads this
    {
      data.Length == BUFFER_SIZE && ptr <= len <= BUFFER_SIZE &&
      headerLine >= 1 && LongLines(headers) &&
      (kind.DirHandler? ==> cursor <= |kind.src.entries|)
    }

    /** What the next refill (`readBufferData`) produces. */
    ghost function NextFill(): Refill
      reads this
      requires Valid()
    {
      match kind
      case FileHandler(_) =>
        var f := FileFill(stream, fixLoadAddress);
        Refill(f.bytes, f.stream, f.fixLoadAddress, headerLine, cursor)
      case DirHandler(src) =>
        var s := NextDirStep(src.entries, headers, headerLine, cursor);
        Refill(StepBytes(src, s), stream, fixLoadAddress, s.headerLine, s.cursor)
    }

    /** The status the next flush (`writeBufferData`) reports. */
    ghost function FlushStatus(): byte
      reads this, data
      requires Valid()
    {
      match kind
      case FileHandler(_) => if Accepted(stream, data[..len]) < len then ST_WRITE_ERROR else ST_OK
      case DirHandler(_) => ST_FILE_TYPE_MISMATCH
    }

    /** The stream after the next flush. */
    ghost function Flushed(): Stream
      reads this, data
      requires Valid()
    {
      if kind.FileHandler? then Written(stream, data[..len]) else stream
    }

    /**
     * The stream once the handler is destroyed: a file handler whose stream
     * itself reports writing flushes a non-empty buffer, then the stream is
     * closed; a directory handler has no stream to release.
     */
    ghost function Finished(): Stream
      reads this, data
      requires Valid()
    {
      if kind.FileHandler? then
        (if stream.mode == Out && len > 0 then Flushed() else stream).(isOpen := false)
      else stream
    }

    /** A file handler for `s`; `fix` is the load address to patch in, or -1. */
    constructor OfFile(mode: Mode, s: Stream, fix: int)
      ensures Valid() && fresh(data)
      ensures kind == FileHandler(mode) && stream == s && fixLoadAddress == fix
      ensures len == 0 && ptr == 0
    {
      kind := FileHandler(mode);
      data := new byte[BUFFER_SIZE];
      len, ptr := 0, 0;
      stream, fixLoadAddress := s, fix;
      headers, headerLine, cursor := [], 1, 0;
    }

    /**
     * A directory handler for `src`: it lists an info block for each of the
     * directory's URL, path, archive and image that is set, and the SD
     * line at the root (`url` is the directory's own URL).
     */
    constructor OfDir(src: DirSource, url: Path, sdRunning: bool)
      ensures Valid() && fresh(data)
      ensures kind == DirHandler(src)
      ensures headers == InitialHeaders(src.media, url, sdRunning, src.codec)
      ensures headerLine == 1 && cursor == 0 && len == 0 && ptr == 0
    {
      kind := DirHandler(src);
      data := new byte[BUFFER_SIZE];
      len, ptr := 0, 0;
      stream, fixLoadAddress := Stream([], 0, 1, 0, false, false, [], In), -1;
      headers, headerLine, cursor := [], 1, 0;
      new;
      AddInfoBlocks(src.media, src.codec);
      assert headers == InfoBlocks(src.media, src.codec);
      if |headers| > 0 {
        headers := headers + [SEPARATOR];
      }
      if sdRunning && |url| < 2 {
        headers := headers + [SD_LINE];
      }
      InitialHeadersLong(src.media, url, sdRunning, src.codec);
    }

    /** The four `addExtraInfo` calls of the directory handler's constructor, each made only when its text is set. */
    method AddInfoBlocks(m: Media, codec: Codec)
      modifies this`headers
      ensures headers == old(headers) + InfoBlocks(m, codec)
    {
      var host, path := codec.toPetscii(m.host), codec.toPetscii(m.path);
      var archive, image := codec.toPetscii(m.archive), codec.toPetscii(m.image);
      AddInfoIf(|host| > 0, Ascii("URL"), host);
      AddInfoIf(|path| > 1, Ascii("PATH"), path);
      AddInfoIf(|archive| > 1, Ascii("ARCHIVE"), archive);
      AddInfoIf(|image| > 0, Ascii("IMAGE"), image);
      ConcatFour(old(headers), InfoIf(|host| > 0, Ascii("URL"), host), InfoIf(|path| > 1, Ascii("PATH"), path),
                 InfoIf(|archive| > 1, Ascii("ARCHIVE"), archive), InfoIf(|image| > 0, Ascii("IMAGE"), image));
    }

    /** One guarded `addExtraInfo` call. */
    method AddInfoIf(shown: bool, title: Name, text: Name)
      modifies this`headers
      ensures headers == old(headers) + InfoIf(shown, title, text)
    {
      if shown {
        AddExtraInfo(title, text);
      }
    }

    /** `addExtraInfo`: the title line, then the text in 16-byte pieces. */
    method AddExtraInfo(title: Name, text: Name)
      modifies this`headers
      ensures headers == old(headers) + ExtraInfo(title, text)
    {
      headers := headers + [TitleLine(title)];
      var rest := text;
      while |rest| > 0
        invariant headers + ChunkLines(rest) == old(headers) + ExtraInfo(title, text)
        decreases |rest|
      {
        var piece := rest[..Min(16, |rest|)];
        headers := headers + [NFO + piece];
        rest := rest[|piece|..];
      }
    }

    /** `memcpy(m_data + at, bytes, |bytes|)`. */
    method CopyIn(at: nat, bytes: seq<byte>)
      requires at + |bytes| <= data.Length
      modifies data
      ensures data[..at] == old(data[..at]) && data[at..at + |bytes|] == bytes
      ensures data[..at + |bytes|] == old(data[..at]) + bytes
    {
      var i := 0;
      while i < |bytes|
        invariant 0 <= i <= |bytes|
        invariant forall j :: 0 <= j < at ==> data[j] == old(data[j])
        invariant forall j :: 0 <= j < i ==> data[at + j] == bytes[j]
      {
        data[at + i] := bytes[i];
        i := i + 1;
      }
      assert data[at..at + |bytes|] == bytes by {
        forall j | 0 <= j < |bytes|
          ensures data[at..at + |bytes|][j] == bytes[j]
        {
          assert data[at + j] == bytes[j];
        }
      }
      assert data[..at + |bytes|] == data[..at] + data[at..at + |bytes|];
    }

    /** The bytes go into the buffer after the ones it holds. */
    method Append(bytes: seq<byte>)
      requires len + |bytes| <= data.Length
      modifies this`len, data
      ensures len == old(len) + |bytes| && data[..len] == old(data[..len]) + bytes
    {
      CopyIn(len, bytes);
      len := len + |bytes|;
    }

    /** The file handler's `readBufferData`: one read call (with the load-address fix), then more until full or at the end. */
    method ReadFileData()
      requires Valid() && kind.FileHandler? && len == 0 && ptr == 0
      modifies this`len, this`stream, this`fixLoadAddress, data
      ensures Valid() && ptr == 0
      ensures var r := old(NextFill());
              data[..len] == r.bytes && stream == r.stream && fixLoadAddress == r.fixLoadAddress
    {
      ghost var s0, fix0 := stream, fixLoadAddress;
      ghost var applies := fix0 >= 0 && s0.pos == 0 && ReadCount(s0, BUFFER_SIZE) >= 2;
      if fixLoadAddress >= 0 && stream.pos == 0 {
        FirstRead();
      } else {
        len := 0;
      }
      FillUp(s0, applies, fix0);
    }

    /** The first read call of a stream at its start, with the load address patched into its first two bytes. */
    method FirstRead()
      requires Valid() && len == 0 && ptr == 0 && fixLoadAddress >= 0 && stream.pos == 0
      modifies this`len, this`stream, this`fixLoadAddress, data
      ensures Valid() && ptr == 0 && fixLoadAddress == -1
      ensures var k := ReadCount(old(stream), BUFFER_SIZE);
              len == k && stream == Advance(old(stream), k) &&
              data[..len] == Patched(Segment(old(stream), k), k >= 2, old(fixLoadAddress))
    {
      var k := ReadCount(stream, BUFFER_SIZE);
      var raw := Segment(stream, k);
      CopyIn(0, raw);
      assert data[..k] == raw;
      stream := Advance(stream, k);
      len := k;
      if len >= 2 {
        PatchLoadAddress();
      }
      fixLoadAddress := -1;
    }

    /** The load address, low byte first, over the first two buffered bytes. */
    method PatchLoadAddress()
      requires 2 <= len <= data.Length && fixLoadAddress >= 0
      modifies data
      ensures data[..len] == Patched(old(data[..len]), true, fixLoadAddress)
    {
      ghost var raw := data[..len];
      data[0] := fixLoadAddress % 256;
      data[1] := (fixLoadAddress / 256) % 256;
      assert data[2..len] == raw[2..];
      assert data[..len] == data[..2] + data[2..len];
    }

    /** The refill loop: read calls until the buffer is full or the stream is at its end. */
    method FillUp(ghost s0: Stream, ghost applies: bool, ghost address: int)
      requires Valid() && ptr == 0
      requires len <= Remaining(s0) && stream == Advance(s0, len)
      requires applies ==> len >= 2 && address >= 0
      requires data[..len] == Patched(Segment(s0, len), applies, address)
      modifies this`len, this`stream, data
      ensures Valid() && ptr == 0
      ensures s0.chunk > 0 ==> len == Min(BUFFER_SIZE, Remaining(s0))
      ensures s0.chunk == 0 ==> len == old(len)
      ensures stream == Advance(s0, len)
      ensures data[..len] == Patched(Segment(s0, len), applies, address)
    {
      var stalled := false;
      while len < BUFFER_SIZE && !Eos(stream) && !stalled
        invariant len <= BUFFER_SIZE && len <= Remaining(s0)
        invariant stream == Advance(s0, len)
        invariant data.Length == BUFFER_SIZE
        invariant data[..len] == Patched(Segment(s0, len), applies, address)
        invariant s0.chunk == 0 ==> len == old(len)
        invariant stalled ==> s0.chunk == 0
        decreases BUFFER_SIZE - len, if stalled then 0 else 1
      {
        var k := ReadMore(s0, applies, address);
        // a read call that delivered nothing ends the refill
        stalled := k == 0;
      }
    }

    /** One read call of the refill loop, appending what it delivers to the buffer. */
    method ReadMore(ghost s0: Stream, ghost applies: bool, ghost address: int) returns (k: nat)
      requires Valid() && ptr == 0 && len < BUFFER_SIZE && !Eos(stream)
      requires len <= Remaining(s0) && stream == Advance(s0, len)
      requires applies ==> len >= 2 && address >= 0
      requires data[..len] == Patched(Segment(s0, len), applies, address)
      modifies this`len, this`stream, data
      ensures Valid() && ptr == 0 && len == old(len) + k <= Remaining(s0)
      ensures k == 0 <==> s0.chunk == 0
      ensures stream == Advance(s0, len)
      ensures data[..len] == Patched(Segment(s0, len), applies, address)
    {
      k := ReadCount(stream, BUFFER_SIZE - len);
      PatchedGrows(s0, len, k, applies, address);
      Append(Segment(stream, k));
      stream := Advance(stream, k);
    }

    /** The directory handler's `readBufferData`: one record of the listing, or nothing once it is done. */
    method ReadDirData()
      requires Valid() && kind.DirHandler? && len == 0 && ptr == 0
      modifies this`len, this`headerLine, this`cursor, data
      ensures Valid() && ptr == 0
      ensures var r := old(NextFill());
              data[..len] == r.bytes && headerLine == r.headerLine && cursor == r.cursor
    {
      var src := kind.src;
      var entries := src.entries;
      if headerLine == 1 {
        Put(Render(src, MainHeader));
        headerLine := headerLine + 1;
      } else if headerLine - 2 < |headers| {
        Put(Render(src, Info(headers[headerLine - 2])));
        headerLine := headerLine + 1;
      } else if headerLine < DONE {
        // skip the entries whose name starts with a dot
        var k := cursor;
        while k < |entries| && Hidden(entries[k])
          invariant cursor <= k <= |entries|
          invariant NextVisible(entries, k) == NextVisible(entries, cursor)
          decreases |entries| - k
        {
          k := k + 1;
        }
        if k < |entries| {
          Put(Render(src, Item(entries[k])));
          cursor := k + 1;
        } else {
          Put(Render(src, Footer));
          cursor := k;
          headerLine := DONE;
        }
      }
    }

    /** A whole record into the empty buffer. */
    method Put(record: seq<byte>)
      requires Valid() && |record| == RECORD_SIZE && ptr == 0
      modifies this`len, data
      ensures Valid() && data[..len] == record
    {
      CopyIn(0, record);
      len := |record|;
    }

    /** `readBufferData` of either handler; it reports no error in either. */
    method ReadBufferData()
      requires Valid() && len == 0 && ptr == 0
      modifies this`len, this`stream, this`fixLoadAddress, this`headerLine, this`cursor, data
      ensures Valid() && ptr == 0
      ensures var r := old(NextFill());
              data[..len] == r.bytes && stream == r.stream && fixLoadAddress == r.fixLoadAddress &&
              headerLine == r.headerLine && cursor == r.cursor
    {
      if kind.FileHandler? {
        ReadFileData();
      } else {
        ReadDirData();
      }
    }

    /**
     * `read`: when the buffer is drained it is refilled first; then as many
     * of the buffered bytes as asked for (and are there) go to the bus.
     */
    method Read(n: nat) returns (out: seq<byte>)
      requires Valid() && n < 256
      modifies this`len, this`ptr, this`stream, this`fixLoadAddress, this`headerLine, this`cursor, data
      ensures Valid() && headers == old(headers)
      ensures var avail := if old(ptr < len) then old(data[ptr..len]) else old(NextFill()).bytes;
              out == avail[..Min(n, |avail|)] && data[ptr..len] == avail[|out|..]
      ensures old(ptr < len) ==>
                stream == old(stream) && fixLoadAddress == old(fixLoadAddress) &&
                headerLine == old(headerLine) && cursor == old(cursor)
      ensures old(ptr >= len) ==>
                var r := old(NextFill());
                stream == r.stream && fixLoadAddress == r.fixLoadAddress &&
                headerLine == r.headerLine && cursor == r.cursor
    {
      if ptr >= len {
        ptr := 0;
        len := 0;
        ReadBufferData();
      }
      out := Take(n);
    }

    /** The copying part of `read`: up to `n` buffered bytes, one byte taken on its own when `n` is 1. */
    method Take(n: nat) returns (out: seq<byte>)
      requires Valid()
      modifies this`ptr
      ensures Valid() && len == old(len)
      ensures out == old(data[ptr..len])[..Min(n, old(len - ptr))] && ptr == old(ptr) + |out|
      ensures data[ptr..len] == old(data[ptr..len])[|out|..]
    {
      ghost var avail := data[ptr..len];
      var k := 0;
      if ptr < len {
        if n == 1 {
          out := [data[ptr]];
          k := 1;
        } else {
          k := Min(n, len - ptr);
          out := data[ptr..ptr + k];
        }
      } else {
        out := [];
      }
      assert out == avail[..k] && k == Min(n, |avail|);
      assert data[ptr + k..len] == avail[k..];
      ptr := ptr + k;
    }

    /** `writeBufferData`: the file handler hands the buffer to its stream; the directory handler refuses. */
    method WriteBufferData() returns (st: byte)
      requires Valid()
      modifies this`stream
      ensures Valid()
      ensures st == old(FlushStatus()) && stream == old(Flushed())
    {
      if kind.FileHandler? {
        var k := Accepted(stream, data[..len]);
        stream := Written(stream, data[..len]);
        st := if k < len then ST_WRITE_ERROR else ST_OK;
      } else {
        st := ST_FILE_TYPE_MISMATCH;
      }
    }

    /**
     * `write`: bytes that do not fit any more make the buffer be flushed
     * first; a failed flush refuses the bytes and reports its status.
     */
    method Write(bytes: seq<byte>) returns (k: nat, st: byte)
      requires Valid() && |bytes| < 256
      modifies this, data
      ensures Valid() && headers == old(headers) && fixLoadAddress == old(fixLoadAddress)
      ensures headerLine == old(headerLine) && cursor == old(cursor)
      ensures old(len) + |bytes| <= BUFFER_SIZE ==>
                st == ST_OK && k == |bytes| && data[..len] == old(data[..len]) + bytes &&
                ptr == old(ptr) && stream == old(stream)
      ensures old(len) + |bytes| > BUFFER_SIZE ==> stream == old(Flushed())
      ensures old(len) + |bytes| > BUFFER_SIZE && old(FlushStatus()) != ST_OK ==>
                st == old(FlushStatus()) && k == 0 && data[..len] == old(data[..len]) && ptr == old(ptr)
      ensures old(len) + |bytes| > BUFFER_SIZE && old(FlushStatus()) == ST_OK ==>
                st == ST_OK && k == |bytes| && data[..len] == bytes && ptr == 0
    {
      if len + |bytes| > BUFFER_SIZE {
        st := WriteBufferData();
        if st != ST_OK {
          return 0, st;
        }
        ptr := 0;
        len := 0;
      }
      Append(bytes);
      k, st := |bytes|, ST_OK;
    }

    /**
     * The handler's destructor: a file whose stream reports writing flushes
     * what is buffered, then its stream is closed. The test is on the
     * stream's own mode, not the mode the channel was opened with.
     */
    method Close()
      requires Valid()
      modifies this`stream
      ensures Valid()
      ensures stream == old(Finished())
    {
      if kind.FileHandler? {
        if stream.mode == Out && len > 0 {
          var _ := WriteBufferData();
        }
        stream := stream.(isOpen := false);
      }
    }
  }
}
