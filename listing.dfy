/**
 * The directory listing a directory channel synthesises: a BASIC program
 * whose lines are 32-byte records (main header, "NFO" info lines, one
 * line per entry, the free-space footer), and the state machine over the
 * header-line cursor that produces one record per refill.
 */
module Listing {
  import opened Bytes
  import opened Storage

  const RECORD_SIZE := 32
  /** The header-line value after the footer: the listing is done. */
  const DONE := 0xFF

  const DOT: byte := 0x2E
  const SLASH: byte := 0x2F
  const BACKSLASH: byte := 0x5C
  /** PETSCII DEL, the `CBM_DELETE` control byte in front of the free-bytes figure. */
  const CBM_DELETE: byte := 0x14

  /** The prefix every extra-info line carries. */
  const NFO := Ascii("NFO ")

  // ----- main header --------------------------------------------------------------------------

  /** The listing title: the media header converted to PETSCII, or the product identification. */
  function Title(m: Media, productId: Name, codec: Codec): Name
  {
    if |m.header| > 0 then codec.toPetscii(m.header) else productId
  }

  /** `"\" %02i 2A"` as written at offset 24, of which the record keeps 8 bytes. */
  function HeaderTail(id: nat): (r: Name)
    ensures |r| == 8
  {
    ([QUOTE, SPACE] + Decimal2(id) + Ascii(" 2A") + [NUL])[..8]
  }

  /** The main header record: load address 0x0801, link, line number 0, the quoted title and the disk id. */
  function HeaderRecord(title: Name, id: nat): Name
  {
    [0x01, 0x08, 1, 1, 0, 0, 18, QUOTE] + Fit(title, 16) + HeaderTail(id)
  }

  lemma HeaderRecordLayout(title: Name, id: nat)
    ensures var r := HeaderRecord(title, id);
            |r| == RECORD_SIZE &&
            r[0] == 0x01 && r[1] == 0x08 && r[2..7] == [1, 1, 0, 0, 18] && r[7] == QUOTE &&
            r[8..24] == Fit(title, 16) &&
            r[24] == QUOTE && r[25] == SPACE &&
            (id < 100 ==> r[26..28] == Decimal2(id) && r[28..] == Ascii(" 2A") + [NUL])
  {
    var r := HeaderRecord(title, id);
    var head: Name := [0x01, 0x08, 1, 1, 0, 0, 18, QUOTE];
    var body := Fit(title, 16);
    assert r == head + body + HeaderTail(id);
    assert r[..8] == head;
    assert r[8..24] == body;
    assert r[24..] == HeaderTail(id);
    if id < 100 {
      var d := Decimal2(id);
      assert |d| == 2 by {
        if id >= 10 {
          assert Decimal(id) == Decimal(id / 10) + [ZERO + id % 10];
        }
      }
      var tail := [QUOTE, SPACE] + d + Ascii(" 2A") + [NUL];
      assert |tail| == 8 && HeaderTail(id) == tail;
      assert r[24..] == tail;
    }
  }

  // ----- extra info lines ------------------------------------------------------------------

  /** The `NFO <chunk>` lines `addExtraInfo` appends for `text`: one per 16-byte piece. */
  function ChunkLines(text: Name): seq<Name>
    decreases |text|
  {
    if text == [] then []
    else
      var k := Min(16, |text|);
      [NFO + text[..k]] + ChunkLines(text[k..])
  }

  /** The `NFO [title]` line that opens an info block. */
  function TitleLine(title: Name): Name
  {
    NFO + [0x5B] + title + [0x5D]
  }

  /** All lines of `addExtraInfo(title, text)`. */
  function ExtraInfo(title: Name, text: Name): seq<Name>
  {
    [TitleLine(title)] + ChunkLines(text)
  }

  /** The text of a sequence of info lines: each line with its `NFO ` prefix removed, concatenated. */
  function InfoText(lines: seq<Name>): Name
  {
    if lines == [] then [] else Drop(lines[0], 4) + InfoText(lines[1..])
  }

  /**
   * The chunk lines carry the text back: every line is `NFO ` and a piece of
   * 1 to 16 bytes, and the pieces concatenate to the text.
   */
  lemma {:induction false} ChunkLinesCarryText(text: Name)
    ensures InfoText(ChunkLines(text)) == text
    ensures |ChunkLines(text)| == (|text| + 15) / 16
    ensures forall i :: 0 <= i < |ChunkLines(text)| ==>
              5 <= |ChunkLines(text)[i]| <= 20 && ChunkLines(text)[i][..4] == NFO
    decreases |text|
  {
    if text != [] {
      var k := Min(16, |text|);
      var line := NFO + text[..k];
      var rest := ChunkLines(text[k..]);
      ChunkLinesCarryText(text[k..]);
      var all := ChunkLines(text);
      assert all == [line] + rest;
      assert all[1..] == rest;
      assert Drop(line, 4) == text[..k];
      assert InfoText(all) == text[..k] + InfoText(rest);
      assert text == text[..k] + text[k..];
      assert |all| == 1 + (|text| - k + 15) / 16;
      forall i | 0 <= i < |all|
        ensures 5 <= |all[i]| <= 20 && all[i][..4] == NFO
      {
        if i > 0 {
          assert all[i] == rest[i - 1];
        }
      }
    }
  }

  /** Every line of an info block is at least four bytes long (it has a 3-byte type and a blank). */
  lemma InfoIfLong(shown: bool, title: Name, text: Name)
    ensures LongLines(InfoIf(shown, title, text))
  {
    ChunkLinesCarryText(text);
  }

  lemma LongLinesConcat(a: seq<Name>, b: seq<Name>)
    requires LongLines(a) && LongLines(b)
    ensures LongLines(a + b)
  {
    forall i | 0 <= i < |a + b|
      ensures |(a + b)[i]| >= 4
    {
      if i >= |a| {
        assert (a + b)[i] == b[i - |a|];
      }
    }
  }

  const SEPARATOR := NFO + Repeat(0x2D, 16)
  const SD_LINE := Ascii("DIR SD")

  /** The info blocks of URL, path, archive and image, each present only when its text is set. */
  function InfoBlocks(m: Media, codec: Codec): seq<Name>
  {
    var host, path := codec.toPetscii(m.host), codec.toPetscii(m.path);
    var archive, image := codec.toPetscii(m.archive), codec.toPetscii(m.image);
    InfoIf(|host| > 0, Ascii("URL"), host) + InfoIf(|path| > 1, Ascii("PATH"), path)
    + InfoIf(|archive| > 1, Ascii("ARCHIVE"), archive) + InfoIf(|image| > 0, Ascii("IMAGE"), image)
  }

  /** An info block that is listed only when `shown` holds. */
  function InfoIf(shown: bool, title: Name, text: Name): seq<Name>
  {
    if shown then ExtraInfo(title, text) else []
  }

  lemma ConcatFour<T>(h: seq<T>, a: seq<T>, b: seq<T>, c: seq<T>, d: seq<T>)
    ensures h + a + b + c + d == h + (a + b + c + d)
  {
  }

  /**
   * The extra lines a directory channel lists after the main header: an
   * info block for each of URL, path, archive and image that is set, a
   * separator after them, and an `SD` directory line at the root when an
   * SD card is mounted.
   */
  function InitialHeaders(m: Media, url: Path, sdRunning: bool, codec: Codec): seq<Name>
  {
    var h := InfoBlocks(m, codec);
    var withSeparator := if |h| > 0 then h + [SEPARATOR] else h;
    if sdRunning && |url| < 2 then withSeparator + [SD_LINE] else withSeparator
  }

  predicate LongLines(headers: seq<Name>)
  {
    forall i :: 0 <= i < |headers| ==> |headers[i]| >= 4
  }

  lemma InitialHeadersLong(m: Media, url: Path, sdRunning: bool, codec: Codec)
    ensures LongLines(InitialHeaders(m, url, sdRunning, codec))
  {
    var host, path := codec.toPetscii(m.host), codec.toPetscii(m.path);
    var archive, image := codec.toPetscii(m.archive), codec.toPetscii(m.image);
    var a, b := InfoIf(|host| > 0, Ascii("URL"), host), InfoIf(|path| > 1, Ascii("PATH"), path);
    var c, d := InfoIf(|archive| > 1, Ascii("ARCHIVE"), archive), InfoIf(|image| > 0, Ascii("IMAGE"), image);
    InfoIfLong(|host| > 0, Ascii("URL"), host);
    InfoIfLong(|path| > 1, Ascii("PATH"), path);
    InfoIfLong(|archive| > 1, Ascii("ARCHIVE"), archive);
    InfoIfLong(|image| > 0, Ascii("IMAGE"), image);
    LongLinesConcat(a, b);
    LongLinesConcat(a + b, c);
    LongLinesConcat(a + b + c, d);
    var h := InfoBlocks(m, codec);
    assert h == a + b + c + d;
    var w := if |h| > 0 then h + [SEPARATOR] else h;
    LongLinesConcat(h, [SEPARATOR]);
    LongLinesConcat(w, [SD_LINE]);
  }

  /** An info record: a line of text in quotes with the first three bytes of the line as its type. */
  function InfoRecord(line: Name): Name
    requires |line| >= 4
  {
    [1, 1, 0, 0] + Fit(Ascii("   \"") + line[4..Min(|line|, 20)] + [QUOTE], 21)
    + [SPACE] + line[..3] + [SPACE, SPACE, NUL]
  }

  /**
   * The record of an info line shows, after three blanks, up to 16 bytes of
   * its text from byte 4 on between quotes, blank-padded to byte 25, and
   * then the line's first three bytes as its type.
   */
  lemma InfoRecordLayout(line: Name, k: nat)
    requires |line| >= 4 && k == Min(|line|, 20) - 4
    ensures var r := InfoRecord(line);
            |r| == RECORD_SIZE &&
            r[..4] == [1, 1, 0, 0] && r[4..7] == Spaces(3) && r[7] == QUOTE &&
            r[8..8 + k] == line[4..4 + k] && r[8 + k] == QUOTE &&
            r[9 + k..26] == Spaces(17 - k) &&
            r[26..29] == line[..3] && r[29..] == [SPACE, SPACE, NUL]
  {
    var text := line[4..4 + k];
    var quoted := Ascii("   \"") + text + [QUOTE];
    var fitted := Fit(quoted, 21);
    var r := InfoRecord(line);
    assert |quoted| == k + 5 <= 21;
    assert r == [1, 1, 0, 0] + fitted + [SPACE] + line[..3] + [SPACE, SPACE, NUL];
    assert r[4..25] == fitted;
    assert fitted[..3] == Spaces(3);
    assert fitted[4..4 + k] == text;
    assert fitted[k + 5..] == Spaces(16 - k);
    assert r[9 + k..26] == fitted[k + 5..] + [SPACE];
  }

  // ----- entries -------------------------------------------------------------------------------

  /** Entries whose name starts with a dot are not listed. */
  predicate Hidden(e: Entry)
  {
    |e.name| > 0 && e.name[0] == DOT
  }

  /** The block count as the 16-bit value the record holds. */
  function BlockCount(e: Entry): nat
  {
    e.blocks % 0x1_0000
  }

  /** Blanks before the quoted name, so that counts up to 999 line up. */
  function LeadSpaces(size: nat): nat
  {
    (if size < 10 then 1 else 0) + (if size < 100 then 1 else 0) + (if size < 1000 then 1 else 0)
  }

  /** The type code before conversion: `dir`, the trimmed extension fitted to 3 bytes, or `prg`. */
  function TypeName(e: Entry): (t: Name)
    ensures |t| == 3
  {
    var ext := LTrim(e.extension);
    if e.isDir then Ascii("dir") else if |ext| > 0 then Fit(ext, 3) else Ascii("prg")
  }

  /** The 3 type bytes the record copies (converted to PETSCII unless the entry already is). */
  function TypeCode(e: Entry, codec: Codec): (t: Name)
    ensures |t| == 3
  {
    var ext := if e.isPetscii then TypeName(e) else codec.toPetscii(TypeName(e));
    [At(ext, 0), At(ext, 1), At(ext, 2)]
  }

  /** The name as listed: converted to PETSCII unless it already is, backslashes shown as slashes. */
  function ShownName(e: Entry, codec: Codec): Name
  {
    Replace(if e.isPetscii then e.name else codec.toPetscii(e.name), BACKSLASH, SLASH)
  }

  /** A 16-bit value as its low and high byte. */
  function LittleEndian(v: nat): (r: Name)
    requires v < 0x1_0000
    ensures |r| == 2 && r[0] as int + 256 * r[1] as int == v
  {
    [v % 256, v / 256]
  }

  /** Link bytes, block count and the blanks that align the name column. */
  function EntryLead(size: nat): (r: Name)
    requires size < 0x1_0000
    ensures |r| == 4 + LeadSpaces(size)
  {
    [1, 1] + LittleEndian(size) + Spaces(LeadSpaces(size))
  }

  /** The quoted name (at most 16 bytes of it) padded to a 19-byte field. */
  function NameField(name: Name): (r: Name)
    ensures |r| == 19
    ensures var n := Min(16, |name|);
            r[0] == QUOTE && r[1..1 + n] == name[..n] && r[1 + n] == QUOTE &&
            r[2 + n..] == Spaces(17 - n)
  {
    var n := Min(16, |name|);
    [QUOTE] + name[..n] + [QUOTE] + Spaces(17 - n)
  }

  /** The text of an entry line before it is padded to 31 bytes. */
  function EntryBody(e: Entry, codec: Codec): (r: Name)
    ensures |r| == 26 + LeadSpaces(BlockCount(e))
  {
    EntryLead(BlockCount(e)) + NameField(ShownName(e, codec)) + TypeCode(e, codec)
  }

  /** An entry record: link, block count, the quoted name, the type code, blank padding, NUL. */
  function EntryRecord(e: Entry, codec: Codec): Name
  {
    Fit(EntryBody(e, codec), 31) + [NUL]
  }

  /**
   * Where an entry record keeps what: the little-endian block count in
   * bytes 2-3, the name (at most 16 bytes) in quotes after the lead blanks,
   * the type code three bytes after the 17-byte name field, NUL last.
   */
  lemma EntryRecordLayout(e: Entry, codec: Codec)
    ensures var r := EntryRecord(e, codec);
            var s := LeadSpaces(BlockCount(e));
            var name := ShownName(e, codec);
            var n := Min(16, |name|);
            |r| == RECORD_SIZE &&
            r[0] == 1 && r[1] == 1 &&
            r[2] as int + 256 * r[3] as int == e.blocks % 0x1_0000 &&
            r[4..4 + s] == Spaces(s) &&
            r[4 + s] == QUOTE && r[5 + s..5 + s + n] == name[..n] && r[5 + s + n] == QUOTE &&
            r[23 + s..26 + s] == TypeCode(e, codec) &&
            r[26 + s..31] == Spaces(5 - s) && r[31] == NUL
  {
    EntryRecordPadding(e, codec);
    EntryRecordLead(e, codec);
    EntryRecordName(e, codec);
    EntryRecordType(e, codec);
  }

  lemma EntryRecordPadding(e: Entry, codec: Codec)
    ensures var r := EntryRecord(e, codec);
            var s := LeadSpaces(BlockCount(e));
            |r| == RECORD_SIZE && r[..26 + s] == EntryBody(e, codec) &&
            r[26 + s..31] == Spaces(5 - s) && r[31] == NUL
  {
    PaddedRecord(EntryBody(e, codec), 31);
  }

  lemma EntryRecordLead(e: Entry, codec: Codec)
    ensures var r := EntryRecord(e, codec);
            var s := LeadSpaces(BlockCount(e));
            |r| == RECORD_SIZE &&
            r[..4 + s] == EntryLead(BlockCount(e)) &&
            r[0] == 1 && r[1] == 1 && r[2] as int + 256 * r[3] as int == BlockCount(e) &&
            r[4..4 + s] == Spaces(s)
  {
    var s := LeadSpaces(BlockCount(e));
    var r := EntryRecord(e, codec);
    EntryRecordPadding(e, codec);
    EntryBodyLayout(e, codec);
    SliceOfPrefix(r, EntryBody(e, codec), 0, 4 + s);
    assert r[4..4 + s] == r[..4 + s][4..];
  }

  lemma EntryRecordName(e: Entry, codec: Codec)
    ensures var r := EntryRecord(e, codec);
            var s := LeadSpaces(BlockCount(e));
            var name := ShownName(e, codec);
            var n := Min(16, |name|);
            |r| == RECORD_SIZE &&
            r[4 + s] == QUOTE && r[5 + s..5 + s + n] == name[..n] && r[5 + s + n] == QUOTE
  {
    var s := LeadSpaces(BlockCount(e));
    var r := EntryRecord(e, codec);
    var name := ShownName(e, codec);
    var n := Min(16, |name|);
    EntryRecordPadding(e, codec);
    EntryBodyLayout(e, codec);
    SliceOfPrefix(r, EntryBody(e, codec), 4 + s, 23 + s);
    NameFieldAt(r, 4 + s, name);
  }

  lemma NameFieldAt(r: Name, at: nat, name: Name)
    requires at + 19 <= |r| && r[at..at + 19] == NameField(name)
    ensures var n := Min(16, |name|);
            r[at] == QUOTE && r[at + 1..at + 1 + n] == name[..n] && r[at + 1 + n] == QUOTE
  {
    var n := Min(16, |name|);
    var f := r[at..at + 19];
    assert r[at] == f[0] && r[at + 1 + n] == f[1 + n];
    forall x | 0 <= x < n
      ensures r[at + 1 + x] == name[x]
    {
      assert r[at + 1 + x] == f[1 + x] == f[1..1 + n][x];
    }
    assert r[at + 1..at + 1 + n] == name[..n];
  }

  lemma EntryRecordType(e: Entry, codec: Codec)
    ensures var r := EntryRecord(e, codec);
            var s := LeadSpaces(BlockCount(e));
            |r| == RECORD_SIZE && r[23 + s..26 + s] == TypeCode(e, codec)
  {
    var s := LeadSpaces(BlockCount(e));
    EntryRecordPadding(e, codec);
    EntryBodyLayout(e, codec);
    SliceOfPrefix(EntryRecord(e, codec), EntryBody(e, codec), 23 + s, 26 + s);
  }

  /** A body fitted to `k` bytes and NUL-terminated keeps the body, then blanks, then NUL. */
  lemma PaddedRecord(body: Name, k: nat)
    requires |body| <= k
    ensures var r := Fit(body, k) + [NUL];
            |r| == k + 1 && r[..|body|] == body && r[|body|..k] == Spaces(k - |body|) && r[k] == NUL
  {
  }

  lemma SliceOfPrefix(r: Name, body: Name, i: nat, j: nat)
    requires i <= j <= |body| <= |r| && r[..|body|] == body
    ensures r[i..j] == body[i..j]
  {
    assert forall x :: i <= x < j ==> r[x] == r[..|body|][x];
  }

  lemma EntryBodyLayout(e: Entry, codec: Codec)
    ensures var body := EntryBody(e, codec);
            var s := LeadSpaces(BlockCount(e));
            body[..4 + s] == EntryLead(BlockCount(e)) &&
            body[4 + s..23 + s] == NameField(ShownName(e, codec)) &&
            body[23 + s..] == TypeCode(e, codec)
  {
  }

  /** What the type code shows for an entry already in PETSCII. */
  lemma TypeCodeOfPetscii(e: Entry, codec: Codec)
    requires e.isPetscii
    ensures e.isDir ==> TypeCode(e, codec) == Ascii("dir")
    ensures !e.isDir && LTrim(e.extension) == [] ==> TypeCode(e, codec) == Ascii("prg")
    ensures !e.isDir && LTrim(e.extension) != [] ==> TypeCode(e, codec) == Fit(LTrim(e.extension), 3)
  {
    var t := TypeName(e);
    assert TypeCode(e, codec) == [t[0], t[1], t[2]] == t;
  }

  // ----- footer --------------------------------------------------------------------------------

  /** The free figure of the footer: blocks inside a disk image (as a 32-bit value), 0 otherwise. */
  function FreeBlocks(m: Media): nat
  {
    if |m.image| > 0 then m.blocksFree % 0x1_0000_0000 else 0
  }

  /** The footer text: `BLOCKS FREE.` in an image, else two DELs, the formatted free bytes and `BYTES FREE.`. */
  function FooterText(m: Media, codec: Codec): Name
  {
    if |m.image| > 0 then Ascii("BLOCKS FREE.")
    else [CBM_DELETE, CBM_DELETE] + codec.formatBytes(m.availableSpace) + Ascii("BYTES FREE.")
  }

  function FooterRecord(m: Media, codec: Codec): Name
  {
    var free := FreeBlocks(m);
    [1, 1, free % 256, (free / 256) % 256] + Fit(FooterText(m, codec), 25) + [NUL, NUL, NUL]
  }

  lemma FooterRecordLayout(m: Media, codec: Codec)
    ensures var r := FooterRecord(m, codec);
            var text := FooterText(m, codec);
            |r| == RECORD_SIZE &&
            r[2] as int + 256 * r[3] as int == FreeBlocks(m) % 0x1_0000 &&
            (|text| <= 25 ==> r[4..4 + |text|] == text && r[4 + |text|..29] == Spaces(25 - |text|)) &&
            r[29..] == [NUL, NUL, NUL]
  {
    var r := FooterRecord(m, codec);
    var text := FooterText(m, codec);
    var free := FreeBlocks(m);
    var head: Name := [1, 1, free % 256, (free / 256) % 256];
    var body := Fit(text, 25);
    assert r == head + body + [NUL, NUL, NUL];
    assert r[4..29] == body;
    assert r[2] as int + 256 * r[3] as int == free % 0x1_0000;
    if |text| <= 25 {
      assert body == text + Spaces(25 - |text|);
    }
  }

  // ----- the listing state machine ----------------------------------------------------------

  /** What a directory channel lists from: the directory's data and entries, and the drive's id. */
  datatype DirSource = DirSource(media: Media, entries: seq<Entry>, productId: Name, id: nat, codec: Codec)

  /** The next listed entry at or after `from`, or the end of the entries. */
  function NextVisible(entries: seq<Entry>, from: nat): (k: nat)
    requires from <= |entries|
    ensures from <= k <= |entries|
    ensures forall j :: from <= j < k ==> Hidden(entries[j])
    ensures k < |entries| ==> !Hidden(entries[k])
    decreases |entries| - from
  {
    if from < |entries| && Hidden(entries[from]) then NextVisible(entries, from + 1) else from
  }

  /** The kinds of line a listing is made of. */
  datatype Line = MainHeader | Info(text: Name) | Item(entry: Entry) | Footer

  predicate WellFormed(line: Line)
  {
    line.Info? ==> |line.text| >= 4
  }

  /** The 32-byte record of a line. */
  function Render(src: DirSource, line: Line): (r: Name)
    requires WellFormed(line)
    ensures |r| == RECORD_SIZE
  {
    match line
    case MainHeader => HeaderRecord(Title(src.media, src.productId, src.codec), src.id)
    case Info(text) => InfoRecord(text)
    case Item(e) => EntryRecord(e, src.codec)
    case Footer => FooterRecord(src.media, src.codec)
  }

  /** One refill: the line written (none once the listing is done), the header line and the entry cursor afterwards. */
  datatype DirStep = DirStep(line: Option<Line>, headerLine: nat, cursor: nat)

  /**
   * The refill state machine over the header line: 1 is the main header,
   * 2 and up the extra lines, then the entries (the cursor moves past
   * hidden ones) until the footer sets the header line to `DONE`.
   */
  function NextDirStep(entries: seq<Entry>, headers: seq<Name>, headerLine: nat, cursor: nat): (s: DirStep)
    requires headerLine >= 1 && cursor <= |entries|
    ensures s.headerLine >= 1 && cursor <= s.cursor <= |entries|
  {
    if headerLine == 1 then
      DirStep(Some(MainHeader), 2, cursor)
    else if headerLine - 2 < |headers| then
      DirStep(Some(Info(headers[headerLine - 2])), headerLine + 1, cursor)
    else if headerLine < DONE then
      var k := NextVisible(entries, cursor);
      if k < |entries| then DirStep(Some(Item(entries[k])), headerLine, k + 1)
      else DirStep(Some(Footer), DONE, k)
    else
      DirStep(None, headerLine, cursor)
  }

  /**
   * What one refill writes: nothing exactly when the listing is done; a
   * listed entry is the first entry from the cursor on that is not hidden;
   * the footer comes once no such entry is left.
   */
  lemma DirStepWrites(entries: seq<Entry>, headers: seq<Name>, headerLine: nat, cursor: nat)
    requires headerLine >= 1 && cursor <= |entries|
    ensures var s := NextDirStep(entries, headers, headerLine, cursor);
            (s.line.None? <==> headerLine >= DONE && headerLine - 2 >= |headers|) &&
            (s.line.None? ==> s.headerLine == headerLine && s.cursor == cursor) &&
            (s.line == Some(Footer) ==>
               s.headerLine == DONE && forall j :: cursor <= j < |entries| ==> Hidden(entries[j])) &&
            (s.line.Some? && s.line.value.Item? ==>
               cursor < s.cursor && s.line.value.entry == entries[s.cursor - 1] &&
               !Hidden(s.line.value.entry) && forall j :: cursor <= j < s.cursor - 1 ==> Hidden(entries[j]))
  {
  }

  /** The lines written by `count` successive refills from a state of the machine. */
  function Steps(entries: seq<Entry>, headers: seq<Name>, headerLine: nat, cursor: nat, count: nat): seq<Line>
    requires headerLine >= 1 && cursor <= |entries|
    decreases count
  {
    if count == 0 then []
    else
      var s := NextDirStep(entries, headers, headerLine, cursor);
      (if s.line.Some? then [s.line.value] else []) + Steps(entries, headers, s.headerLine, s.cursor, count - 1)
  }

  /** The listed entries from `from` on. */
  function Visible(entries: seq<Entry>, from: nat): (v: seq<Entry>)
    requires from <= |entries|
    ensures forall i :: 0 <= i < |v| ==> !Hidden(v[i])
    decreases |entries| - from
  {
    var k := NextVisible(entries, from);
    if k < |entries| then [entries[k]] + Visible(entries, k + 1) else []
  }

  function InfoLines(headers: seq<Name>): (r: seq<Line>)
    ensures |r| == |headers|
  {
    if headers == [] then [] else [Info(headers[0])] + InfoLines(headers[1..])
  }

  function ItemLines(es: seq<Entry>): (r: seq<Line>)
    ensures |r| == |es|
  {
    if es == [] then [] else [Item(es[0])] + ItemLines(es[1..])
  }

  /** The whole listing: main header, the extra lines, one line per listed entry, footer. */
  function ListingLines(entries: seq<Entry>, headers: seq<Name>): seq<Line>
  {
    [MainHeader] + InfoLines(headers) + ItemLines(Visible(entries, 0)) + [Footer]
  }

  /** Once the footer is out the listing is done: every further refill writes nothing. */
  lemma {:induction false} StaysDone(entries: seq<Entry>, headers: seq<Name>, cursor: nat, count: nat)
    requires |headers| <= DONE - 2 && cursor <= |entries|
    ensures Steps(entries, headers, DONE, cursor, count) == []
    decreases count
  {
    if count > 0 {
      StaysDone(entries, headers, cursor, count - 1);
    }
  }

  lemma VisibleStep(entries: seq<Entry>, from: nat)
    requires from <= |entries|
    ensures var k := NextVisible(entries, from);
            Visible(entries, from) == if k < |entries| then [entries[k]] + Visible(entries, k + 1) else []
  {
  }

  /** One refill of the entry stage: the next listed entry, or the footer once none is left. */
  lemma EntryStep(entries: seq<Entry>, headers: seq<Name>, cursor: nat, count: nat, k: nat)
    requires |headers| + 2 < DONE && cursor <= |entries| && count > 0 && k == NextVisible(entries, cursor)
    ensures k < |entries| ==>
              Steps(entries, headers, |headers| + 2, cursor, count)
              == [Item(entries[k])] + Steps(entries, headers, |headers| + 2, k + 1, count - 1)
    ensures k == |entries| ==>
              Steps(entries, headers, |headers| + 2, cursor, count) == [Footer] + Steps(entries, headers, DONE, k, count - 1)
  {
  }

  /** The entry stage lists every visible entry in order, then the footer, then is done. */
  lemma {:induction false} EntryStage(entries: seq<Entry>, headers: seq<Name>, cursor: nat, count: nat)
    requires |headers| + 2 < DONE && cursor <= |entries|
    requires count > |Visible(entries, cursor)|
    ensures Steps(entries, headers, |headers| + 2, cursor, count) == ItemLines(Visible(entries, cursor)) + [Footer]
    decreases |entries| - cursor
  {
    var k := NextVisible(entries, cursor);
    VisibleStep(entries, cursor);
    EntryStep(entries, headers, cursor, count, k);
    var all := Steps(entries, headers, |headers| + 2, cursor, count);
    if k < |entries| {
      var rest := Visible(entries, k + 1);
      var tail := Steps(entries, headers, |headers| + 2, k + 1, count - 1);
      var v := [entries[k]] + rest;
      assert Visible(entries, cursor) == v;
      EntryStage(entries, headers, k + 1, count - 1);
      assert all == [Item(entries[k])] + tail;
      assert tail == ItemLines(rest) + [Footer];
      assert v[1..] == rest;
      assert ItemLines(v) == [Item(entries[k])] + ItemLines(rest);
      assert all == ([Item(entries[k])] + ItemLines(rest)) + [Footer];
    } else {
      StaysDone(entries, headers, k, count - 1);
      assert all == [Footer] + [];
      assert Visible(entries, cursor) == [];
      assert ItemLines([]) + [Footer] == [Footer];
    }
  }

  /** The info stage lists the remaining extra lines in order, then moves to the entries. */
  lemma {:induction false} InfoStage(entries: seq<Entry>, headers: seq<Name>, i: nat, count: nat)
    requires |headers| + 2 < DONE && i <= |headers|
    requires count >= |headers| - i
    ensures Steps(entries, headers, i + 2, 0, count)
            == InfoLines(headers[i..]) + Steps(entries, headers, |headers| + 2, 0, count - (|headers| - i))
    decreases |headers| - i
  {
    if i < |headers| {
      InfoStage(entries, headers, i + 1, count - 1);
      assert headers[i..][1..] == headers[i + 1..];
    } else {
      assert headers[i..] == [];
    }
  }

  /**
   * Refill after refill, a directory channel writes the main header, one
   * line per extra line, one per listed entry in directory order, the
   * footer, and nothing after it.
   */
  lemma ListingComplete(entries: seq<Entry>, headers: seq<Name>, count: nat)
    requires |headers| + 2 < DONE
    requires count >= |ListingLines(entries, headers)|
    ensures Steps(entries, headers, 1, 0, count) == ListingLines(entries, headers)
  {
    InfoStage(entries, headers, 0, count - 1);
    assert headers[0..] == headers;
    EntryStage(entries, headers, 0, count - 1 - |headers|);
  }

  /** Lines that can all be rendered. */
  predicate Renderable(lines: seq<Line>)
  {
    forall i :: 0 <= i < |lines| ==> WellFormed(lines[i])
  }

  /** The bytes of a sequence of lines: the records of those that can be rendered, one after another. */
  function RenderAll(src: DirSource, lines: seq<Line>): (r: Name)
    ensures Renderable(lines) ==> |r| == RECORD_SIZE * |lines|
  {
    if lines == [] then []
    else (if WellFormed(lines[0]) then Render(src, lines[0]) else []) + RenderAll(src, lines[1..])
  }
}
