# IEC disk-drive emulation, modelled in Dafny

This project models the drive emulation of a Commodore IEC bus device
(`lib/device/iec/drive.cpp`): the drive answers the bus's open, close,
read, write and command requests on sixteen channels, backed by a file
system it reaches through `MFile`/`MStream` objects.

- `bytes.dfy` (module `Bytes`): bytes, byte strings, and the text helpers the drive uses on them (`%d` and `%02d` rendering, `ltrim`, padding).
- `status.dfy` (module `Status`): the status codes, their messages, and the status line `"%02d,<message>,%02d,00\r"`.
- `pattern.dfy` (module `Pattern`): the wildcard matcher `isMatch` of the scratch command.
  - `IsMatch` is a recursive function.
  - `Matches` is the source's loop, proved equal to it.
- `storage.dfy` (module `Storage`): the collaborators as values.
  - A stream is its content, a position, the most bytes one read call delivers (possibly none), the room left for writes, and the direction it reports.
  - The file system is a map from location to node (existence, directory flag, parent, listing data, entries, streams) and a map for `cd`.
  - The string conversions `toPETSCII2`, `toUTF8` and `formatBytes` are function-valued fields of a `Codec`, so every result holds for any conversion.
- `listing.dfy` (module `Listing`): the directory listing a directory channel synthesises, and the state machine that emits it.
  - The listing is a BASIC program of 32-byte records: the main header, `NFO` info lines, one line per entry, and the free-space footer.
  - The state machine runs over the header line and the entry cursor.
- `channel.dfy` (module `Channels`): class `Channel`, the 512-byte transfer buffer (`m_data`, `m_len`, `m_ptr`) with its two refill/flush handlers.
  - The file handler refills from a stream (patching a load address once) and flushes to it.
  - The directory handler refills with listing records and refuses writes.
  - The handler's variant is the `kind` field; the source uses subclasses for this.
- `drive.dfy` (module `Drives`): class `Drive`, holding sixteen channel slots, the open-channel count, the status code and track, and the current directory.
  - `open` is specified by the function `PlanOpen`, which follows the source's cascade of checks (`PlanOpenResolved`) and refuses a lookup that does not resolve.
  - `execute` is modelled for `S:` (scratch) and `CD`.

Some behaviour follows the code rather than a reading of the design:

- A directory channel refuses writes with status 64 only when a flush is needed, that is, when the buffered bytes plus the new ones exceed 512. Smaller writes are buffered and accepted, exactly as the shared `write` (drive.cpp:119-149) does.
- The load-address fix depends on the FIRST read call of a stream at position 0 delivering at least two bytes (drive.cpp:222-233). A stream that returns one byte per read call is never patched, however long the file (`FileFillByteStream`).
- A directory that has no entries is opened as a file. In that case the current directory moves into it before the file checks, so it stays moved when the open then fails (`OpenEmptyDirectoryMovesCwd`).
- A file handler flushes on close when its stream reports writing (drive.cpp:169), not when the channel was opened for writing. The stream's reported `mode` is a field of the stream value. A stream inside a disk image that reports the wrong mode therefore loses the last partial buffer of a write on close, as in the source.
- `readBufferData` reports success in both handlers. The error branch of `read` (drive.cpp:89-94) therefore cannot be reached, and `Channel.Read` has no error result.

## Model

| member | source | states |
|---|---|---|
| Pattern.Matches | lib/device/iec/drive.cpp:44-59 | the loop with its `found` flag returns exactly `IsMatch`, the verdict of a position-by-position scan that stops at the first position that ends or fails it |
| Pattern.MatchAtStop | lib/device/iec/drive.cpp:48-55 | the match holds iff, at the first position that does not agree, the pattern has `*` or both strings end there |
| Pattern.MatchStar | lib/device/iec/drive.cpp:50-51 | a `*` reached by the scan matches whatever the rest of the name is |
| Pattern.MatchSelf | lib/device/iec/drive.cpp:44-59 | every NUL-free name matches itself |
| Pattern.MatchLiteral | lib/device/iec/drive.cpp:44-59 | a pattern without `*`, `?`, 0xFF or NUL matches a name iff the two are equal |
| Pattern.Examples | lib/device/iec/drive.cpp:44-59 | ("FILE","FIL?") and ("","*") and ("FILE","F*X") match; ("FILE","FILED") and ("A~B","A~") do not |
| Pattern.TildeExample | lib/device/iec/drive.cpp:54 | pattern byte 0xFF accepts a `~` of the name |
| Bytes.ParseDecimalOfDecimal2 | lib/device/iec/drive.cpp:742 | the `%02d` rendering of a number reads back as that number |
| Status.StatusLineFields | lib/device/iec/drive.cpp:742 | the status line starts with the code in two or more digits and a comma, and ends with a comma, the track in two or more digits, and `,00\r`; both numbers read back |
| Status.MessageOfUnknown | lib/device/iec/drive.cpp:739 | a code without its own message shows `UNKNOWN ERROR` |
| Status.Truncate | lib/device/iec/drive.cpp:742 | what `snprintf` leaves in a buffer of `size` bytes is the prefix of length min(len, size-1) of the line |
| Listing.HeaderRecordLayout | lib/device/iec/drive.cpp:308-326 | the main header record is 32 bytes: load address 0x0801, link 1,1, line number 0,0, reverse-on 18, `"`, the title cut or blank-padded to 16 bytes, `"`, the id in two digits, ` 2A` |
| Listing.ChunkLinesCarryText | lib/device/iec/drive.cpp:288-297 | `addExtraInfo`'s pieces are `NFO ` plus 1 to 16 bytes each; there are ceil(len/16) of them; without the prefix they concatenate back to the text |
| Listing.InitialHeadersLong | lib/device/iec/drive.cpp:264-278 | every extra line the directory handler's constructor builds has at least four bytes: a 3-byte type and a blank before its text |
| Listing.InfoRecordLayout | lib/device/iec/drive.cpp:327-345 | the record of any info line (at least four bytes) is 1,1,0,0, three blanks, a quote, up to 16 bytes of the text from byte 4 on, a quote, blanks up to byte 26, the first three bytes of the line as its type, two blanks and a NUL |
| Listing.EntryRecordLayout | lib/device/iec/drive.cpp:359-406 | an entry record has the block count modulo 65536 little-endian in bytes 2-3; blanks right-align the count; the name (at most 16 bytes) is quoted; the 3-byte type code follows the 17-byte name field; blank padding to byte 31, then NUL |
| Listing.TypeCodeOfPetscii | lib/device/iec/drive.cpp:371-390 | the type code of a PETSCII entry is `dir` for a directory, else the left-trimmed extension cut or blank-padded to 3 bytes, else `prg` |
| Listing.FooterRecordLayout | lib/device/iec/drive.cpp:407-425 | the footer holds the free blocks modulo 65536 little-endian in bytes 2-3 (0 outside a disk image); its text is blank-padded to byte 29; three NULs end it |
| Listing.NextVisible | lib/device/iec/drive.cpp:351-358 | the entries skipped are exactly those whose name starts with `.`; the entry found is not one |
| Listing.Render | lib/device/iec/drive.cpp:306-429 | every record the directory handler writes is 32 bytes long |
| Listing.DirStepWrites | lib/device/iec/drive.cpp:306-429 | a refill writes nothing exactly when the header line is 0xFF and past the extra lines; an entry line is the first non-hidden entry from the cursor on; the footer comes only when no such entry is left, and sets the header line to 0xFF |
| Listing.EntryStep | lib/device/iec/drive.cpp:346-425 | in the entry stage a refill lists the first non-hidden entry from the cursor and moves the cursor past it, or writes the footer and ends the listing when none is left |
| Listing.StaysDone | lib/device/iec/drive.cpp:408-425 | once the footer is out, every later refill writes nothing |
| Listing.ListingComplete | lib/device/iec/drive.cpp:306-429 | refills from a new directory handler write the main header, each extra line in order, each non-hidden entry in directory order, the footer, and then nothing |
| Listing.RenderAll | lib/device/iec/drive.cpp:306-429 | n lines that can all be rendered make 32·n bytes |
| Channels.FileFillSize | lib/device/iec/drive.cpp:238-243 | a refill reads min(512, bytes left) bytes from a stream that delivers, none from one whose read calls deliver nothing; it is short only at the end of the stream or on such a stream |
| Channels.StalledFills | lib/device/iec/drive.cpp:238-243 | refills from a stream whose read calls deliver nothing deliver nothing |
| Channels.StalledFillSpins | lib/device/iec/drive.cpp:238-243 | the loop as written, on a stream whose read call delivers nothing before its end: after any number of passes nothing was read and the loop condition still holds |
| Channels.FileFillUnpatched | lib/device/iec/drive.cpp:222-235 | without a pending fix at position 0, a refill passes the stream's bytes on unchanged and leaves the fix setting alone |
| Channels.FileFillByteStream | lib/device/iec/drive.cpp:222-233 | a stream whose read calls deliver one byte is never patched |
| Channels.FileFillPatched | lib/device/iec/drive.cpp:222-233 | with the fix applied, bytes 0-1 are the load address low byte first; the other bytes are the stream's own; the fix is then dropped (-1) |
| Channels.BasicStartBytes | lib/device/iec/drive.cpp:577 | the load address 0x0801 goes in as 0x01, 0x08 |
| Channels.FileFillsDeliver | lib/device/iec/drive.cpp:211-249 | enough refills in a row deliver the whole rest of the stream in order, with the load address patched in at most once |
| Channels.DirFillsRender | lib/device/iec/drive.cpp:306-429 | the bytes successive directory refills put in the buffer are the records of the lines the listing machine writes, in order |
| Channels.ListingBytes | lib/device/iec/drive.cpp:306-429 | the refills of a new directory handler deliver exactly the records of the whole listing (main header, extra lines, listed entries, footer), 32 bytes per line, then nothing |
| Channels.StepsWellFormed | lib/device/iec/drive.cpp:327-345 | every info line the listing machine writes is long enough to be rendered |
| Channels.StepBytesSize | lib/device/iec/drive.cpp:306-429 | a directory refill fills the buffer with one 32-byte record, or with nothing once the listing is done |
| Channels.Channel.OfFile | lib/device/iec/drive.cpp:155-163 | a new file handler has an empty buffer, its stream and the given load-address setting |
| Channels.Channel.OfDir | lib/device/iec/drive.cpp:255-279 | a new directory handler starts at header line 1 and the first entry; its extra lines are the info blocks of URL, path, archive and image, the separator if any block was added, and `DIR SD` at the root when the SD card is mounted |
| Channels.Channel.AddExtraInfo | lib/device/iec/drive.cpp:288-297 | appends the title line and then the text's 16-byte pieces to the extra lines |
| Channels.Channel.AddInfoBlocks | lib/device/iec/drive.cpp:268-271 | appends the info blocks of URL (if set), path and archive (if longer than one byte) and image (if set), in that order |
| Channels.Channel.ReadFileData | lib/device/iec/drive.cpp:211-249 | the buffer receives exactly `FileFill`'s bytes, and the stream and fix setting become `FileFill`'s |
| Channels.Channel.FirstRead | lib/device/iec/drive.cpp:222-233 | one read call of up to 512 bytes; its first two bytes are patched if it delivered two or more; the fix is dropped |
| Channels.Channel.PatchLoadAddress | lib/device/iec/drive.cpp:229-230 | the first two buffered bytes become the load address, low byte first; the other buffered bytes stay as they were |
| Channels.Channel.FillUp | lib/device/iec/drive.cpp:238-243 | the loop reads until 512 bytes are buffered, the stream ends, or a read call delivers nothing; the buffer stays the stream's next bytes (patched); from a stream that delivers it ends with min(512, bytes left) bytes |
| Channels.Channel.ReadDirData | lib/device/iec/drive.cpp:306-429 | the buffer receives the record of the state machine's next step; header line and cursor take the step's values; the skip loop stops at `NextVisible` |
| Channels.Channel.ReadBufferData | lib/device/iec/drive.cpp:80-116 | the refill `read` calls on a drained buffer dispatches on the handler: the buffer, stream, load-address setting, header line and cursor become those of `NextFill` (a file refill or a listing step), and the read pointer stays 0 |
| Channels.Channel.Read | lib/device/iec/drive.cpp:80-116 | a drained buffer is refilled first; then the first min(n, available) pending bytes are returned in buffer order, and the pointer moves past them |
| Channels.Channel.Take | lib/device/iec/drive.cpp:96-115 | returns the first min(n, pending) buffered bytes, a single byte when n is 1, and moves the pointer past exactly those |
| Channels.Channel.WriteBufferData | lib/device/iec/drive.cpp:186-208 | a file handler writes the buffer to its stream and reports 25 when fewer bytes were accepted; a directory handler (drive.cpp:300-303) reports 64 |
| Channels.Channel.Write | lib/device/iec/drive.cpp:119-149 | a flush happens only when len+n > 512; a failed flush returns 0 with its status and leaves the buffer as it was; otherwise the n bytes are appended after the buffered ones (after an emptied buffer if flushed) and n is returned |
| Channels.Channel.Append | lib/device/iec/drive.cpp:134-146 | the bytes are placed after the buffered ones and the length grows by their number |
| Channels.Channel.Close | lib/device/iec/drive.cpp:165-184 | a file handler flushes a non-empty buffer when its stream itself reports writing, whatever mode the channel was opened with; then the stream is closed |
| Drives.OpenSucceedsIffOk | lib/device/iec/drive.cpp:455-600 | an open installs a handler exactly when it reports status 0 |
| Drives.OpenFailureCodes | lib/device/iec/drive.cpp:487-572 | a failed open reports one of 33, 70, 26, 62, 63, 74, each an error code |
| Drives.OpenUnresolved | lib/device/iec/drive.cpp:503-505 | a name that reaches the lookup is refused with 62, with the current directory kept, iff the lookup does not resolve; that is exactly where the cascade as written is undefined |
| Drives.OpenNullLookupExample | lib/device/iec/drive.cpp:503-505 | opening `GAME` on a file system without lookup entries reaches the lookup and gets no location, which the source dereferences |
| Drives.OpenRefusals | lib/device/iec/drive.cpp:487-496 | an empty name gives 33, then an occupied slot gives 70; neither changes the current directory |
| Drives.OpenWriteDirectory | lib/device/iec/drive.cpp:529-536 | writing to a directory gives 26 and changes nothing; a write never opens a listing |
| Drives.OpenEmptyDirectoryMovesCwd | lib/device/iec/drive.cpp:522-597 | reading a directory without entries: the open fails iff the directory does not exist or has no open read stream, and then the current directory is the directory itself; on success a file handler with load address 0x0801 is opened |
| Drives.OpenLoadAddress | lib/device/iec/drive.cpp:577 | a file handler gets a load-address fix iff the opened location is a directory, and then it is 0x0801 on a read |
| Drives.ParseOpenExamples | lib/device/iec/drive.cpp:459-482 | `0:@:GAME,P,W` writes `GAME` with replace; channel 1 defaults to writing and `R` overrides it; `$` names the current directory |
| Drives.ScratchedExactly | lib/device/iec/drive.cpp:661-671 | a scratch removes exactly the entries that are files, whose PETSCII name matches the pattern, and whose removal succeeds |
| Drives.ScratchStar | lib/device/iec/drive.cpp:661-671 | the pattern `*` scratches every removable file |
| Drives.CwdChangeSucceeds | lib/device/iec/drive.cpp:766-792 | the directory changes only on success; success holds iff the path resolves to an existing directory or readable location; 31 holds iff the path does not resolve |
| Drives.OpenCountUpdate | lib/device/iec/drive.cpp:603-614 | filling or emptying one slot moves the number of occupied slots by one, as `open` (drive.cpp:516, 578) and `close` do with `m_numOpenChannels` |
| Drives.OpenCountZero | lib/device/iec/drive.cpp:757-760 | the count is zero exactly when every slot is empty |
| Drives.Drive.constructor | lib/device/iec/drive.cpp:435-444 | a new drive has all slots empty, count 0, status 73 with track 0, and the current directory `/` |
| Drives.Drive.SetStatusCode | lib/device/iec/drive.cpp:703-710 | the status code and track are set |
| Drives.Drive.HasError | lib/device/iec/drive.cpp:713-716 | for a code with a message, the drive reports an error for every code except 0, 1 and 73 |
| Status.KnownErrors | lib/device/iec/drive.cpp:713-716 | `hasError`'s test (a code of 20 or more other than 73) holds for every code with a message except 0, 1 and 73 |
| Drives.Drive.GetStatus | lib/device/iec/drive.cpp:719-747 | returns the status line cut to the buffer, then the status is 0 with track 0 and no error |
| Drives.Drive.Open | lib/device/iec/drive.cpp:455-600 | status, track 0 and current directory are `PlanOpen`'s (a lookup that does not resolve gives 62); the slot is filled with a new handler (and the count raised) only on success; a listing handler lists the opened directory; a file handler has the plan's stream and load-address setting |
| Drives.Drive.OpenListing | lib/device/iec/drive.cpp:510-521 | a directory with entries gets a new listing handler over its media and entries, starting at the main header, the count goes up by one, the directory becomes current, status 0 |
| Drives.Drive.OpenFile | lib/device/iec/drive.cpp:539-597 | the file branch: the cascade 62 / 63 / 74 / 62 / 74, else a file handler; the current directory then moves to the parent, or to the stream's own location |
| Drives.Drive.OpenStream | lib/device/iec/drive.cpp:577-579 | a new file handler on the stream with the given load-address setting fills the empty slot, the count goes up by one, status 0 |
| Drives.Drive.Close | lib/device/iec/drive.cpp:603-614 | an empty slot changes nothing; otherwise the handler finishes (its stream flushed when writing, then closed), the slot is emptied and the count drops by one; every other handler is left as it was |
| Drives.Drive.Read | lib/device/iec/drive.cpp:630-640 | an empty slot returns nothing and sets 61 only over status 0; otherwise the status is left alone and the handler's `read` contract holds: min(n, available) bytes returned, the rest left pending, the refill state that of a refill when the buffer was drained and unchanged otherwise |
| Drives.Drive.Write | lib/device/iec/drive.cpp:617-627 | an empty slot takes nothing and sets 61 only over status 0; otherwise the handler's `write` contract holds: without a flush the bytes are appended; a flush hands the buffer to the stream; a failed flush returns 0, sets its status and keeps the buffer; after a good one the buffer holds just the new bytes |
| Drives.Drive.Execute | lib/device/iec/drive.cpp:643-700 | `S:` sets status 1 with track = number of removed files mod 256; `CD` acts as `set_cwd` on the rest; any other command sets 31 |
| Drives.Drive.Scratch | lib/device/iec/drive.cpp:661-671 | the loop removes exactly `Scratched` of the entries, and its one-byte counter ends at their number modulo 256 |
| Drives.Drive.SetCwd | lib/device/iec/drive.cpp:766-792 | status and current directory are `PlanCwd`'s: a leading `:` or blank dropped; 31 if the path does not resolve; 0 and the move if it exists and is a directory or readable; 62 otherwise |
| Drives.Drive.Reset | lib/device/iec/drive.cpp:751-763 | status 73 with track 0, every slot empty, count 0; each handler that was open is finished as `close` finishes it (a writing file flushes its buffer before its stream closes); the current directory is kept |

## Findings

| source | as written | input that shows it | evidently intended | confidence | as-written member | corrected member |
|---|---|---|---|---|---|---|
| lib/device/iec/drive.cpp:238-243 | the refill loop repeats while the buffer has room and `eos()` is false, however much a read call delivered | a stream at its start with bytes left whose read call returns 0, such as a network stream after a failed read: nothing is added and the condition stays true | the refill ends when a read call delivers nothing | medium; not executed; depends on the backend's `eos()` staying false after a failed read | Channels.StalledFillSpins | Channels.Channel.FillUp |
| lib/device/iec/drive.cpp:503-505 | `open` calls `isDirectory()` on the result of `m_cwd->cd(...)` without checking it; `set_cwd` (drive.cpp:775-776) checks the same call for null | `OpenNullLookupExample`: opening `GAME` where the lookup yields no location | the open is refused with an error status and nothing changes | medium; not executed | Drives.OpenNullLookupExample | Drives.OpenUnresolved |

## Left out

- Timing and telemetry (`esp_timer_get_time`, transfer-time and byte counters, the characters-per-second figures) and all debug output: clock reads and floating point with no effect on behaviour.
- `mount`/`unmount`, the drive's destructor (it closes every open slot, as `Reset` does), `IECFileDevice::reset`, `clearStatus`, and the JiffyDOS/Epyx commands. These call into the bus library, which is not part of this model.
- `util_tokenize` is not part of this model: `Open` receives the comma-separated tokens. It requires at least one token, since the source reads `pt[0]` unchecked.
- `MFile::cd` is a lookup in the file-system value. Where it does not resolve, `open` dereferences a null result (see Findings); the model refuses the open with 62 there instead. `MFSOwner::File(cwd->url)` in the scratch command is taken to be the node of the current directory.
- Channels.Channel.FillUp: a stream either delivers on every read call until its end, or (`chunk` 0) never delivers. A stream that delivers nothing for a while and then resumes is not modelled. Where a read call delivers nothing, the model's refill ends; the source's loop would spin (see Findings), so `FileFill` and `FileFillSize` describe the corrected loop.
- The iteration state of `getNextFileInDir` is the channel's entry cursor. The scratch command is taken to iterate the current directory from its first entry, and `getSourceStream()` without a mode as a read stream.
- Removing a scratched file is reported through `Execute`'s `removed` result. The file-system value is not updated, and neither is the stream a closed write channel flushed to.
- `Channel.Read`: the branch for a refill that reports an error (drive.cpp:89-94) is not modelled, because neither handler's refill ever reports one.
- Channels.Channel.ReadDirData: records are built as values (`Render`) and copied into the buffer, rather than written byte by byte. Texts longer than their field are cut to it, whereas the source's `memcpy`/`strcpy` would run past the field; the footer text is one example. `strcpy`'s stop at an embedded NUL is not modelled.
- Listing.ListingComplete: stated for at most 252 extra lines. `m_headerLine`'s type is declared in `drive.h`, which is not part of this model, so the header line is an unbounded number. With 253 or more extra lines the counter would reach the done value 0xFF while still in the info stage.
- Channels.ListingBytes: stated for at most 252 extra lines, for the same reason: it rests on `ListingComplete`.
- Drives.Drive.Execute: the matcher's `uint8_t` index cannot wrap, because a command is under 256 bytes.
- The lookup `toUTF8(name)` receives only the name as parsed; the `$` rule replaces any name starting with `$` by the empty name, as the source does.
- The product identification string (`PRODUCT_ID`) and `CBM_DELETE` come from headers that are not part of this model. The first is a parameter of the drive; the second is taken to be PETSCII DEL (0x14).
- The status track is set to 0 by every `setStatusCode` call without a track, taking the default argument in `drive.h` to be 0.
