/**
 * The drive (`iecDrive`): sixteen channel slots, the status code with its
 * track, the current directory, and the operations the bus invokes on
 * them: open, close, read, write, execute a command, read the status, reset.
 */
module Drives {
  import opened Bytes
  import opened Status
  import opened Storage
  import opened Listing
  import opened Pattern
  import opened Channels

  const CHANNELS := 16

  /** The channel that defaults to writing (the SAVE channel). */
  const SAVE_CHANNEL := 1

  const DOLLAR: byte := 0x24

  // ----- open: the name and the outcome --------------------------------------------------------

  /** What an open asks for: the file name, the direction, and whether an existing file may be replaced. */
  datatype Request = Request(name: Name, mode: Mode, overwrite: bool)

  /**
   * The request in the comma-separated tokens `pt` of an open: the name is
   * the first token without a `0:` drive prefix and then without an `@:`
   * replace prefix; the third token `R` or `W` sets the direction, which
   * otherwise is writing on channel 1 and reading elsewhere.
   */
  function ParseOpen(channel: nat, pt: seq<Name>): Request
    requires |pt| >= 1
  {
    var name := if StartsWith(pt[0], Ascii("0:")) then Drop(pt[0], 2) else pt[0];
    var mode := if channel == SAVE_CHANNEL then Out else In;
    var mode := if |pt| >= 3 && pt[2] == Ascii("R") then In
                else if |pt| >= 3 && pt[2] == Ascii("W") then Out
                else mode;
    var overwrite := StartsWith(name, Ascii("@:"));
    Request(if overwrite then Drop(name, 2) else name, mode, overwrite)
  }

  /** The location an open looks up: a name starting with `$` stands for the current directory. */
  function Target(name: Name): Name
  {
    if |name| > 0 && name[0] == DOLLAR then [] else name
  }

  /** The handler an open installs, if any. */
  datatype Handler = NoHandler | DirChannel(dir: Path) | FileChannel(mode: Mode, stream: Stream, fix: int)

  /** What an open leads to: the status code, the current directory afterwards, the handler. */
  datatype OpenPlan = OpenPlan(status: byte, cwd: Path, handler: Handler)

  /** Whether an open gets as far as looking its name up. */
  predicate LooksUp(busy: bool, channel: nat, pt: seq<Name>)
    requires |pt| >= 1
  {
    |ParseOpen(channel, pt).name| > 0 && !busy
  }

  /** The location an open looks up, when it does. */
  function Located(fs: Fs, cwd: Path, channel: nat, pt: seq<Name>, codec: Codec): Option<Path>
    requires |pt| >= 1
  {
    Cd(fs, cwd, codec.toUtf8(Target(ParseOpen(channel, pt).name)))
  }

  /**
   * Opening the file `f` (also a directory that has no entries to list):
   * it must exist to be read and must not exist to be written unless
   * replacing is asked for; its stream must be there, non-empty when read
   * (unless a directory), and open. The current directory then moves to
   * the file's parent, or for a backend without sub-directories to the
   * location the stream itself names.
   */
  function PlanFile(cwd: Path, f: Node, req: Request): OpenPlan
  {
    if req.mode == In && !f.present then OpenPlan(ST_FILE_NOT_FOUND, cwd, NoHandler)
    else if req.mode == Out && f.present && !req.overwrite then OpenPlan(ST_FILE_EXISTS, cwd, NoHandler)
    else match SourceStream(f, req.mode)
      case None => OpenPlan(ST_DRIVE_NOT_READY, cwd, NoHandler)
      case Some(s) =>
        if req.mode == In && |s.content| == 0 && !f.isDir then OpenPlan(ST_FILE_NOT_FOUND, cwd, NoHandler)
        else if !s.isOpen then OpenPlan(ST_DRIVE_NOT_READY, cwd, NoHandler)
        else
          var fix := if f.isDir then BASIC_START else -1;
          OpenPlan(ST_OK, if s.hasSubdirs then f.base else s.home, FileChannel(req.mode, s, fix))
  }

  /**
   * `open` as written: an empty name is a syntax error, an occupied channel
   * has no room; a directory read with entries is listed, one without
   * entries is read as a file after the current directory has moved into
   * it, and a directory cannot be written; anything else is opened as a
   * file. The result of the lookup is used without a null check, so this
   * is defined only where the lookup resolves.
   */
  function PlanOpenResolved(fs: Fs, cwd: Path, busy: bool, channel: nat, pt: seq<Name>, codec: Codec): OpenPlan
    requires |pt| >= 1
    requires LooksUp(busy, channel, pt) ==> Located(fs, cwd, channel, pt, codec).Some?
  {
    var req := ParseOpen(channel, pt);
    if |req.name| == 0 then OpenPlan(ST_SYNTAX_ERROR_33, cwd, NoHandler)
    else if busy then OpenPlan(ST_NO_CHANNEL, cwd, NoHandler)
    else
      var p := Located(fs, cwd, channel, pt, codec).value;
      var f := NodeAt(fs, p);
      if f.isDir && req.mode == In then
        if |f.children| > 0 then OpenPlan(ST_OK, p, DirChannel(p))
        else PlanFile(p, f, req)
      else if f.isDir then OpenPlan(ST_WRITE_PROTECT, cwd, NoHandler)
      else PlanFile(cwd, f, req)
  }

  /** `open`, with a lookup that does not resolve refused as `FILE NOT FOUND` before anything changes. */
  function PlanOpen(fs: Fs, cwd: Path, busy: bool, channel: nat, pt: seq<Name>, codec: Codec): OpenPlan
    requires |pt| >= 1
  {
    if LooksUp(busy, channel, pt) && Located(fs, cwd, channel, pt, codec).None? then
      OpenPlan(ST_FILE_NOT_FOUND, cwd, NoHandler)
    else
      PlanOpenResolved(fs, cwd, busy, channel, pt, codec)
  }

  /** A name the lookup cannot resolve is refused with 62, and the current directory stays. */
  lemma OpenUnresolved(fs: Fs, cwd: Path, busy: bool, channel: nat, pt: seq<Name>, codec: Codec)
    requires |pt| >= 1 && LooksUp(busy, channel, pt)
    ensures Located(fs, cwd, channel, pt, codec).None? <==>
            PlanOpen(fs, cwd, busy, channel, pt, codec) == OpenPlan(ST_FILE_NOT_FOUND, cwd, NoHandler) &&
            !PlanOpenResolved.requires(fs, cwd, busy, channel, pt, codec)
  {
  }

  /**
   * An open the source's cascade cannot handle: on a file system without
   * any lookup entry, opening `GAME` reaches the lookup, whose null result
   * the source then dereferences.
   */
  lemma OpenNullLookupExample()
    ensures var fs := Fs(map[], map[], false);
            var codec := Codec(x => x, x => x, n => []);
            var pt := [Ascii("GAME")];
            LooksUp(false, 0, pt) && Located(fs, Ascii("/"), 0, pt, codec).None? &&
            !PlanOpenResolved.requires(fs, Ascii("/"), false, 0, pt, codec) &&
            PlanOpen(fs, Ascii("/"), false, 0, pt, codec) == OpenPlan(ST_FILE_NOT_FOUND, Ascii("/"), NoHandler)
  {
    var pt := [Ascii("GAME")];
    assert Ascii("GAME")[..2][0] != Ascii("0:")[0];
    assert Ascii("GAME")[..2][0] != Ascii("@:")[0];
    assert ParseOpen(0, pt).name == Ascii("GAME");
  }

  /** A handler is installed exactly when the open reports success. */
  lemma OpenSucceedsIffOk(fs: Fs, cwd: Path, busy: bool, channel: nat, pt: seq<Name>, codec: Codec)
    requires |pt| >= 1
    ensures var plan := PlanOpen(fs, cwd, busy, channel, pt, codec);
            plan.handler != NoHandler <==> plan.status == ST_OK
  {
  }

  /** Every failed open leaves an error status, one of the codes of the open cascade. */
  lemma OpenFailureCodes(fs: Fs, cwd: Path, busy: bool, channel: nat, pt: seq<Name>, codec: Codec)
    requires |pt| >= 1
    ensures var plan := PlanOpen(fs, cwd, busy, channel, pt, codec);
            plan.status == ST_OK ||
            (IsError(plan.status) &&
             plan.status in {ST_SYNTAX_ERROR_33, ST_NO_CHANNEL, ST_WRITE_PROTECT, ST_FILE_NOT_FOUND,
                             ST_FILE_EXISTS, ST_DRIVE_NOT_READY})
  {
  }

  /** The early refusals: an empty name, then an occupied channel; neither touches the current directory. */
  lemma OpenRefusals(fs: Fs, cwd: Path, busy: bool, channel: nat, pt: seq<Name>, codec: Codec)
    requires |pt| >= 1
    ensures var plan := PlanOpen(fs, cwd, busy, channel, pt, codec);
            (|ParseOpen(channel, pt).name| == 0 ==> plan == OpenPlan(ST_SYNTAX_ERROR_33, cwd, NoHandler)) &&
            (|ParseOpen(channel, pt).name| > 0 && busy ==> plan == OpenPlan(ST_NO_CHANNEL, cwd, NoHandler))
  {
  }

  /** Writing to a directory is refused as write-protected, and a written file is never listed. */
  lemma OpenWriteDirectory(fs: Fs, cwd: Path, busy: bool, channel: nat, pt: seq<Name>, codec: Codec)
    requires |pt| >= 1 && LooksUp(busy, channel, pt)
    requires Located(fs, cwd, channel, pt, codec).Some?
    requires ParseOpen(channel, pt).mode == Out
    ensures var plan := PlanOpen(fs, cwd, busy, channel, pt, codec);
            !plan.handler.DirChannel? &&
            (NodeAt(fs, Located(fs, cwd, channel, pt, codec).value).isDir ==>
               plan == OpenPlan(ST_WRITE_PROTECT, cwd, NoHandler))
  {
  }

  /**
   * A directory without entries read as a file moves the current directory
   * into it before the file checks, so the move stays even when the open
   * then fails.
   */
  lemma OpenEmptyDirectoryMovesCwd(fs: Fs, cwd: Path, busy: bool, channel: nat, pt: seq<Name>, codec: Codec)
    requires |pt| >= 1 && LooksUp(busy, channel, pt)
    requires Located(fs, cwd, channel, pt, codec).Some?
    requires ParseOpen(channel, pt).mode == In
    requires var f := NodeAt(fs, Located(fs, cwd, channel, pt, codec).value);
             f.isDir && |f.children| == 0
    ensures var plan := PlanOpen(fs, cwd, busy, channel, pt, codec);
            var f := NodeAt(fs, Located(fs, cwd, channel, pt, codec).value);
            (plan.status != ST_OK ==> plan.cwd == Located(fs, cwd, channel, pt, codec).value) &&
            (plan.status != ST_OK <==> !f.present || SourceStream(f, In).None? || !SourceStream(f, In).value.isOpen) &&
            (plan.status == ST_OK ==> plan.handler.FileChannel? && plan.handler.fix == BASIC_START)
  {
  }

  /** Only a directory opened as a file gets its load address patched, to the BASIC start. */
  lemma OpenLoadAddress(fs: Fs, cwd: Path, busy: bool, channel: nat, pt: seq<Name>, codec: Codec)
    requires |pt| >= 1
    ensures var plan := PlanOpen(fs, cwd, busy, channel, pt, codec);
            plan.handler.FileChannel? ==>
              Located(fs, cwd, channel, pt, codec).Some? &&
              (plan.handler.fix >= 0 <==> NodeAt(fs, Located(fs, cwd, channel, pt, codec).value).isDir) &&
              (plan.handler.fix >= 0 ==> plan.handler.fix == BASIC_START && plan.handler.mode == In)
  {
  }

  lemma ParseOpenExamples()
    ensures ParseOpen(2, [Ascii("0:@:GAME"), Ascii("P"), Ascii("W")]) == Request(Ascii("GAME"), Out, true)
    ensures ParseOpen(SAVE_CHANNEL, [Ascii("GAME")]) == Request(Ascii("GAME"), Out, false)
    ensures ParseOpen(SAVE_CHANNEL, [Ascii("GAME"), Ascii("P"), Ascii("R")]).mode == In
    ensures ParseOpen(0, [Ascii("$")]) == Request(Ascii("$"), In, false)
    ensures Target(Ascii("$")) == [] && Target(Ascii("$0")) == []
  {
    assert Ascii("0:@:GAME")[..2] == Ascii("0:");
    assert Drop(Ascii("0:@:GAME"), 2) == Ascii("@:GAME");
    assert Ascii("@:GAME")[..2] == Ascii("@:");
    assert Drop(Ascii("@:GAME"), 2) == Ascii("GAME");
    assert Ascii("GAME")[..2][0] != Ascii("0:")[0];
    assert Ascii("GAME")[..2][0] != Ascii("@:")[0];
    assert Ascii("W")[0] != Ascii("R")[0];
  }

  // ----- execute: scratch and change directory -------------------------------------------------

  /** An entry the scratch pattern selects: a file whose PETSCII name matches. */
  predicate Selected(e: Entry, pattern: Name, codec: Codec)
  {
    !e.isDir && IsMatch(codec.toPetscii(e.name), pattern)
  }

  /** The entries a scratch removes: the selected ones whose removal succeeds, in directory order. */
  function Scratched(entries: seq<Entry>, pattern: Name, codec: Codec): (r: seq<Entry>)
    ensures |r| <= |entries|
  {
    if entries == [] then []
    else
      var last := entries[|entries| - 1];
      Scratched(entries[..|entries| - 1], pattern, codec)
      + (if Selected(last, pattern, codec) && last.removable then [last] else [])
  }

  /** A scratch removes exactly the selected entries that can be removed. */
  lemma {:induction false} ScratchedExactly(entries: seq<Entry>, pattern: Name, codec: Codec, e: Entry)
    ensures e in Scratched(entries, pattern, codec) <==>
            e in entries && Selected(e, pattern, codec) && e.removable
  {
    if entries != [] {
      var init := entries[..|entries| - 1];
      ScratchedExactly(init, pattern, codec, e);
      assert entries == init + [entries[|entries| - 1]];
    }
  }

  /** The pattern `*` scratches every removable file. */
  lemma ScratchStar(entries: seq<Entry>, codec: Codec, e: Entry)
    requires e in entries && !e.isDir && e.removable
    ensures e in Scratched(entries, Ascii("*"), codec)
  {
    assert At(Ascii("*"), 0) == STAR;
    MatchStar(codec.toPetscii(e.name), Ascii("*"), 0);
    ScratchedExactly(entries, Ascii("*"), codec, e);
  }

  /** What `set_cwd` leads to: the status code and the current directory afterwards. */
  datatype CwdChange = CwdChange(status: byte, cwd: Path)

  /**
   * `set_cwd`: a leading `:` or blank is dropped; an unresolvable path is
   * a syntax error; the current directory moves to a location that exists
   * and is a directory or readable, else the file is not found.
   */
  function PlanCwd(fs: Fs, cwd: Path, path: Name, codec: Codec): CwdChange
  {
    match Cd(fs, cwd, CwdName(path, codec))
    case None => CwdChange(ST_SYNTAX_ERROR_31, cwd)
    case Some(p) =>
      var n := NodeAt(fs, p);
      if n.present && (n.isDir || SourceStream(n, In).Some?) then CwdChange(ST_OK, p)
      else CwdChange(ST_FILE_NOT_FOUND, cwd)
  }

  /** The location name `set_cwd` looks up: without a leading `:` or blank, converted to UTF-8. */
  function CwdName(path: Name, codec: Codec): Name
  {
    codec.toUtf8(if StartsWith(path, Ascii(":")) || StartsWith(path, Ascii(" ")) then Drop(path, 1) else path)
  }

  /**
   * The directory changes only on success; it succeeds exactly when the
   * path resolves to an existing location that is a directory or can be
   * read, and an unresolvable path is the only syntax error.
   */
  lemma CwdChangeSucceeds(fs: Fs, cwd: Path, path: Name, codec: Codec)
    ensures var c := PlanCwd(fs, cwd, path, codec);
            var p := Cd(fs, cwd, CwdName(path, codec));
            (c.status != ST_OK ==> c.cwd == cwd) &&
            (c.status == ST_OK <==> p.Some? && NodeAt(fs, p.value).present &&
                                    (NodeAt(fs, p.value).isDir || NodeAt(fs, p.value).readStream.Some?)) &&
            (c.status == ST_OK ==> c.cwd == p.value) &&
            (c.status == ST_SYNTAX_ERROR_31 <==> p.None?)
  {
  }

  /** Scratching one more entry appends it when it is selected and can be removed. */
  lemma ScratchedStep(entries: seq<Entry>, i: nat, pattern: Name, codec: Codec)
    requires i < |entries|
    ensures var e := entries[i];
            Scratched(entries[..i + 1], pattern, codec)
            == Scratched(entries[..i], pattern, codec) + (if Selected(e, pattern, codec) && e.removable then [e] else [])
  {
    assert entries[..i + 1][..i] == entries[..i];
  }

  /** One more removal moves a one-byte counter on by one, wrapping at 256. */
  lemma CountStep(m: nat)
    ensures (m % 256 + 1) % 256 == (m + 1) % 256
  {
    if m % 256 == 255 {
      assert m + 1 == 256 * (m / 256 + 1);
    } else {
      assert m + 1 == 256 * (m / 256) + (m % 256 + 1);
    }
  }

  // ----- the drive ------------------------------------------------------------------------------

  /** The number of occupied slots. */
  function OpenCount(slots: seq<Channel?>): (n: nat)
    ensures n <= |slots|
  {
    if slots == [] then 0 else (if slots[0] != null then 1 else 0) + OpenCount(slots[1..])
  }

  /** Filling or emptying one slot moves the count of occupied slots by one. */
  lemma {:induction false} OpenCountUpdate(slots: seq<Channel?>, i: nat, c: Channel?)
    requires i < |slots|
    ensures OpenCount(slots[i := c]) ==
            OpenCount(slots) - (if slots[i] != null then 1 else 0) + (if c != null then 1 else 0)
  {
    if i > 0 {
      OpenCountUpdate(slots[1..], i - 1, c);
      assert slots[i := c][1..] == slots[1..][i - 1 := c];
    }
  }

  /** No slot is occupied exactly when the count is zero. */
  lemma {:induction false} OpenCountZero(slots: seq<Channel?>)
    ensures OpenCount(slots) == 0 <==> forall i :: 0 <= i < |slots| ==> slots[i] == null
  {
    if slots != [] {
      OpenCountZero(slots[1..]);
      if OpenCount(slots) == 0 {
        forall i | 0 <= i < |slots|
          ensures slots[i] == null
        {
          if i > 0 {
            assert slots[i] == slots[1..][i - 1];
          }
        }
      }
      if forall i :: 0 <= i < |slots| ==> slots[i] == null {
        assert slots[0] == null;
        forall i | 0 <= i < |slots| - 1
          ensures slots[1..][i] == null
        {
          assert slots[1..][i] == slots[i + 1];
        }
      }
    }
  }

  class Drive {
    /** The device number, shown in the listing header. */
    const id: byte
    /** The product identification, the splash status message and the default listing title. */
    const productId: Name
    const codec: Codec
    const channels: array<Channel?>
    /** `m_numOpenChannels`. */
    var numOpen: nat
    var statusCode: byte
    var statusTrk: byte
    var cwd: Path
    ghost var Repr: set<object>

    ghost predicate Valid()
      reads this, Repr
    {
      this in Repr && channels in Repr && channels.Length == CHANNELS &&
      (forall i :: 0 <= i < CHANNELS && channels[i] != null ==>
         channels[i] in Repr && channels[i].data in Repr && channels[i].Valid()) &&
      (forall i, j :: 0 <= i < j < CHANNELS && channels[i] != null && channels[j] != null ==>
         channels[i] != channels[j] && channels[i].data != channels[j].data) &&
      numOpen == OpenCount(channels[..])
    }

    /** The objects an operation on one channel may change. */
    ghost function Slot(channel: nat): set<object>
      reads this, channels
      requires channel < channels.Length
    {
      if channels[channel] != null then {channels[channel], channels[channel].data} else {}
    }

    constructor (id: byte, productId: Name, codec: Codec)
      ensures Valid() && fresh(Repr)
      ensures this.id == id && this.productId == productId && this.codec == codec
      ensures cwd == Ascii("/") && statusCode == ST_SPLASH && statusTrk == 0 && numOpen == 0
      ensures forall i :: 0 <= i < CHANNELS ==> channels[i] == null
    {
      this.id, this.productId, this.codec := id, productId, codec;
      channels := new Channel?[CHANNELS](_ => null);
      cwd := Ascii("/");
      statusCode, statusTrk := ST_SPLASH, 0;
      numOpen := 0;
      Repr := {this, channels};
      new;
      OpenCountZero(channels[..]);
    }

    /** `setStatusCode`. */
    method SetStatusCode(code: byte, trk: byte)
      modifies this`statusCode, this`statusTrk
      ensures statusCode == code && statusTrk == trk
    {
      statusCode, statusTrk := code, trk;
    }

    /** `hasError`: among the codes with a message, every one but OK, the scratch report and the splash. */
    predicate HasError()
      reads this
      ensures IsKnown(statusCode) ==> (HasError() <==> statusCode !in {ST_OK, ST_SCRATCHED, ST_SPLASH})
    {
      IsError(statusCode)
    }

    /**
     * `getStatus`: the status line, cut to fit a buffer of `bufferSize`
     * bytes with its terminator; reading it resets the status to OK.
     */
    method GetStatus(bufferSize: nat) returns (line: Name)
      requires bufferSize < 256
      modifies this`statusCode, this`statusTrk
      ensures line == Truncate(StatusLine(old(statusCode), old(statusTrk), productId), bufferSize)
      ensures statusCode == ST_OK && statusTrk == 0 && !HasError()
    {
      line := Truncate(StatusLine(statusCode, statusTrk, productId), bufferSize);
      statusCode, statusTrk := ST_OK, 0;
    }

    /** `open`. */
    method Open(channel: nat, pt: seq<Name>, fs: Fs)
      requires Valid() && channel < CHANNELS && |pt| >= 1
      modifies this`numOpen, this`Repr, this`statusCode, this`statusTrk, this`cwd, channels
      ensures Valid() && fresh(Repr - old(Repr))
      ensures var plan := PlanOpen(fs, old(cwd), old(channels[channel]) != null, channel, pt, codec);
              statusCode == plan.status && statusTrk == 0 && cwd == plan.cwd &&
              (plan.handler == NoHandler ==> channels[..] == old(channels[..]) && numOpen == old(numOpen)) &&
              (plan.handler != NoHandler ==>
                 channels[..] == old(channels[..])[channel := channels[channel]] &&
                 numOpen == old(numOpen) + 1 && channels[channel] != null && fresh(channels[channel]))
      ensures var plan := PlanOpen(fs, old(cwd), old(channels[channel]) != null, channel, pt, codec);
              var c := channels[channel];
              (plan.handler.DirChannel? ==>
                 var n := NodeAt(fs, plan.handler.dir);
                 c.kind == DirHandler(DirSource(n.media, n.children, productId, id, codec)) &&
                 c.headers == InitialHeaders(n.media, plan.handler.dir, fs.sdRunning, codec) &&
                 c.headerLine == 1 && c.cursor == 0 && c.len == 0 && c.ptr == 0) &&
              (plan.handler.FileChannel? ==>
                 c.kind == FileHandler(plan.handler.mode) && c.stream == plan.handler.stream &&
                 c.fixLoadAddress == plan.handler.fix && c.len == 0 && c.ptr == 0)
    {
      var req := ParseOpen(channel, pt);
      if |req.name| == 0 {
        SetStatusCode(ST_SYNTAX_ERROR_33, 0);
      } else if channels[channel] != null {
        SetStatusCode(ST_NO_CHANNEL, 0);
      } else if Located(fs, cwd, channel, pt, codec).None? {
        // the lookup's null result: refused rather than dereferenced
        SetStatusCode(ST_FILE_NOT_FOUND, 0);
      } else {
        var p := Located(fs, cwd, channel, pt, codec).value;
        var f := NodeAt(fs, p);
        var asFile := true;
        if f.isDir {
          if req.mode == In {
            if |f.children| > 0 {
              OpenListing(channel, p, f, fs.sdRunning);
              asFile := false;
            } else {
              // the directory cannot be listed: read it as a file
              cwd := p;
            }
          } else {
            SetStatusCode(ST_WRITE_PROTECT, 0);
            asFile := false;
          }
        }
        if asFile {
          OpenFile(channel, f, req);
        }
      }
    }

    /** The listing branch of `open`: a directory channel for the directory `f` at `p`, which becomes the current directory. */
    method OpenListing(channel: nat, p: Path, f: Node, sdRunning: bool)
      requires Valid() && channel < CHANNELS && channels[channel] == null
      modifies this`numOpen, this`Repr, this`statusCode, this`statusTrk, this`cwd, channels
      ensures Valid() && fresh(Repr - old(Repr))
      ensures statusCode == ST_OK && statusTrk == 0 && cwd == p
      ensures channels[..] == old(channels[..])[channel := channels[channel]] && numOpen == old(numOpen) + 1
      ensures channels[channel] != null && fresh(channels[channel])
      ensures var c := channels[channel];
              c.kind == DirHandler(DirSource(f.media, f.children, productId, id, codec)) &&
              c.headers == InitialHeaders(f.media, p, sdRunning, codec) &&
              c.headerLine == 1 && c.cursor == 0 && c.len == 0 && c.ptr == 0
    {
      var c := new Channel.OfDir(DirSource(f.media, f.children, productId, id, codec), p, sdRunning);
      Install(channel, c);
      cwd := p;
      SetStatusCode(ST_OK, 0);
    }

    /** The file branch of `open`, for the node `f`. */
    method OpenFile(channel: nat, f: Node, req: Request)
      requires Valid() && channel < CHANNELS && channels[channel] == null
      modifies this`numOpen, this`Repr, this`statusCode, this`statusTrk, this`cwd, channels
      ensures Valid() && fresh(Repr - old(Repr))
      ensures var plan := PlanFile(old(cwd), f, req);
              statusCode == plan.status && statusTrk == 0 && cwd == plan.cwd &&
              (plan.handler == NoHandler ==> channels[..] == old(channels[..]) && numOpen == old(numOpen)) &&
              (plan.handler != NoHandler ==>
                 channels[..] == old(channels[..])[channel := channels[channel]] &&
                 numOpen == old(numOpen) + 1 && channels[channel] != null && fresh(channels[channel]) &&
                 channels[channel].kind == FileHandler(plan.handler.mode) &&
                 channels[channel].stream == plan.handler.stream &&
                 channels[channel].fixLoadAddress == plan.handler.fix &&
                 channels[channel].len == 0 && channels[channel].ptr == 0)
    {
      if req.mode == In && !f.present {
        SetStatusCode(ST_FILE_NOT_FOUND, 0);
      } else if req.mode == Out && f.present && !req.overwrite {
        SetStatusCode(ST_FILE_EXISTS, 0);
      } else {
        var stream := SourceStream(f, req.mode);
        if stream.None? {
          SetStatusCode(ST_DRIVE_NOT_READY, 0);
        } else if req.mode == In && |stream.value.content| == 0 && !f.isDir {
          SetStatusCode(ST_FILE_NOT_FOUND, 0);
        } else if !stream.value.isOpen {
          SetStatusCode(ST_DRIVE_NOT_READY, 0);
        } else {
          var s := stream.value;
          OpenStream(channel, req.mode, s, if f.isDir then BASIC_START else -1);
          if s.hasSubdirs {
            cwd := f.base;
          } else {
            cwd := s.home;
          }
        }
      }
    }

    /** The success path of the file branch: a file handler on the stream `s`, and status OK. */
    method OpenStream(channel: nat, mode: Mode, s: Stream, fix: int)
      requires Valid() && channel < CHANNELS && channels[channel] == null
      modifies this`numOpen, this`Repr, this`statusCode, this`statusTrk, channels
      ensures Valid() && fresh(Repr - old(Repr))
      ensures statusCode == ST_OK && statusTrk == 0
      ensures channels[..] == old(channels[..])[channel := channels[channel]] && numOpen == old(numOpen) + 1
      ensures channels[channel] != null && fresh(channels[channel])
      ensures var c := channels[channel];
              c.kind == FileHandler(mode) && c.stream == s && c.fixLoadAddress == fix && c.len == 0 && c.ptr == 0
    {
      var c := new Channel.OfFile(mode, s, fix);
      Install(channel, c);
      SetStatusCode(ST_OK, 0);
    }

    /** Puts a new handler into an empty slot. */
    method Install(channel: nat, c: Channel)
      requires Valid() && channel < CHANNELS && channels[channel] == null
      requires c !in Repr && c.data !in Repr && c.Valid()
      modifies this`numOpen, this`Repr, channels
      ensures Valid() && Repr == old(Repr) + {c, c.data}
      ensures channels[..] == old(channels[..])[channel := c] && numOpen == old(numOpen) + 1
    {
      OpenCountUpdate(channels[..], channel, c);
      channels[channel] := c;
      numOpen := numOpen + 1;
      Repr := Repr + {c, c.data};
      assert channels[..] == old(channels[..])[channel := c];
    }

    /** `close`: the handler finishes (a file being written flushes) and the slot is emptied. */
    method Close(channel: nat)
      requires Valid() && channel < CHANNELS
      modifies this`numOpen, channels, channels[channel]
      ensures Valid() && Repr == old(Repr)
      ensures channels[..] == old(channels[..])[channel := null]
      ensures old(channels[channel]) == null ==> numOpen == old(numOpen)
      ensures old(channels[channel]) != null ==> numOpen == old(numOpen) - 1
      ensures old(channels[channel]) != null ==> old(channels[channel]).stream == old(channels[channel].Finished())
      ensures forall j :: 0 <= j < CHANNELS && j != channel && channels[j] != null ==>
                channels[j].Finished() == old(channels[j].Finished())
    {
      var c := channels[channel];
      if c != null {
        c.Close();
        OpenCountUpdate(channels[..], channel, null);
        channels[channel] := null;
        if numOpen > 0 {
          numOpen := numOpen - 1;
        }
      }
      assert channels[..] == old(channels[..])[channel := null];
    }

    /** `read`: from the channel's handler, or nothing (and `FILE NOT OPEN` over an OK status) from an empty slot. */
    method Read(channel: nat, n: nat) returns (out: seq<byte>)
      requires Valid() && channel < CHANNELS && n < 256
      modifies this`statusCode, this`statusTrk, Slot(channel)
      ensures Valid() && channels[..] == old(channels[..])
      ensures var c := channels[channel];
              c == null ==>
                out == [] &&
                (old(statusCode) == ST_OK ==> statusCode == ST_FILE_NOT_OPEN && statusTrk == 0) &&
                (old(statusCode) != ST_OK ==> statusCode == old(statusCode) && statusTrk == old(statusTrk))
      ensures var c := channels[channel];
              c != null ==>
                statusCode == old(statusCode) && statusTrk == old(statusTrk) &&
                var avail := if old(c.ptr < c.len) then old(c.data[c.ptr..c.len]) else old(c.NextFill()).bytes;
                out == avail[..Min(n, |avail|)] && c.data[c.ptr..c.len] == avail[|out|..] &&
                c.headers == old(c.headers)
      ensures var c := channels[channel];
              c != null && old(c.ptr < c.len) ==>
                c.stream == old(c.stream) && c.fixLoadAddress == old(c.fixLoadAddress) &&
                c.headerLine == old(c.headerLine) && c.cursor == old(c.cursor)
      ensures var c := channels[channel];
              c != null && old(c.ptr >= c.len) ==>
                var r := old(c.NextFill());
                c.stream == r.stream && c.fixLoadAddress == r.fixLoadAddress &&
                c.headerLine == r.headerLine && c.cursor == r.cursor
    {
      var c := channels[channel];
      if c == null {
        if statusCode == ST_OK {
          SetStatusCode(ST_FILE_NOT_OPEN, 0);
        }
        out := [];
      } else {
        out := c.Read(n);
      }
    }

    /** `write`: to the channel's handler, whose failed flush sets the status; an empty slot takes nothing. */
    method Write(channel: nat, bytes: seq<byte>) returns (k: nat)
      requires Valid() && channel < CHANNELS && |bytes| < 256
      modifies this`statusCode, this`statusTrk, Slot(channel)
      ensures Valid() && channels[..] == old(channels[..])
      ensures var c := channels[channel];
              c == null ==>
                k == 0 &&
                (old(statusCode) == ST_OK ==> statusCode == ST_FILE_NOT_OPEN && statusTrk == 0) &&
                (old(statusCode) != ST_OK ==> statusCode == old(statusCode) && statusTrk == old(statusTrk))
      ensures var c := channels[channel];
              c != null ==>
                var flush := old(c.len) + |bytes| > BUFFER_SIZE;
                (flush && old(c.FlushStatus()) != ST_OK ==>
                   k == 0 && statusCode == old(c.FlushStatus()) && statusTrk == 0) &&
                (!(flush && old(c.FlushStatus()) != ST_OK) ==>
                   k == |bytes| && statusCode == old(statusCode) && statusTrk == old(statusTrk))
      ensures var c := channels[channel];
              c != null ==>
                c.headers == old(c.headers) && c.fixLoadAddress == old(c.fixLoadAddress) &&
                c.headerLine == old(c.headerLine) && c.cursor == old(c.cursor)
      ensures var c := channels[channel];
              c != null && old(c.len) + |bytes| <= BUFFER_SIZE ==>
                c.data[..c.len] == old(c.data[..c.len]) + bytes && c.ptr == old(c.ptr) && c.stream == old(c.stream)
      ensures var c := channels[channel];
              c != null && old(c.len) + |bytes| > BUFFER_SIZE ==>
                c.stream == old(c.Flushed()) &&
                (old(c.FlushStatus()) != ST_OK ==> c.data[..c.len] == old(c.data[..c.len]) && c.ptr == old(c.ptr)) &&
                (old(c.FlushStatus()) == ST_OK ==> c.data[..c.len] == bytes && c.ptr == 0)
    {
      var c := channels[channel];
      if c == null {
        if statusCode == ST_OK {
          SetStatusCode(ST_FILE_NOT_OPEN, 0);
        }
        k := 0;
      } else {
        var st;
        k, st := c.Write(bytes);
        if st != ST_OK {
          SetStatusCode(st, 0);
        }
      }
    }

    /**
     * `execute`: `S:` scratches the files of the current directory matching
     * the pattern and reports how many (modulo 256) as the status track;
     * `CD` changes the directory; anything else is a syntax error.
     */
    method Execute(command: Name, fs: Fs) returns (removed: seq<Entry>)
      requires |command| < 256
      modifies this`statusCode, this`statusTrk, this`cwd
      ensures StartsWith(command, Ascii("S:")) ==>
                var dir := NodeAt(fs, old(cwd));
                removed == (if dir.isDir then Scratched(dir.children, command[2..], codec) else [])
      ensures StartsWith(command, Ascii("S:")) ==>
                statusCode == ST_SCRATCHED && statusTrk == |removed| % 256
      ensures StartsWith(command, Ascii("S:")) ==> cwd == old(cwd)
      ensures !StartsWith(command, Ascii("S:")) && StartsWith(command, Ascii("CD")) ==>
                var c := PlanCwd(fs, old(cwd), Drop(command, 2), codec);
                removed == [] && statusCode == c.status && statusTrk == 0 && cwd == c.cwd
      ensures !StartsWith(command, Ascii("S:")) && !StartsWith(command, Ascii("CD")) ==>
                removed == [] && statusCode == ST_SYNTAX_ERROR_31 && statusTrk == 0 && cwd == old(cwd)
    {
      removed := [];
      if StartsWith(command, Ascii("S:")) {
        var n: byte := 0;
        var dir := NodeAt(fs, cwd);
        if dir.isDir {
          removed, n := Scratch(dir.children, command[2..]);
        }
        SetStatusCode(ST_SCRATCHED, n);
      } else if StartsWith(command, Ascii("CD")) {
        SetCwd(Drop(command, 2), fs);
      } else {
        SetStatusCode(ST_SYNTAX_ERROR_31, 0);
      }
    }

    /** The scratch loop of `execute`: the entries removed, and their number as the one-byte counter. */
    method Scratch(entries: seq<Entry>, pattern: Name) returns (removed: seq<Entry>, n: byte)
      requires |pattern| < 256
      ensures removed == Scratched(entries, pattern, codec) && n == |removed| % 256
    {
      removed, n := [], 0;
      var i := 0;
      while i < |entries|
        invariant 0 <= i <= |entries|
        invariant removed == Scratched(entries[..i], pattern, codec)
        invariant n == |removed| % 256
      {
        var e := entries[i];
        ScratchedStep(entries, i, pattern, codec);
        var take := false;
        if !e.isDir {
          var hit := Matches(codec.toPetscii(e.name), pattern);
          take := hit && e.removable;
        }
        assert take == (Selected(e, pattern, codec) && e.removable);
        if take {
          CountStep(|removed|);
          n := (n + 1) % 256;
          removed := removed + [e];
        }
        i := i + 1;
      }
      assert entries[..i] == entries;
    }

    /** `set_cwd`. */
    method SetCwd(path: Name, fs: Fs)
      modifies this`statusCode, this`statusTrk, this`cwd
      ensures var c := PlanCwd(fs, old(cwd), path, codec);
              statusCode == c.status && statusTrk == 0 && cwd == c.cwd
    {
      var p := path;
      if StartsWith(p, Ascii(":")) || StartsWith(p, Ascii(" ")) {
        p := Drop(p, 1);
      }
      p := codec.toUtf8(p);
      var n := Cd(fs, cwd, p);
      if n.Some? {
        var node := NodeAt(fs, n.value);
        if node.present && (node.isDir || SourceStream(node, In).Some?) {
          cwd := n.value;
          SetStatusCode(ST_OK, 0);
        } else {
          SetStatusCode(ST_FILE_NOT_FOUND, 0);
        }
      } else {
        SetStatusCode(ST_SYNTAX_ERROR_31, 0);
      }
    }

    /** `reset`: the splash status, and every channel closed; the current directory is kept. */
    method Reset()
      requires Valid()
      modifies this`statusCode, this`statusTrk, this`numOpen, channels, Repr - {this}
      ensures Valid() && Repr == old(Repr)
      ensures statusCode == ST_SPLASH && statusTrk == 0 && numOpen == 0
      ensures forall i :: 0 <= i < CHANNELS ==> channels[i] == null
      ensures cwd == old(cwd)
      ensures forall i :: 0 <= i < CHANNELS && old(channels[i]) != null ==>
                old(channels[i]).stream == old(channels[i].Finished())
    {
      SetStatusCode(ST_SPLASH, 0);
      var i := 0;
      while i < CHANNELS
        invariant 0 <= i <= CHANNELS
        invariant Valid() && Repr == old(Repr)
        invariant forall j :: 0 <= j < i ==> channels[j] == null
        invariant statusCode == ST_SPLASH && statusTrk == 0 && cwd == old(cwd)
        invariant forall j :: 0 <= j < i && old(channels[j]) != null ==>
                    old(channels[j]).stream == old(channels[j].Finished())
        invariant forall j :: i <= j < CHANNELS ==> channels[j] == old(channels[j])
        invariant forall j :: i <= j < CHANNELS && channels[j] != null ==>
                    channels[j].Finished() == old(channels[j].Finished())
      {
        if channels[i] != null {
          Close(i);
        }
        i := i + 1;
      }
      numOpen := 0;
      OpenCountZero(channels[..]);
    }
  }
}
