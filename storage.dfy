/**
 * The collaborators the drive reaches through narrow interfaces: byte
 * streams (`MStream`), file-system locations (`MFile`) and the string
 * utilities (`mstr`). The drive is handed them as values; nothing here
 * says how a real file system or network backend computes them.
 */
module Storage {
  import opened Bytes

  datatype Mode = In | Out

  /** A location URL. */
  type Path = Name

  /**
   * An open `MStream`. `content` holds the bytes behind it and `pos` the
   * read position; `chunk` is the most one read call delivers (the model
   * lets any stream return short reads, and takes 0 for a stream whose read
   * calls deliver nothing before its end) and `room` how many more bytes a
   * write accepts. `hasSubdirs` says whether its backend has sub-directories,
   * and `home` is the location of the file the stream's own URL names.
   * `mode` is the direction the stream itself reports; a stream inside a
   * disk image need not report the one it was requested with.
   */
  datatype Stream = Stream(content: seq<byte>, pos: nat, chunk: nat, room: nat,
                           isOpen: bool, hasSubdirs: bool, home: Path, mode: Mode)

  /** The bytes left to read. */
  function Remaining(s: Stream): nat
  {
    if s.pos < |s.content| then |s.content| - s.pos else 0
  }

  /** `eos()`. */
  predicate Eos(s: Stream)
  {
    Remaining(s) == 0
  }

  /** The number of bytes `read(buf, want)` delivers. */
  function ReadCount(s: Stream, want: nat): (k: nat)
    ensures k <= want && k <= Remaining(s)
    ensures k == 0 <==> want == 0 || Eos(s) || s.chunk == 0
  {
    Min(want, Min(s.chunk, Remaining(s)))
  }

  /** The next `k` bytes of the stream. */
  function Segment(s: Stream, k: nat): (r: seq<byte>)
    requires k <= Remaining(s)
    ensures |r| == k
  {
    if k == 0 then [] else s.content[s.pos..s.pos + k]
  }

  /** The stream after `k` bytes were read. */
  function Advance(s: Stream, k: nat): (r: Stream)
    requires k <= Remaining(s)
    ensures Remaining(r) == Remaining(s) - k
  {
    s.(pos := s.pos + k)
  }

  /** Two reads in a row deliver the bytes one longer read would. */
  lemma SegmentsJoin(s: Stream, a: nat, b: nat)
    requires a + b <= Remaining(s)
    ensures Segment(s, a) + Segment(Advance(s, a), b) == Segment(s, a + b)
  {
  }

  /** The number of bytes `write(buf, |bytes|)` accepts. */
  function Accepted(s: Stream, bytes: seq<byte>): (k: nat)
    ensures k <= |bytes| && k <= s.room
    ensures k < |bytes| <==> s.room < |bytes|
  {
    Min(|bytes|, s.room)
  }

  /** The stream after `write(buf, |bytes|)`: the accepted prefix is appended. */
  function Written(s: Stream, bytes: seq<byte>): (r: Stream)
    ensures r.content == s.content + bytes[..Accepted(s, bytes)]
    ensures r.room + Accepted(s, bytes) == s.room
    ensures r.pos == s.pos
  {
    var k := Accepted(s, bytes);
    s.(content := s.content + bytes[..k], room := s.room - k)
  }

  /** A directory entry as `getNextFileInDir` yields it; `removable` is what its `remove()` answers. */
  datatype Entry = Entry(name: Name, extension: Name, isDir: bool, blocks: nat,
                         isPetscii: bool, removable: bool)

  /** What a listing shows about the directory itself. */
  datatype Media = Media(host: Name, path: Name, archive: Name, image: Name, header: Name,
                         blocksFree: nat, availableSpace: nat)

  /**
   * What an `MFile` for one location answers: `exists()`, `isDirectory()`,
   * `base()` (its parent), the listing data, its entries in iteration
   * order, and `getSourceStream` for each mode (None for a null stream).
   */
  datatype Node = Node(present: bool, isDir: bool, base: Path, media: Media,
                       children: seq<Entry>, readStream: Option<Stream>,
                       writeStream: Option<Stream>)

  /**
   * The file system as the drive sees it: a node per location (a location
   * without one does not exist), `cd` of a name relative to a location
   * (a missing pair is a null result), and whether the SD card is mounted.
   */
  datatype Fs = Fs(nodes: map<Path, Node>, links: map<(Path, Name), Path>, sdRunning: bool)

  const NoMedia := Media([], [], [], [], [], 0, 0)

  /** The node of a location nothing is stored at. */
  const Absent := Node(false, false, [], NoMedia, [], None, None)

  function NodeAt(fs: Fs, p: Path): Node
  {
    if p in fs.nodes then fs.nodes[p] else Absent
  }

  /** `cwd->cd(name)`. */
  function Cd(fs: Fs, cwd: Path, name: Name): Option<Path>
  {
    if (cwd, name) in fs.links then Some(fs.links[(cwd, name)]) else None
  }

  /** `getSourceStream(mode)`. */
  function SourceStream(n: Node, mode: Mode): Option<Stream>
  {
    if mode == In then n.readStream else n.writeStream
  }

  /** The `mstr` conversions the drive calls: character sets and byte-count formatting. */
  datatype Codec = Codec(toPetscii: Name -> Name, toUtf8: Name -> Name, formatBytes: nat -> Name)
}
