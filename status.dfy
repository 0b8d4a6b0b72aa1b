/** The drive's status codes and the status line the bus master reads from channel 15. */
module Status {
  import opened Bytes

  const ST_OK: byte := 0
  const ST_SCRATCHED: byte := 1
  const ST_WRITE_ERROR: byte := 25
  const ST_WRITE_PROTECT: byte := 26
  const ST_SYNTAX_ERROR_31: byte := 31
  const ST_SYNTAX_ERROR_33: byte := 33
  const ST_FILE_NOT_OPEN: byte := 61
  const ST_FILE_NOT_FOUND: byte := 62
  const ST_FILE_EXISTS: byte := 63
  const ST_FILE_TYPE_MISMATCH: byte := 64
  const ST_NO_CHANNEL: byte := 70
  const ST_SPLASH: byte := 73
  const ST_DRIVE_NOT_READY: byte := 74

  /** The codes that have their own entry in the message table. */
  predicate IsKnown(code: byte)
  {
    code in {ST_OK, ST_SCRATCHED, ST_WRITE_ERROR, ST_WRITE_PROTECT, ST_SYNTAX_ERROR_31,
             ST_SYNTAX_ERROR_33, ST_FILE_NOT_OPEN, ST_FILE_NOT_FOUND, ST_FILE_EXISTS,
             ST_FILE_TYPE_MISMATCH, ST_NO_CHANNEL, ST_SPLASH, ST_DRIVE_NOT_READY}
  }

  /** The message text of a status code; the splash code shows the product identification. */
  function Message(code: byte, productId: Name): Name
  {
    match code
    case 0 => Ascii(" OK")
    case 1 => Ascii("FILES SCRATCHED")
    case 25 => Ascii("WRITE ERROR")
    case 26 => Ascii("WRITE PROTECT")
    case 31 => Ascii("SYNTAX ERROR")
    case 33 => Ascii("SYNTAX ERROR")
    case 61 => Ascii("FILE NOT OPEN")
    case 62 => Ascii("FILE NOT FOUND")
    case 63 => Ascii("FILE EXISTS")
    case 64 => Ascii("FILE TYPE MISMATCH")
    case 70 => Ascii("NO CHANNEL")
    case 73 => productId
    case 74 => Ascii("DRIVE NOT READY")
    case _ => Ascii("UNKNOWN ERROR")
  }

  /** `hasError`: codes from 20 up denote errors, except the splash code. */
  predicate IsError(code: byte)
  {
    code >= 20 && code != ST_SPLASH
  }

  /** `"%02d,%s,%02d,00\r"` of code, message and track. */
  function StatusLine(code: byte, trk: byte, productId: Name): Name
  {
    Decimal2(code) + [COMMA] + Message(code, productId) + [COMMA] + Decimal2(trk) + Ascii(",00\r")
  }

  /** What `snprintf` leaves in a caller buffer of `size` bytes (without the terminator). */
  function Truncate(s: Name, size: nat): (r: Name)
    ensures |r| <= |s| && r == s[..|r|]
    ensures |r| == if size == 0 then 0 else Min(|s|, size - 1)
  {
    if size == 0 then [] else s[..Min(|s|, size - 1)]
  }

  /** Among the codes with a message, all but OK, the scratch report and the splash are errors. */
  lemma KnownErrors(code: byte)
    requires IsKnown(code)
    ensures IsError(code) <==> code !in {ST_OK, ST_SCRATCHED, ST_SPLASH}
  {
  }

  lemma MessageOfUnknown(code: byte, productId: Name)
    requires !IsKnown(code)
    ensures Message(code, productId) == Ascii("UNKNOWN ERROR")
  {
  }

  /**
   * The status line reads back: the code and the track are decimal fields
   * at its two ends, the code followed by a comma, and the line closes with
   * ",00" and a carriage return.
   */
  lemma StatusLineFields(code: byte, trk: byte, productId: Name)
    ensures var line := StatusLine(code, trk, productId);
            var c := Decimal2(code);
            var t := Decimal2(trk);
            |line| == |c| + |Message(code, productId)| + |t| + 6 &&
            line[..|c|] == c && ParseDecimal(line[..|c|]) == code &&
            line[|c|] == COMMA &&
            line[|line| - 4 - |t| - 1] == COMMA &&
            line[|line| - 4 - |t|..|line| - 4] == t && ParseDecimal(t) == trk &&
            line[|line| - 4..] == Ascii(",00\r")
  {
    var line := StatusLine(code, trk, productId);
    var c := Decimal2(code);
    var t := Decimal2(trk);
    var m := Message(code, productId);
    assert line == c + ([COMMA] + m + [COMMA]) + t + Ascii(",00\r");
    assert line[..|c|] == c;
    ParseDecimalOfDecimal2(code);
    ParseDecimalOfDecimal2(trk);
  }
}
