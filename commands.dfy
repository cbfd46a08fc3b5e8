/**
 * `ParseCommand`: the console's line interpreter. In run mode it accepts
 * only `config` and `help`/`?`; in configuration mode it matches the line
 * against a fixed list of case-sensitive command prefixes, validates the
 * arguments and writes the EEPROM, and on `exit` reconciles the runtime
 * globals with the store if anything was written.
 */
module Commands {
  import opened CLib
  import opened Wrappers
  import opened Store
  import opened AddressMap
  import opened Globals
  import opened Config

  /** The status codes of a command; the last two print no status line. */
  datatype Status = Unknown | Ok | InvalidData | InvalidFrequency | InvalidLevel | Silent | FrefShown
  {
    /** The number `comStatus` holds. */
    function Code(): int
    {
      match this
      case Unknown => 0
      case Ok => 1
      case InvalidData => 2
      case InvalidFrequency => 3
      case InvalidLevel => 4
      case Silent => 5
      case FrefShown => 99
    }

    /** Whether the final `switch` prints a status line for this code. */
    predicate PrintsLine()
    {
      0 <= Code() <= 4
    }
  }

  /** A whitespace-delimited word (`%s`), as bytes, and what `strtod` makes of it. */
  datatype Word = Word(text: seq<byte>, number: real)

  /**
   * What the formatted scans read from the text that follows the matched
   * command prefix: the leading integers (`%d`, `%d %d`) and the first word.
   */
  datatype Args = Args(ints: seq<int>, word: Option<Word>)

  /** The configuration-mode commands, one per prefix. */
  datatype Command =
    | Exit | WrFrst | WrHw | WrWarmup | WrEcho | WrDefaults | WrFreq | WrCal | WrTxdly
    | WrBcn | WrLoc | WrPwr | RdFref | RdCfg | Help | NoMatch

  /** `strncmp(prefix, line, strlen(prefix)) == 0`. */
  predicate StartsWith(line: string, prefix: string)
  {
    |prefix| <= |line| && line[..|prefix|] == prefix
  }

  /** The literal each command is recognised by (`help` also by `?`). */
  function Prefix(cmd: Command): string
    requires cmd != NoMatch
  {
    match cmd
    case Exit => "exit"
    case WrFrst => "wr frst "
    case WrHw => "wr hw "
    case WrWarmup => "wr warmup "
    case WrEcho => "wr echo "
    case WrDefaults => "wr defaults"
    case WrFreq => "wr freq "
    case WrCal => "wr cal "
    case WrTxdly => "wr txdly "
    case WrBcn => "wr bcn "
    case WrLoc => "wr loc "
    case WrPwr => "wr pwr "
    case RdFref => "rd fref"
    case RdCfg => "rd cfg"
    case Help => "help"
  }

  /** The configuration-mode prefix tests, in the order the interpreter makes them. */
  function Classify(line: string): Command
  {
    if StartsWith(line, "exit") then Exit
    else if StartsWith(line, "wr frst ") then WrFrst
    else if StartsWith(line, "wr hw ") then WrHw
    else if StartsWith(line, "wr warmup ") then WrWarmup
    else if StartsWith(line, "wr echo ") then WrEcho
    else if StartsWith(line, "wr defaults") then WrDefaults
    else if StartsWith(line, "wr freq ") then WrFreq
    else if StartsWith(line, "wr cal ") then WrCal
    else if StartsWith(line, "wr txdly ") then WrTxdly
    else if StartsWith(line, "wr bcn ") then WrBcn
    else if StartsWith(line, "wr loc ") then WrLoc
    else if StartsWith(line, "wr pwr ") then WrPwr
    else if StartsWith(line, "rd fref") then RdFref
    else if StartsWith(line, "rd cfg") then RdCfg
    else if StartsWith(line, "help") || StartsWith(line, "?") then Help
    else NoMatch
  }

  // The per-field acceptance tests

  predicate RefStartAccepted(v: int) { 26990000 <= v <= 27010000 }
  predicate HardwareAccepted(t1: int, lcd: int) { 0 <= t1 <= 2 && 0 <= lcd <= 4 }
  predicate WarmUpAccepted(v: int) { 0 <= v <= 0xFF }
  predicate EchoAccepted(v: int) { 0 <= v <= 1 }
  predicate FrequencyAccepted(f: real) { 100000.0 <= f }
  predicate CalibAccepted(v: int) { 1 <= v <= 0xFF }
  predicate TxDelayAccepted(v: int) { 1 <= v <= 0xFF }

  /** The interpreter's power test, with C's `%`. */
  predicate PowerAccepted(v: int)
  {
    v >= 0 && v <= 60 && (Rem(v, 10) == 0 || Rem(v - 3, 10) == 0 || Rem(v - 7, 10) == 0)
  }

  /** `toupper(c)` of a (on this target unsigned) `char`, passed on as a `uint8_t`. */
  function UpperByte(c: byte): byte
  {
    ToByte(ToUpper(c))
  }

  /** The `size` bytes written for a call sign or locator: the word upper-cased, then NULs. */
  function Padded(token: seq<byte>, size: nat): seq<byte>
  {
    seq<byte>(size, i requires 0 <= i < size => if i < |token| then UpperByte(token[i]) else 0)
  }

  /** What a store-only command does: its status and the new store. */
  datatype Effect = Effect(status: Status, cells: Cells)

  /** A command that writes one integer, as one byte, when it lies in [lo, hi]. */
  function SetByte(args: Args, cells: Cells, key: int, lo: byte, hi: byte): Effect
  {
    if |args.ints| < 1 then Effect(InvalidData, cells)
    else if lo <= args.ints[0] <= hi then Effect(Ok, cells[key := ByteCell(args.ints[0])])
    else Effect(InvalidData, cells)
  }

  /** Writes a call sign or locator of capacity `size`: padded bytes, then a NUL at the end. */
  function SetText(args: Args, cells: Cells, base: int, size: nat): Effect
    requires size > 0
  {
    match args.word
    case None => Effect(InvalidData, cells)
    case Some(w) =>
      if |w.text| < size then Effect(Ok, PutText(cells, base, Padded(w.text, size))[base + size - 1 := ByteCell(0)])
      else Effect(InvalidData, cells)
  }

  /** The configuration-mode commands other than `exit`, on the store `cells`. */
  function Execute(cmd: Command, args: Args, cells: Cells): Effect
    requires cmd != Exit
  {
    match cmd
    case WrFrst =>
      if |args.ints| < 1 then Effect(InvalidData, cells)
      else if RefStartAccepted(args.ints[0]) then Effect(Ok, cells[HW_RefStartFreq := IntCell(args.ints[0])])
      else Effect(InvalidFrequency, cells)
    case WrHw =>
      if |args.ints| < 2 then Effect(InvalidData, cells)
      else if HardwareAccepted(args.ints[0], args.ints[1]) then
        Effect(Ok, cells[HW_T1 := ByteCell(args.ints[0])][HW_DisplayMode := ByteCell(args.ints[1])])
      else Effect(InvalidData, cells)
    case WrWarmup => SetByte(args, cells, HW_WarmUp, 0, 0xFF)
    case WrEcho => SetByte(args, cells, GPS_Echo, 0, 1)
    case WrDefaults => Effect(Ok, Defaults(cells))
    case WrFreq =>
      (match args.word
       case None => Effect(InvalidData, cells)
       case Some(w) =>
         if FrequencyAccepted(w.number) then Effect(Ok, cells[BEACON_Frequency := DoubleCell(w.number)])
         else Effect(InvalidFrequency, cells))
    case WrCal => SetByte(args, cells, BEACON_CalibInterval, 1, 0xFF)
    case WrTxdly => SetByte(args, cells, BEACON_Interval, 1, 0xFF)
    case WrBcn => SetText(args, cells, BEACON_Call, CallSize)
    case WrLoc => SetText(args, cells, COMMON_Locator, LocatorSize)
    case WrPwr =>
      if |args.ints| < 1 then Effect(InvalidData, cells)
      else if PowerAccepted(args.ints[0]) then Effect(Ok, cells[BEACON_WSPRPower := ByteCell(args.ints[0])])
      else Effect(InvalidData, cells)
    case RdFref => Effect(FrefShown, cells)
    case RdCfg => Effect(Silent, cells)
    case Help => Effect(Silent, cells)
    case NoMatch => Effect(Unknown, cells)
  }

  /** `wr defaults`: the eight hardware, GPS, beacon and WSPR defaults, in the order written. */
  function Defaults(cells: Cells): Cells
  {
    cells[HW_RefStartFreq := IntCell(27000000)]
         [HW_T1 := ByteCell(0)]
         [HW_DisplayMode := ByteCell(1)]
         [HW_WarmUp := ByteCell(0)]
         [GPS_Echo := ByteCell(0)]
         [BEACON_CalibInterval := ByteCell(5)]
         [BEACON_Interval := ByteCell(2)]
         [BEACON_WSPRPower := ByteCell(13)]
  }

  /** The values `rd cfg` reports, each read with that command's own default. */
  datatype CfgReport = CfgReport(
    refStartFreq: int,
    t1: byte,
    displayMode: byte,
    warmUp: byte,
    gpsEcho: byte,
    frequency: real,
    interval: byte,
    calibInterval: byte,
    call: seq<byte>,
    locator: seq<byte>,
    wsprPower: byte)

  function Report(cells: Cells): CfgReport
  {
    CfgReport(
      refStartFreq := ReadInteger(cells, HW_RefStartFreq, 27000000),
      t1 := ReadByte(cells, HW_T1, 0),
      displayMode := ReadByte(cells, HW_DisplayMode, 1),
      warmUp := ReadByte(cells, HW_WarmUp, 0),
      gpsEcho := ReadByte(cells, GPS_Echo, 0),
      frequency := ReadDouble(cells, BEACON_Frequency, 0.0),
      interval := ReadByte(cells, BEACON_Interval, 4),
      calibInterval := ReadByte(cells, BEACON_CalibInterval, 15),
      call := ReadText(cells, BEACON_Call, CallSize, '0' as int)[CallSize - 1 := 0],
      locator := ReadText(cells, COMMON_Locator, LocatorSize, '0' as int)[LocatorSize - 1 := 0],
      wsprPower := ReadByte(cells, BEACON_WSPRPower, 13))
  }

  /** Mode flag, dirty bit, runtime globals and store. */
  datatype Session = Session(configMode: bool, configChanged: bool, rt: RuntimeConfig, cells: Cells)

  /** The next session, the status, the `rd cfg` report if any, and the driver calls made. */
  datatype Reply = Reply(next: Session, status: Status, report: Option<CfgReport>, events: seq<Event>)

  /** One call of `ParseCommand` on the trimmed line `line`. */
  function Step(s: Session, line: string, args: Args): Reply
  {
    if |line| == 0 then Reply(s, Silent, None, [])
    else if !s.configMode then
      if StartsWith(line, "config") then Reply(s.(configMode := true, rt := s.rt.(gpsEcho := 0)), Ok, None, [])
      else if StartsWith(line, "help") || StartsWith(line, "?") then Reply(s, Ok, None, [])
      else Reply(s, Unknown, None, [])
    else
      var cmd := Classify(line);
      if cmd == Exit then
        var rt := s.rt.(gpsEcho := ReadByte(s.cells, GPS_Echo, 0));
        if s.configChanged then
          var r := Reconcile(rt, s.cells);
          Reply(Session(false, false, r.rt, r.cells), Silent, None, r.events)
        else
          Reply(s.(configMode := false, rt := rt), Silent, None, [])
      else
        var e := Execute(cmd, args, s.cells);
        Reply(s.(configChanged := s.configChanged || e.status == Ok, cells := e.cells),
              e.status,
              if cmd == RdCfg then Some(Report(s.cells)) else None,
              [])
  }

  /** Writes the padded word byte by byte, as the `wr bcn` and `wr loc` loops do. */
  method WritePadded(ee: Eeprom, base: int, size: nat, token: seq<byte>)
    modifies ee
    ensures ee.cells == PutText(old(ee.cells), base, Padded(token, size))
  {
    for i := 0 to size
      invariant ee.cells == PutText(old(ee.cells), base, Padded(token, size)[..i])
    {
      assert Padded(token, size)[..i + 1][..i] == Padded(token, size)[..i];
      if i < |token| {
        ee.WriteByte(base + i, UpperByte(token[i]));
      } else {
        ee.WriteByte(base + i, 0);
      }
    }
    assert Padded(token, size)[..size] == Padded(token, size);
  }

  /** The `wr` and `rd` branches of `ParseCommand`, writing through `ee`. */
  method RunCommand(ee: Eeprom, cmd: Command, args: Args) returns (status: Status)
    requires cmd != Exit
    modifies ee
    ensures status == Execute(cmd, args, old(ee.cells)).status
    ensures ee.cells == Execute(cmd, args, old(ee.cells)).cells
  {
    match cmd {
      case WrFrst =>
        status := InvalidData;
        if |args.ints| >= 1 {
          var value := args.ints[0];
          if RefStartAccepted(value) {
            ee.WriteInteger(HW_RefStartFreq, value);
            status := Ok;
          } else {
            status := InvalidFrequency;
          }
        }
      case WrHw =>
        status := InvalidData;
        if |args.ints| >= 2 {
          var value, value1 := args.ints[0], args.ints[1];
          if HardwareAccepted(value, value1) {
            ee.WriteByte(HW_T1, value);
            ee.WriteByte(HW_DisplayMode, value1);
            status := Ok;
          }
        }
      case WrWarmup =>
        status := RunSetByte(ee, args, HW_WarmUp, 0, 0xFF);
      case WrEcho =>
        status := RunSetByte(ee, args, GPS_Echo, 0, 1);
      case WrDefaults =>
        // Hardware
        ee.WriteInteger(HW_RefStartFreq, 27000000);
        ee.WriteByte(HW_T1, 0);
        ee.WriteByte(HW_DisplayMode, 1);
        ee.WriteByte(HW_WarmUp, 0);
        // GPS
        ee.WriteByte(GPS_Echo, 0);
        // Beacon
        ee.WriteByte(BEACON_CalibInterval, 5);
        ee.WriteByte(BEACON_Interval, 2);
        // WSPR
        ee.WriteByte(BEACON_WSPRPower, 13);
        status := Ok;
      case WrFreq =>
        status := InvalidData;
        if args.word.Some? {
          var fr := args.word.value.number;
          if FrequencyAccepted(fr) {
            ee.WriteDouble(BEACON_Frequency, fr);
            status := Ok;
          } else {
            status := InvalidFrequency;
          }
        }
      case WrCal =>
        status := RunSetByte(ee, args, BEACON_CalibInterval, 1, 0xFF);
      case WrTxdly =>
        status := RunSetByte(ee, args, BEACON_Interval, 1, 0xFF);
      case WrBcn =>
        status := RunSetText(ee, args, BEACON_Call, CallSize);
      case WrLoc =>
        status := RunSetText(ee, args, COMMON_Locator, LocatorSize);
      case WrPwr =>
        status := InvalidData;
        if |args.ints| >= 1 {
          var value := args.ints[0];
          if PowerAccepted(value) {
            ee.WriteByte(BEACON_WSPRPower, value);
            status := Ok;
          }
        }
      case RdFref =>
        status := FrefShown;
      case RdCfg =>
        status := Silent;
      case Help =>
        status := Silent;
      case NoMatch =>
        status := Unknown;
    }
  }

  method RunSetByte(ee: Eeprom, args: Args, key: int, lo: byte, hi: byte) returns (status: Status)
    modifies ee
    ensures status == SetByte(args, old(ee.cells), key, lo, hi).status
    ensures ee.cells == SetByte(args, old(ee.cells), key, lo, hi).cells
  {
    status := InvalidData;
    if |args.ints| >= 1 {
      var value := args.ints[0];
      if lo <= value <= hi {
        ee.WriteByte(key, value);
        status := Ok;
      }
    }
  }

  method RunSetText(ee: Eeprom, args: Args, base: int, size: nat) returns (status: Status)
    requires size > 0
    modifies ee
    ensures status == SetText(args, old(ee.cells), base, size).status
    ensures ee.cells == SetText(args, old(ee.cells), base, size).cells
  {
    status := InvalidData;
    if args.word.Some? {
      var token := args.word.value.text;
      if |token| < size {
        WritePadded(ee, base, size, token);
        ee.WriteByte(base + size - 1, 0);   // hard stop
        status := Ok;
      }
    }
  }

  /** The console: mode flag and dirty bit, over the runtime globals and the EEPROM. */
  class Console {
    var configMode: bool
    var configChanged: bool
    const rt: Runtime
    const ee: Eeprom

    /** The dirty bit can only be set in configuration mode. */
    ghost predicate Valid()
      reads this, rt
    {
      rt.Valid() && (!configMode ==> !configChanged)
    }

    function State(): Session
      reads this, rt, rt.call, rt.locator, ee
    {
      Session(configMode, configChanged, rt.Config(), ee.cells)
    }

    constructor (rt: Runtime, ee: Eeprom)
      requires rt.Valid()
      ensures Valid() && this.rt == rt && this.ee == ee
      ensures !configMode && !configChanged
    {
      this.rt := rt;
      this.ee := ee;
      configMode := false;
      configChanged := false;
    }

    /**
     * `ParseCommand(line)` for the trimmed line `line`; `configPrompt` tells
     * which prompt follows ("RFzero config>" or "RFzero>").
     */
    method ParseCommand(line: string, args: Args) returns (status: Status, report: Option<CfgReport>, configPrompt: bool)
      requires Valid()
      modifies this, rt, rt.call, rt.locator, ee
      ensures Valid()
      ensures var r := Step(old(State()), line, args);
        && State() == r.next && status == r.status && report == r.report
        && rt.log == old(rt.log) + r.events
      ensures configPrompt == configMode
    {
      report := None;
      if |line| == 0 {
        status := Silent;
      } else if !configMode {
        status := Unknown;
        if StartsWith(line, "config") {
          configMode := true;
          status := Ok;
          rt.gpsEcho := 0;   // no GPS echo in configuration mode
        } else if StartsWith(line, "help") || StartsWith(line, "?") {
          status := Ok;
        }
      } else {
        var cmd := Classify(line);
        if cmd == Exit {
          configMode := false;
          status := Silent;
          rt.gpsEcho := ReadByte(ee.cells, GPS_Echo, 0);
          if configChanged {
            LoadConfiguration(rt, ee);
            configChanged := false;
          }
        } else {
          if cmd == RdCfg {
            report := Some(Report(ee.cells));
          }
          status := RunCommand(ee, cmd, args);
          if status == Ok {
            configChanged := true;
          }
        }
      }
      configPrompt := configMode;
    }
  }
}
