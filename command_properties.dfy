/**
 * Properties of the console interpreter: prefix selection, the run/config
 * mode machine and its dirty bit, what each configuration command accepts
 * and writes, and how the commands combine with the reconciler on `exit`.
 */
module CommandProperties {
  import opened CLib
  import opened Wrappers
  import opened Store
  import opened AddressMap
  import opened Globals
  import opened Config
  import opened Commands

  // Prefix selection

  /** Whether `line` carries the literal of `cmd` (`help` also answers to `?`). */
  predicate Selects(line: string, cmd: Command)
    requires cmd != NoMatch
  {
    StartsWith(line, Prefix(cmd)) || (cmd == Help && StartsWith(line, "?"))
  }

  /** The character at `i`, or NUL past the end. */
  function At(line: string, i: nat): char
  {
    if i < |line| then line[i] else 0 as char
  }

  /**
   * The characters that tell the literals apart: the first one, the one
   * after `wr ` or `rd `, and for `wr frst`/`wr freq` the sixth.
   */
  predicate Fits(line: string, cmd: Command)
  {
    match cmd
    case Exit => At(line, 0) == 'e'
    case Help => At(line, 0) == 'h' || At(line, 0) == '?'
    case WrFrst => At(line, 0) == 'w' && At(line, 3) == 'f' && At(line, 5) == 's'
    case WrFreq => At(line, 0) == 'w' && At(line, 3) == 'f' && At(line, 5) == 'e'
    case WrHw => At(line, 0) == 'w' && At(line, 3) == 'h'
    case WrWarmup => At(line, 0) == 'w' && At(line, 3) == 'w'
    case WrEcho => At(line, 0) == 'w' && At(line, 3) == 'e'
    case WrDefaults => At(line, 0) == 'w' && At(line, 3) == 'd'
    case WrCal => At(line, 0) == 'w' && At(line, 3) == 'c'
    case WrTxdly => At(line, 0) == 'w' && At(line, 3) == 't'
    case WrBcn => At(line, 0) == 'w' && At(line, 3) == 'b'
    case WrLoc => At(line, 0) == 'w' && At(line, 3) == 'l'
    case WrPwr => At(line, 0) == 'w' && At(line, 3) == 'p'
    case RdFref => At(line, 0) == 'r' && At(line, 3) == 'f'
    case RdCfg => At(line, 0) == 'r' && At(line, 3) == 'c'
    case NoMatch => false
  }

  /** A line starting with a literal has that literal's characters. */
  lemma StartsWithAt(line: string, p: string, i: nat)
    requires StartsWith(line, p) && i < |p|
    ensures At(line, i) == p[i]
  {
    assert line[..|p|][i] == line[i];
  }

  lemma SelectsFits(line: string, cmd: Command)
    requires cmd != NoMatch && Selects(line, cmd)
    ensures Fits(line, cmd)
  {
    if StartsWith(line, Prefix(cmd)) {
      StartsWithAt(line, Prefix(cmd), 0);
      if 3 < |Prefix(cmd)| {
        StartsWithAt(line, Prefix(cmd), 3);
      }
      if 5 < |Prefix(cmd)| {
        StartsWithAt(line, Prefix(cmd), 5);
      }
    } else {
      StartsWithAt(line, "?", 0);
    }
  }

  /** One line selects at most one command. */
  lemma SelectsOne(line: string, c: Command, d: Command)
    requires c != NoMatch && d != NoMatch && Selects(line, c) && Selects(line, d)
    ensures c == d
  {
    SelectsFits(line, c);
    SelectsFits(line, d);
  }

  /**
   * No literal is a prefix of another, so the order of the tests does not
   * matter: a line is classified as a command exactly when it starts with
   * that command's literal.
   */
  lemma ClassifyByPrefix(line: string, cmd: Command)
    requires cmd != NoMatch
    ensures Classify(line) == cmd <==> Selects(line, cmd)
  {
    ClassifySelects(line);
    if Selects(line, cmd) {
      ClassifyTotal(line, cmd);
      SelectsOne(line, cmd, Classify(line));
    }
  }

  /** A line that starts with some literal is not unknown. */
  lemma ClassifyTotal(line: string, cmd: Command)
    requires cmd != NoMatch && Selects(line, cmd)
    ensures Classify(line) != NoMatch
  {
  }

  /** The command chosen starts the line. */
  lemma ClassifySelects(line: string)
    ensures Classify(line) != NoMatch ==> Selects(line, Classify(line))
  {
  }

  /** A line that starts with no literal is an unknown command. */
  lemma ClassifyNoMatch(line: string)
    ensures Classify(line) == NoMatch <==> forall cmd :: cmd != NoMatch ==> !Selects(line, cmd)
  {
    ClassifySelects(line);
    forall cmd | cmd != NoMatch && Selects(line, cmd)
      ensures Classify(line) != NoMatch
    {
      ClassifyByPrefix(line, cmd);
    }
  }

  // The mode machine and the dirty bit

  /** The store has a value of exactly this cell at `key`. */
  predicate Holds(cells: Cells, key: int, cell: Cell)
  {
    key in cells && cells[key] == cell
  }

  /** An accepted write: OK, the dirty bit set, no cell outside `keys` and nothing in the runtime changed. */
  ghost predicate Wrote(s: Session, r: Reply, keys: set<int>)
  {
    && r.status == Ok
    && r.next.configMode == s.configMode && r.next.configChanged && r.next.rt == s.rt
    && SameOutside(r.next.cells, s.cells, keys)
    && r.report == None && r.events == []
  }

  /** A refused command: the given status and nothing changed. */
  ghost predicate Refused(s: Session, r: Reply, status: Status)
  {
    r.status == status && r.next == s && r.report == None && r.events == []
  }

  /** The dirty bit is only ever set in configuration mode. */
  predicate Consistent(s: Session)
  {
    s.configMode || !s.configChanged
  }

  /** In run mode only `config` changes anything; `help`/`?` answer OK, everything else is unknown. */
  lemma RunModeCommands(s: Session, line: string, args: Args)
    requires !s.configMode && |line| > 0
    ensures var r := Step(s, line, args);
      && r.events == [] && r.report == None
      && (StartsWith(line, "config") ==>
            r.status == Ok && r.next == s.(configMode := true, rt := s.rt.(gpsEcho := 0)))
      && (!StartsWith(line, "config") ==>
            && r.next == s
            && (r.status == Ok <==> StartsWith(line, "help") || StartsWith(line, "?"))
            && (r.status != Ok ==> r.status == Unknown))
  {
  }

  /**
   * `exit` always returns to run mode with the GPS echo taken from the
   * store, and reconciles the runtime with the store exactly when some
   * configuration command succeeded since `config`.
   */
  lemma ExitCommand(s: Session, line: string, args: Args)
    requires s.configMode && Classify(line) == Exit
    ensures var r := Step(s, line, args);
      var rt := s.rt.(gpsEcho := ReadByte(s.cells, GPS_Echo, 0));
      && !r.next.configMode && !r.next.configChanged && r.status == Silent && r.report == None
      && (s.configChanged ==>
            var c := Reconcile(rt, s.cells);
            r.next.rt == c.rt && r.next.cells == c.cells && r.events == c.events)
      && (!s.configChanged ==> r.next.rt == rt && r.next.cells == s.cells && r.events == [])
  {
    ClassifySelects(line);
  }

  /** No command sets the dirty bit outside configuration mode. */
  lemma StepKeepsConsistent(s: Session, line: string, args: Args)
    requires Consistent(s)
    ensures Consistent(Step(s, line, args).next)
  {
  }

  /**
   * The dirty bit is cleared only by `exit`, is set only by a command that
   * answers OK, and the drivers are called only by an `exit` with the bit set.
   */
  lemma DirtyBit(s: Session, line: string, args: Args)
    ensures var r := Step(s, line, args);
      && (s.configChanged && !r.next.configChanged ==> s.configMode && Classify(line) == Exit)
      && (!s.configChanged && r.next.configChanged ==> r.status == Ok && s.configMode)
      && (r.events != [] ==> s.configMode && s.configChanged && Classify(line) == Exit)
  {
    ClassifySelects(line);
  }

  /** A sequence of trimmed lines, each with its scanned arguments. */
  datatype Input = Input(line: string, args: Args)

  /** The session after each input in turn. */
  function Run(s: Session, inputs: seq<Input>): Session
    decreases |inputs|
  {
    if |inputs| == 0 then s else Run(Step(s, inputs[0].line, inputs[0].args).next, inputs[1..])
  }

  /** From a consistent session (power-on is one), any command sequence keeps the dirty bit in configuration mode. */
  lemma {:induction false} RunKeepsConsistent(s: Session, inputs: seq<Input>)
    requires Consistent(s)
    ensures Consistent(Run(s, inputs))
    decreases |inputs|
  {
    if |inputs| > 0 {
      StepKeepsConsistent(s, inputs[0].line, inputs[0].args);
      RunKeepsConsistent(Step(s, inputs[0].line, inputs[0].args).next, inputs[1..]);
    }
  }

  /** Every status a command can print is a refusal that leaves the session as it was. */
  lemma RefusalChangesNothing(s: Session, line: string, args: Args)
    ensures var r := Step(s, line, args);
      r.status in {Unknown, InvalidData, InvalidFrequency, InvalidLevel} ==> r.next == s && r.events == []
  {
  }

  /**
   * A status line is printed for every non-empty line except `exit`,
   * `rd fref`, `rd cfg` and `help` in configuration mode, which answer
   * for themselves.
   */
  lemma StatusLine(s: Session, line: string, args: Args)
    ensures Step(s, line, args).status.PrintsLine() <==>
      |line| > 0 && (!s.configMode || Classify(line) !in {Exit, RdFref, RdCfg, Help})
  {
  }

  /** The read-only commands change nothing; only `rd cfg` reports, and it reports the store it was given. */
  lemma ReadCommands(s: Session, line: string, args: Args)
    ensures var r := Step(s, line, args);
      && (r.report.Some? <==> |line| > 0 && s.configMode && Classify(line) == RdCfg)
      && (r.report.Some? ==> r.report.value == Report(s.cells))
      && (|line| > 0 && s.configMode && Classify(line) in {RdFref, RdCfg, Help} ==>
            r.next == s && r.events == [] && (r.status == FrefShown <==> Classify(line) == RdFref))
  {
  }

  // What each configuration command accepts and writes

  /** `wr frst`: a reference start frequency within 10 kHz of 27 MHz, else "Invalid frequency". */
  lemma RefStartCommand(s: Session, line: string, args: Args)
    requires s.configMode && Classify(line) == WrFrst
    ensures var r := Step(s, line, args);
      && (|args.ints| < 1 ==> Refused(s, r, InvalidData))
      && (|args.ints| >= 1 && 26990000 <= args.ints[0] <= 27010000 ==>
            Wrote(s, r, {HW_RefStartFreq}) && Holds(r.next.cells, HW_RefStartFreq, IntCell(args.ints[0])))
      && (|args.ints| >= 1 && !(26990000 <= args.ints[0] <= 27010000) ==> Refused(s, r, InvalidFrequency))
  {
  }

  /** `wr hw`: two integers, T1 type 0 to 2 and display mode 0 to 4, written together or not at all. */
  lemma HardwareCommand(s: Session, line: string, args: Args)
    requires s.configMode && Classify(line) == WrHw
    ensures var r := Step(s, line, args);
      if |args.ints| >= 2 && 0 <= args.ints[0] <= 2 && 0 <= args.ints[1] <= 4 then
        && Wrote(s, r, {HW_T1, HW_DisplayMode})
        && Holds(r.next.cells, HW_T1, ByteCell(args.ints[0]))
        && Holds(r.next.cells, HW_DisplayMode, ByteCell(args.ints[1]))
      else Refused(s, r, InvalidData)
  {
  }

  /** `wr warmup`: 0 to 255 seconds. */
  lemma WarmUpCommand(s: Session, line: string, args: Args)
    requires s.configMode && Classify(line) == WrWarmup
    ensures var r := Step(s, line, args);
      if |args.ints| >= 1 && 0 <= args.ints[0] <= 255 then
        Wrote(s, r, {HW_WarmUp}) && Holds(r.next.cells, HW_WarmUp, ByteCell(args.ints[0]))
      else Refused(s, r, InvalidData)
  {
  }

  /** `wr echo`: 0 (off) or 1 (on). */
  lemma EchoCommand(s: Session, line: string, args: Args)
    requires s.configMode && Classify(line) == WrEcho
    ensures var r := Step(s, line, args);
      if |args.ints| >= 1 && 0 <= args.ints[0] <= 1 then
        Wrote(s, r, {GPS_Echo}) && Holds(r.next.cells, GPS_Echo, ByteCell(args.ints[0]))
      else Refused(s, r, InvalidData)
  {
  }

  /** `wr freq`: any frequency from 100 kHz up (no upper bound here), else "Invalid frequency". */
  lemma FrequencyCommand(s: Session, line: string, args: Args)
    requires s.configMode && Classify(line) == WrFreq
    ensures var r := Step(s, line, args);
      && (args.word.None? ==> Refused(s, r, InvalidData))
      && (args.word.Some? && 100000.0 <= args.word.value.number ==>
            Wrote(s, r, {BEACON_Frequency})
            && Holds(r.next.cells, BEACON_Frequency, DoubleCell(args.word.value.number)))
      && (args.word.Some? && args.word.value.number < 100000.0 ==> Refused(s, r, InvalidFrequency))
  {
  }

  /** `wr cal`: 1 to 255 sequences between calibrations. */
  lemma CalibrationCommand(s: Session, line: string, args: Args)
    requires s.configMode && Classify(line) == WrCal
    ensures var r := Step(s, line, args);
      if |args.ints| >= 1 && 1 <= args.ints[0] <= 255 then
        Wrote(s, r, {BEACON_CalibInterval}) && Holds(r.next.cells, BEACON_CalibInterval, ByteCell(args.ints[0]))
      else Refused(s, r, InvalidData)
  {
  }

  /** `wr txdly`: 1 to 255 minutes are accepted, wider than the 2 to 59 the help text announces. */
  lemma TxDelayCommand(s: Session, line: string, args: Args)
    requires s.configMode && Classify(line) == WrTxdly
    ensures var r := Step(s, line, args);
      if |args.ints| >= 1 && 1 <= args.ints[0] <= 255 then
        Wrote(s, r, {BEACON_Interval}) && Holds(r.next.cells, BEACON_Interval, ByteCell(args.ints[0]))
      else Refused(s, r, InvalidData)
  {
  }

  /** The command's power test, with C's `%`, accepts exactly the dBm steps 0, 3, 7 of each decade up to 60. */
  lemma PowerSteps(v: int)
    ensures PowerAccepted(v) <==> v in {0, 3, 7, 10, 13, 17, 20, 23, 27, 30, 33, 37, 40, 43, 47, 50, 53, 57, 60}
  {
    RemTenDivides(v);
    RemTenDivides(v - 3);
    RemTenDivides(v - 7);
  }

  /** The command and the reconciler agree on which power levels are legal. */
  lemma PowerTestsAgree(v: int)
    ensures PowerAccepted(v) <==> !PowerIllegal(v)
  {
  }

  /** `wr pwr`: a legal WSPR power level. */
  lemma PowerCommand(s: Session, line: string, args: Args)
    requires s.configMode && Classify(line) == WrPwr
    ensures var r := Step(s, line, args);
      if |args.ints| >= 1 && 0 <= args.ints[0] <= 60 && args.ints[0] % 10 in {0, 3, 7} then
        Wrote(s, r, {BEACON_WSPRPower}) && Holds(r.next.cells, BEACON_WSPRPower, ByteCell(args.ints[0]))
      else Refused(s, r, InvalidData)
  {
    if |args.ints| >= 1 {
      PowerTestsAgree(args.ints[0]);
      PowerLegalSteps(args.ints[0]);
    }
  }

  /** 23 dBm is accepted and 24 dBm refused. */
  lemma PowerExamples(s: Session, line: string)
    requires s.configMode && Classify(line) == WrPwr
    ensures Step(s, line, Args([23], None)).status == Ok
    ensures Step(s, line, Args([24], None)).status == InvalidData
  {
    PowerSteps(23);
    PowerSteps(24);
  }

  // Call sign and locator

  /** The bytes of a C string up to its first NUL. */
  function CString(b: seq<byte>): seq<byte>
  {
    if |b| == 0 || b[0] == 0 then [] else [b[0]] + CString(b[1..])
  }

  /** A word upper-cased byte by byte. */
  function Upper(t: seq<byte>): seq<byte>
  {
    seq<byte>(|t|, i requires 0 <= i < |t| => UpperByte(t[i]))
  }

  /** Upper-casing sends no byte to NUL. */
  lemma UpperByteNonZero(c: byte)
    requires c != 0
    ensures UpperByte(c) != 0
  {
  }

  /** A word shorter than the field, read back as a C string, is the upper-cased word. */
  lemma {:induction false} PaddedReadsAsWord(t: seq<byte>, size: nat)
    requires |t| < size
    requires forall i :: 0 <= i < |t| ==> t[i] != 0
    ensures CString(Padded(t, size)) == Upper(t)
  {
    if |t| == 0 {
      assert Padded(t, size)[0] == 0;
    } else {
      UpperByteNonZero(t[0]);
      assert Padded(t, size)[1..] == Padded(t[1..], size - 1);
      PaddedReadsAsWord(t[1..], size - 1);
      assert Upper(t) == [UpperByte(t[0])] + Upper(t[1..]);
    }
  }

  /** A text command stores the padded word in its field, NUL last, and writes nothing else. */
  lemma SetTextWrites(args: Args, cells: Cells, base: int, size: nat, default: byte)
    requires size > 0 && args.word.Some? && |args.word.value.text| < size
    ensures var e := SetText(args, cells, base, size);
      && e.status == Ok
      && ReadText(e.cells, base, size, default) == Padded(args.word.value.text, size)
      && SameOutside(e.cells, cells, Range(base, size))
  {
    var text := Padded(args.word.value.text, size);
    var cells1 := PutText(cells, base, text);
    var e := SetText(args, cells, base, size);
    assert e.cells == cells1[base + size - 1 := ByteCell(0)];
    forall i | 0 <= i < size
      ensures ReadText(e.cells, base, size, default)[i] == text[i]
    {
      assert ReadText(e.cells, base, size, default)[i] == ReadByte(e.cells, base + i, default);
      if i < size - 1 {
        PutTextReadBack(cells, base, text, i, default);
        assert ReadByte(e.cells, base + i, default) == ReadByte(cells1, base + i, default);
      } else {
        assert text[i] == 0;
      }
    }
    assert |ReadText(e.cells, base, size, default)| == |text|;
    PutTextFrame(cells, base, text);
  }

  /** `wr bcn`: a call sign of at most 15 bytes, stored upper-cased and NUL-padded over all 16 cells. */
  lemma CallCommand(s: Session, line: string, args: Args, default: byte)
    requires s.configMode && Classify(line) == WrBcn
    ensures var r := Step(s, line, args);
      if args.word.Some? && |args.word.value.text| < CallSize then
        && Wrote(s, r, Range(BEACON_Call, CallSize))
        && ReadText(r.next.cells, BEACON_Call, CallSize, default) == Padded(args.word.value.text, CallSize)
      else Refused(s, r, InvalidData)
  {
    if args.word.Some? && |args.word.value.text| < CallSize {
      SetTextWrites(args, s.cells, BEACON_Call, CallSize, default);
    }
  }

  /** `wr loc`: a locator of at most 8 bytes, stored upper-cased and NUL-padded over all 9 cells. */
  lemma LocatorCommand(s: Session, line: string, args: Args, default: byte)
    requires s.configMode && Classify(line) == WrLoc
    ensures var r := Step(s, line, args);
      if args.word.Some? && |args.word.value.text| < LocatorSize then
        && Wrote(s, r, Range(COMMON_Locator, LocatorSize))
        && ReadText(r.next.cells, COMMON_Locator, LocatorSize, default) == Padded(args.word.value.text, LocatorSize)
      else Refused(s, r, InvalidData)
  {
    if args.word.Some? && |args.word.value.text| < LocatorSize {
      SetTextWrites(args, s.cells, COMMON_Locator, LocatorSize, default);
    }
  }

  /** Two stores that agree on a field of text read back the same text. */
  lemma ReadTextAgree(a: Cells, b: Cells, base: int, n: nat, default: byte)
    requires forall k :: k in Range(base, n) ==> Agree(a, b, k)
    ensures ReadText(a, base, n, default) == ReadText(b, base, n, default)
  {
    forall i | 0 <= i < n
      ensures ReadText(a, base, n, default)[i] == ReadText(b, base, n, default)[i]
    {
      assert base + i in Range(base, n);
      assert Agree(a, b, base + i);
      assert ReadText(a, base, n, default)[i] == ReadByte(a, base + i, default);
      assert ReadText(b, base, n, default)[i] == ReadByte(b, base + i, default);
    }
  }

  /** A call sign stored NUL-terminated is the call the reconciler loads and sets the modulation up with. */
  lemma StoredCallLoaded(rt: RuntimeConfig, cells: Cells, call: seq<byte>)
    requires ReadText(cells, BEACON_Call, CallSize, 0x2e) == call && call[CallSize - 1] == 0
    ensures var r := Reconcile(rt, cells);
      r.rt.call == call && r.events[1] == SetupWspr(call, r.rt.locator, r.rt.wsprPower)
  {
    var (f, cells1) := LoadFrequency(cells);
    ReadTextAgree(cells1, cells, BEACON_Call, CallSize, 0x2e);
    assert call[CallSize - 1 := 0] == call;
  }

  /**
   * A call sign accepted by `wr bcn` is, after `exit`, the beacon's call
   * and the call the modulation is set up with.
   */
  lemma CallReachesBeacon(s: Session, l1: string, a1: Args, l2: string, a2: Args)
    requires s.configMode && Classify(l1) == WrBcn && Classify(l2) == Exit
    requires a1.word.Some? && |a1.word.value.text| < CallSize
    ensures var r := Step(Step(s, l1, a1).next, l2, a2);
      var call := Padded(a1.word.value.text, CallSize);
      r.next.rt.call == call && r.events[1] == SetupWspr(call, r.next.rt.locator, r.next.rt.wsprPower)
  {
    var s1 := Step(s, l1, a1).next;
    SetTextWrites(a1, s.cells, BEACON_Call, CallSize, 0x2e);
    assert s1.cells == SetText(a1, s.cells, BEACON_Call, CallSize).cells && s1.configChanged;
    StoredCallLoaded(s1.rt.(gpsEcho := ReadByte(s1.cells, GPS_Echo, 0)), s1.cells, Padded(a1.word.value.text, CallSize));
  }

  // wr defaults and the three sets of defaults

  /** The cells `wr defaults` writes. */
  const DefaultKeys: set<int> :=
    {HW_RefStartFreq, HW_T1, HW_DisplayMode, HW_WarmUp, GPS_Echo, BEACON_CalibInterval, BEACON_Interval, BEACON_WSPRPower}

  /** `wr defaults`: the eight hardware, GPS, beacon and WSPR defaults, and no other cell. */
  lemma DefaultsCommand(s: Session, line: string, args: Args)
    requires s.configMode && Classify(line) == WrDefaults
    ensures var r := Step(s, line, args);
      var c := r.next.cells;
      && Wrote(s, r, DefaultKeys)
      && Holds(c, HW_RefStartFreq, IntCell(27000000)) && Holds(c, HW_T1, ByteCell(0))
      && Holds(c, HW_DisplayMode, ByteCell(1)) && Holds(c, HW_WarmUp, ByteCell(0))
      && Holds(c, GPS_Echo, ByteCell(0)) && Holds(c, BEACON_CalibInterval, ByteCell(5))
      && Holds(c, BEACON_Interval, ByteCell(2)) && Holds(c, BEACON_WSPRPower, ByteCell(13))
  {
  }

  /** `wr defaults` leaves the station's identity alone: frequency, call sign and locator. */
  lemma DefaultsKeepIdentity(cells: Cells)
    ensures Agree(Defaults(cells), cells, BEACON_Frequency)
    ensures forall k :: k in Range(BEACON_Call, CallSize) ==> Agree(Defaults(cells), cells, k)
    ensures forall k :: k in Range(COMMON_Locator, LocatorSize) ==> Agree(Defaults(cells), cells, k)
  {
  }

  /** `rd cfg` after `wr defaults` lists the defaults, and the identity as it was. */
  lemma DefaultsThenReport(cells: Cells)
    ensures var rep := Report(Defaults(cells));
      && rep.refStartFreq == 27000000 && rep.t1 == 0 && rep.displayMode == 1 && rep.warmUp == 0
      && rep.gpsEcho == 0 && rep.calibInterval == 5 && rep.interval == 2 && rep.wsprPower == 13
      && rep.frequency == Report(cells).frequency
      && rep.call == Report(cells).call && rep.locator == Report(cells).locator
  {
    DefaultsKeepIdentity(cells);
    ReadTextAgree(Defaults(cells), cells, BEACON_Call, CallSize, '0' as int);
    ReadTextAgree(Defaults(cells), cells, COMMON_Locator, LocatorSize, '0' as int);
  }

  /**
   * On a store where nothing was ever written the three routines disagree:
   * `rd cfg` shows calibration 15 and TX interval 4, the reconciler loads
   * calibration 5 and interval 4, and `wr defaults` writes 5 and 2.
   */
  lemma DefaultsDifferByRoutine(rt: RuntimeConfig)
    ensures Report(map[]).calibInterval == 15 && Report(map[]).interval == 4
    ensures Reconcile(rt, map[]).rt.calibInterval == 5 && Reconcile(rt, map[]).rt.interval == 4
    ensures Report(Defaults(map[])).calibInterval == 5 && Report(Defaults(map[])).interval == 2
  {
  }

  /** The cells each command may write. */
  function Footprint(cmd: Command): set<int>
  {
    match cmd
    case Exit => {BEACON_Frequency, BEACON_WSPRPower}
    case WrFrst => {HW_RefStartFreq}
    case WrHw => {HW_T1, HW_DisplayMode}
    case WrWarmup => {HW_WarmUp}
    case WrEcho => {GPS_Echo}
    case WrDefaults => DefaultKeys
    case WrFreq => {BEACON_Frequency}
    case WrCal => {BEACON_CalibInterval}
    case WrTxdly => {BEACON_Interval}
    case WrBcn => Range(BEACON_Call, CallSize)
    case WrLoc => Range(COMMON_Locator, LocatorSize)
    case WrPwr => {BEACON_WSPRPower}
    case RdFref => {}
    case RdCfg => {}
    case Help => {}
    case NoMatch => {}
  }

  /** A configuration command writes only inside its footprint. */
  lemma ExecuteFootprint(cmd: Command, args: Args, cells: Cells)
    requires cmd != Exit
    ensures SameOutside(Execute(cmd, args, cells).cells, cells, Footprint(cmd))
  {
    match cmd {
      case WrBcn =>
        if args.word.Some? && |args.word.value.text| < CallSize {
          SetTextWrites(args, cells, BEACON_Call, CallSize, 0);
        }
      case WrLoc =>
        if args.word.Some? && |args.word.value.text| < LocatorSize {
          SetTextWrites(args, cells, COMMON_Locator, LocatorSize, 0);
        }
      case _ =>
    }
  }

  /** No command writes outside its footprint, and nothing in run mode writes at all. */
  lemma StoreFootprint(s: Session, line: string, args: Args)
    ensures var r := Step(s, line, args);
      && (!s.configMode || |line| == 0 ==> r.next.cells == s.cells)
      && (s.configMode && |line| > 0 ==> SameOutside(r.next.cells, s.cells, Footprint(Classify(line))))
  {
    if s.configMode && |line| > 0 {
      var cmd := Classify(line);
      if cmd == Exit {
        ReconcileWritesOnlyRepairs(s.rt.(gpsEcho := ReadByte(s.cells, GPS_Echo, 0)), s.cells);
      } else {
        ExecuteFootprint(cmd, args, s.cells);
      }
    }
  }

  /** The commands that each write one field (two for `wr hw`). */
  const FieldCommands: set<Command> :=
    {WrFrst, WrHw, WrWarmup, WrEcho, WrFreq, WrCal, WrTxdly, WrBcn, WrLoc, WrPwr}

  /** Two different field commands never write the same cell: `wr bcn` cannot touch the locator, and so on. */
  lemma FootprintsDisjoint(c: Command, d: Command)
    requires c in FieldCommands && d in FieldCommands && c != d
    ensures forall k :: k in Footprint(c) ==> k !in Footprint(d)
  {
  }

  // Commands followed by exit

  /** `config` followed at once by `exit` writes nothing, calls no driver and only restores the GPS echo. */
  lemma ConfigThenExit(s: Session, l1: string, a1: Args, l2: string, a2: Args)
    requires !s.configMode && !s.configChanged && StartsWith(l1, "config") && Classify(l2) == Exit
    ensures var r := Step(Step(s, l1, a1).next, l2, a2);
      r.next == s.(rt := s.rt.(gpsEcho := ReadByte(s.cells, GPS_Echo, 0))) && r.events == []
  {
  }

  /** `wr cal` with a new interval, then `exit`: the interval is live and a recalibration is due at once. */
  lemma NewCalibrationForcesRecalibration(s: Session, l1: string, a1: Args, l2: string, a2: Args)
    requires s.configMode && Classify(l1) == WrCal && Classify(l2) == Exit
    requires |a1.ints| >= 1 && 1 <= a1.ints[0] <= 255 && a1.ints[0] != s.rt.calibInterval
    ensures var r := Step(Step(s, l1, a1).next, l2, a2);
      && !r.next.configMode
      && r.next.rt.calibInterval == a1.ints[0] && r.next.rt.calibIntervalCounter == 2
  {
  }

  /** A frequency above 298.765432 MHz passes `wr freq` but is replaced by 28.555 MHz on `exit`. */
  lemma HighFrequencyHealedOnExit(s: Session, l1: string, a1: Args, l2: string, a2: Args)
    requires s.configMode && Classify(l1) == WrFreq && Classify(l2) == Exit
    requires a1.word.Some? && a1.word.value.number > 298765432.0
    ensures Step(s, l1, a1).status == Ok
    ensures var r := Step(Step(s, l1, a1).next, l2, a2);
      r.next.rt.frequency == SafeFrequency && Holds(r.next.cells, BEACON_Frequency, DoubleCell(SafeFrequency))
  {
  }

  /** `wr echo` takes effect on `exit`. */
  lemma EchoTakesEffectOnExit(s: Session, l1: string, a1: Args, l2: string, a2: Args)
    requires s.configMode && Classify(l1) == WrEcho && Classify(l2) == Exit
    requires |a1.ints| >= 1 && 0 <= a1.ints[0] <= 1
    ensures Step(Step(s, l1, a1).next, l2, a2).next.rt.gpsEcho == a1.ints[0]
  {
  }
}
