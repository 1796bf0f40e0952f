/** The system monitor app (`sysMonitor`): parsers for the text that
    `sensors`, `mpstat -P ALL`, `hddtemp`, `df` and `free -m` print, the
    warning/critical classifiers over the readings, the aggregators that
    walk the captured output line by line, and the choice of log entry in
    `appLogic`.

    The captured output of each command is a parameter (a sequence of
    lines); `std::stof` is the parameter `stof`, `None` standing for the
    `std::invalid_argument` it throws on text with no number in front. */
module SysMonitorApp {
  import opened Wrappers
  import opened MagAoxApp
  import opened Text

  /** A computation that either finishes or is ended by an exception the
      app does not catch (or by undefined behaviour on a short string). */
  datatype Run<T> = Done(result: T) | Aborts

  /** The conversion of a floating-point value to `int`: truncation toward
      zero. */
  function Trunc(x: real): (n: int)
    ensures x >= 0.0 ==> n as real <= x < n as real + 1.0
    ensures x < 0.0 ==> n as real - 1.0 < x <= n as real
  {
    if x >= 0.0 then x.Floor else -((-x).Floor)
  }

  predicate IsDigit(c: char) {
    '0' <= c <= '9'
  }

  // ----------------------------------------------------------------------
  // sensors: "Core 0:        +45.0°C  (high = +80.0°C, crit = +100.0°C)"

  const CorePrefix: string := "Core "

  /** The degree sign as the two bytes of its UTF-8 encoding. */
  const DegreeSign: string := "\U{C2}\U{B0}"

  /** Four `pop_back`s and an `erase(0, 1)` on a threshold token such as
      `+80.0°C,`; `None` where a `pop_back` would meet an empty string. */
  function TrimThreshold(tok: string): (r: Option<string>)
    ensures r.None? <==> |tok| < 4
    ensures r.Some? ==> |r.value| == if |tok| == 4 then 0 else |tok| - 5
    ensures r.Some? ==> forall i :: 0 <= i < |r.value| ==> r.value[i] == tok[i + 1]
  {
    if |tok| < 4 then None
    else if |tok| == 4 then Some([])
    else Some(tok[1..|tok| - 4])
  }

  /** Trimming recovers the number from a threshold token: a sign, the
      number, the degree sign, `C` and one closing character. */
  lemma ThresholdTokenRoundTrip(sign: char, number: string, close: char)
    ensures TrimThreshold([sign] + number + DegreeSign + "C" + [close]) == Some(number)
  {
    var tok := [sign] + number + DegreeSign + "C" + [close];
    assert tok[1..|tok| - 4] == number;
  }

  /** A core threshold as `parseCPUTemperatures` leaves it: kept when
      already set, otherwise read from token `k`; `Done(None)` when `stof`
      rejects the trimmed text. */
  function ThresholdFrom(stof: string -> Option<real>, tokens: seq<string>, k: nat, current: int): (r: Run<Option<int>>)
    ensures current != 0 ==> r == Done(Some(current))
    ensures r == Aborts <==> current == 0 && (|tokens| <= k || |tokens[k]| < 4)
    ensures r.Done? && r.result.Some? <==>
              current != 0 ||
              (|tokens| > k && |tokens[k]| >= 4 && stof(TrimThreshold(tokens[k]).value).Some?)
    ensures current == 0 && r.Done? && r.result.Some? ==>
              r.result.value == Trunc(stof(TrimThreshold(tokens[k]).value).value)
  {
    if current != 0 then Done(Some(current))
    else if |tokens| <= k then Aborts
    else
      match TrimThreshold(tokens[k])
      case None => Aborts
      case Some(text) =>
        match stof(text)
        case None => Done(None)
        case Some(v) => Done(Some(Trunc(v)))
  }

  /** What `parseCPUTemperatures` leaves behind: its return code, the
      temperature out-parameter and the two core thresholds. */
  datatype CoreReading = CoreReading(rv: int, temp: real, warning: int, critical: int)

  function CoreLine(stof: string -> Option<real>, line: string, temp: real,
                    warning: int, critical: int): (r: Run<CoreReading>)
    ensures |line| <= 1 || !(CorePrefix <= line) ==> r == Done(CoreReading(-1, temp, warning, critical))
    ensures CorePrefix <= line && |line| < 17 ==> r == Aborts
    ensures r.Done? ==> r.result.rv == 0 || r.result.rv == -1
    ensures r.Done? && r.result.rv == 0 ==>
              CorePrefix <= line && |line| >= 17 && stof(Substr(line, 17, 4)) == Some(r.result.temp)
    ensures r.Done? && r.result.rv == 0 ==>
              ThresholdFrom(stof, Tokens(line), 5, warning) == Done(Some(r.result.warning)) &&
              ThresholdFrom(stof, Tokens(line), 8, critical) == Done(Some(r.result.critical))
    ensures r.Done? && r.result.rv == 0 <==>
              CorePrefix <= line && |line| >= 17 && stof(Substr(line, 17, 4)).Some? &&
              ThresholdFrom(stof, Tokens(line), 5, warning).Done? &&
              ThresholdFrom(stof, Tokens(line), 5, warning).result.Some? &&
              ThresholdFrom(stof, Tokens(line), 8, critical).Done? &&
              ThresholdFrom(stof, Tokens(line), 8, critical).result.Some?
    ensures r == Aborts <==>
              CorePrefix <= line &&
              (|line| < 17 ||
               (stof(Substr(line, 17, 4)).Some? &&
                (ThresholdFrom(stof, Tokens(line), 5, warning) == Aborts ||
                 (ThresholdFrom(stof, Tokens(line), 5, warning).Done? &&
                  ThresholdFrom(stof, Tokens(line), 5, warning).result.Some? &&
                  ThresholdFrom(stof, Tokens(line), 8, critical) == Aborts))))
    ensures r.Done? && warning != 0 ==> r.result.warning == warning
    ensures r.Done? && critical != 0 ==> r.result.critical == critical
  {
    if |line| <= 1 || Substr(line, 0, 5) != CorePrefix then Done(CoreReading(-1, temp, warning, critical))
    else if |line| < 17 then Aborts
    else
      match stof(Substr(line, 17, 4))
      case None => Done(CoreReading(-1, temp, warning, critical))
      case Some(t) =>
        match ThresholdFrom(stof, Tokens(line), 5, warning)
        case Aborts => Aborts
        case Done(None) => Done(CoreReading(-1, t, warning, critical))
        case Done(Some(w)) =>
          match ThresholdFrom(stof, Tokens(line), 8, critical)
          case Aborts => Aborts
          case Done(None) => Done(CoreReading(-1, t, w, critical))
          case Done(Some(c)) => Done(CoreReading(0, t, w, c))
  }

  /** The temperatures `findCPUTemperatures` collects, in line order, and
      the thresholds it leaves. */
  datatype CoreScan = CoreScan(temps: seq<real>, warning: int, critical: int)

  function PrependTemps(ts: seq<real>, r: Run<CoreScan>): Run<CoreScan> {
    match r
    case Aborts => Aborts
    case Done(s) => Done(CoreScan(ts + s.temps, s.warning, s.critical))
  }

  function ScanCoreLines(stof: string -> Option<real>, lines: seq<string>,
                         warning: int, critical: int): (r: Run<CoreScan>)
    ensures r.Done? && warning != 0 ==> r.result.warning == warning
    ensures r.Done? && critical != 0 ==> r.result.critical == critical
    ensures r.Done? ==> |r.result.temps| <= |lines|
    decreases |lines|
  {
    if lines == [] then Done(CoreScan([], warning, critical))
    else
      match CoreLine(stof, lines[0], 0.0, warning, critical)
      case Aborts => Aborts
      case Done(p) =>
        PrependTemps(if p.rv == 0 then [p.temp] else [],
                     ScanCoreLines(stof, lines[1..], p.warning, p.critical))
  }

  /** Scanning two captures in a row is scanning their concatenation. */
  lemma {:induction false} ScanCoreLinesAppend(stof: string -> Option<real>, a: seq<string>, b: seq<string>,
                                               warning: int, critical: int)
    ensures ScanCoreLines(stof, a + b, warning, critical) ==
            match ScanCoreLines(stof, a, warning, critical)
            case Aborts => Aborts
            case Done(s) => PrependTemps(s.temps, ScanCoreLines(stof, b, s.warning, s.critical))
    decreases |a|
  {
    if a == [] {
      assert a + b == b;
      match ScanCoreLines(stof, b, warning, critical)
      case Aborts =>
      case Done(s) => assert [] + s.temps == s.temps;
    } else {
      assert (a + b)[0] == a[0];
      assert (a + b)[1..] == a[1..] + b;
      match CoreLine(stof, a[0], 0.0, warning, critical)
      case Aborts =>
      case Done(p) =>
        ScanCoreLinesAppend(stof, a[1..], b, p.warning, p.critical);
        match ScanCoreLines(stof, a[1..], p.warning, p.critical)
        case Aborts =>
        case Done(s) =>
          match ScanCoreLines(stof, b, s.warning, s.critical)
          case Aborts =>
          case Done(t) =>
            var head := if p.rv == 0 then [p.temp] else [];
            assert head + (s.temps + t.temps) == (head + s.temps) + t.temps;
    }
  }

  lemma PrependNoTemps(r: Run<CoreScan>)
    ensures PrependTemps([], r) == r
  {
    match r
    case Aborts =>
    case Done(s) => assert [] + s.temps == s.temps;
  }

  lemma PrependTempsTwice(a: seq<real>, b: seq<real>, r: Run<CoreScan>)
    ensures PrependTemps(a, PrependTemps(b, r)) == PrependTemps(a + b, r)
  {
    match r
    case Aborts =>
    case Done(s) => assert a + (b + s.temps) == (a + b) + s.temps;
  }

  /** One step of the scan, from line `i` on. */
  lemma ScanCoreLinesFrom(stof: string -> Option<real>, lines: seq<string>, i: nat, warning: int, critical: int)
    requires i < |lines|
    ensures ScanCoreLines(stof, lines[i..], warning, critical) ==
            match CoreLine(stof, lines[i], 0.0, warning, critical)
            case Aborts => Aborts
            case Done(p) =>
              PrependTemps(if p.rv == 0 then [p.temp] else [],
                           ScanCoreLines(stof, lines[i + 1..], p.warning, p.critical))
  {
    assert lines[i..][0] == lines[i] && lines[i..][1..] == lines[i + 1..];
  }

  // ----------------------------------------------------------------------
  // hddtemp: "/dev/sda: Samsung SSD 860 EVO 500GB: 31°C"

  /** A token that `parseDiskTemperature` takes for a temperature: a digit
      first and `C` last. */
  predicate IsTempToken(tok: string) {
    |tok| >= 1 && IsDigit(tok[0]) && tok[|tok| - 1] == 'C'
  }

  /** The index of the first temperature token. */
  function FirstTempToken(tokens: seq<string>): (r: Option<nat>)
    ensures r.Some? ==> r.value < |tokens| && IsTempToken(tokens[r.value])
    ensures r.Some? ==> forall j :: 0 <= j < r.value ==> !IsTempToken(tokens[j])
    ensures r.None? ==> forall j :: 0 <= j < |tokens| ==> !IsTempToken(tokens[j])
  {
    if tokens == [] then None
    else if IsTempToken(tokens[0]) then Some(0)
    else
      match FirstTempToken(tokens[1..])
      case None => None
      case Some(k) => Some(k + 1)
  }

  /** What `parseDiskTemperature` leaves behind. */
  datatype DiskReading = DiskReading(rv: int, temp: real, warning: int, critical: int)

  function DiskLine(stof: string -> Option<real>, line: string, temp: real,
                    warning: int, critical: int): (r: DiskReading)
    ensures r.rv == 0 || r.rv == -1
    ensures r.rv == -1 ==> r == DiskReading(-1, temp, warning, critical)
    ensures r.rv == 0 <==>
              |line| > 1 && FirstTempToken(Tokens(line)).Some? &&
              var tok := Tokens(line)[FirstTempToken(Tokens(line)).value];
              stof(tok[..|tok| - 2]).Some?
    ensures r.rv == 0 ==>
              var tok := Tokens(line)[FirstTempToken(Tokens(line)).value];
              Some(r.temp) == stof(tok[..|tok| - 2]) &&
              r.warning == (if warning == 0 then Trunc(r.temp + 0.1 * r.temp) else warning) &&
              r.critical == (if critical == 0 then Trunc(r.temp + 0.2 * r.temp) else critical)
  {
    if |line| <= 1 then DiskReading(-1, temp, warning, critical)
    else
      var tokens := Tokens(line);
      match FirstTempToken(tokens)
      case None => DiskReading(-1, temp, warning, critical)
      case Some(k) =>
        var tok := tokens[k];
        match stof(tok[..|tok| - 2])
        case None => DiskReading(-1, temp, warning, critical)
        case Some(v) =>
          DiskReading(0, v,
                      if warning == 0 then Trunc(v + 0.1 * v) else warning,
                      if critical == 0 then Trunc(v + 0.2 * v) else critical)
  }

  datatype DiskScan = DiskScan(temps: seq<real>, warning: int, critical: int)

  function ScanDiskLines(stof: string -> Option<real>, lines: seq<string>,
                         warning: int, critical: int): (r: DiskScan)
    ensures warning != 0 ==> r.warning == warning
    ensures critical != 0 ==> r.critical == critical
    ensures |r.temps| <= |lines|
    decreases |lines|
  {
    if lines == [] then DiskScan([], warning, critical)
    else
      var p := DiskLine(stof, lines[0], 0.0, warning, critical);
      var rest := ScanDiskLines(stof, lines[1..], p.warning, p.critical);
      DiskScan((if p.rv == 0 then [p.temp] else []) + rest.temps, rest.warning, rest.critical)
  }

  /** One step of the scan, from line `i` on. */
  lemma ScanDiskLinesFrom(stof: string -> Option<real>, lines: seq<string>, i: nat, warning: int, critical: int)
    requires i < |lines|
    ensures var p := DiskLine(stof, lines[i], 0.0, warning, critical);
            var rest := ScanDiskLines(stof, lines[i + 1..], p.warning, p.critical);
            ScanDiskLines(stof, lines[i..], warning, critical) ==
            DiskScan((if p.rv == 0 then [p.temp] else []) + rest.temps, rest.warning, rest.critical)
  {
    assert lines[i..][0] == lines[i] && lines[i..][1..] == lines[i + 1..];
  }

  /** Some drive was read exactly when some line yields a temperature. */
  lemma {:induction false} ScanDiskLinesFinds(stof: string -> Option<real>, lines: seq<string>,
                                              warning: int, critical: int)
    ensures |ScanDiskLines(stof, lines, warning, critical).temps| > 0 <==>
            exists i, w, c :: 0 <= i < |lines| && DiskLine(stof, lines[i], 0.0, w, c).rv == 0
    decreases |lines|
  {
    if lines != [] {
      var p := DiskLine(stof, lines[0], 0.0, warning, critical);
      ScanDiskLinesFinds(stof, lines[1..], p.warning, p.critical);
      // Whether a line reads does not depend on the thresholds.
      forall i, w, c | 0 <= i < |lines| && DiskLine(stof, lines[i], 0.0, w, c).rv == 0
        ensures i == 0 ==> p.rv == 0
        ensures i > 0 ==> DiskLine(stof, lines[1..][i - 1], 0.0, w, c).rv == 0
      {
        if i == 0 {
          assert DiskLine(stof, lines[0], 0.0, warning, critical).rv == 0;
        } else {
          assert lines[1..][i - 1] == lines[i];
        }
      }
      if p.rv != 0 && |ScanDiskLines(stof, lines[1..], p.warning, p.critical).temps| > 0 {
        var i, w, c :| 0 <= i < |lines[1..]| && DiskLine(stof, lines[1..][i], 0.0, w, c).rv == 0;
        assert lines[1..][i] == lines[i + 1];
      }
    }
  }

  // ----------------------------------------------------------------------
  // Classifiers

  /** The alarm level of a set of readings: 2 when some reading reaches
      the critical threshold, 1 when none does but some reaches the
      warning threshold, else 0. */
  function Severity(v: seq<real>, warning: real, critical: real): (level: int)
    ensures 0 <= level <= 2
  {
    if exists i :: 0 <= i < |v| && v[i] >= critical then 2
    else if exists i :: 0 <= i < |v| && warning <= v[i] < critical then 1
    else 0
  }

  function Max(a: int, b: int): int {
    if a >= b then a else b
  }

  /** The classifier behaves like a maximum over the readings. */
  lemma SeverityOfAppend(a: seq<real>, b: seq<real>, warning: real, critical: real)
    ensures Severity(a + b, warning, critical) ==
            Max(Severity(a, warning, critical), Severity(b, warning, critical))
  {
    var ab := a + b;
    forall i | 0 <= i < |ab|
      ensures i < |a| ==> ab[i] == a[i]
      ensures i >= |a| ==> ab[i] == b[i - |a|]
    {
    }
    if exists i :: 0 <= i < |b| && b[i] >= critical {
      var i :| 0 <= i < |b| && b[i] >= critical;
      assert ab[|a| + i] == b[i];
    }
    if exists i :: 0 <= i < |b| && warning <= b[i] < critical {
      var i :| 0 <= i < |b| && warning <= b[i] < critical;
      assert ab[|a| + i] == b[i];
    }
    if exists i :: 0 <= i < |a| && a[i] >= critical {
      var i :| 0 <= i < |a| && a[i] >= critical;
      assert ab[i] == a[i];
    }
    if exists i :: 0 <= i < |a| && warning <= a[i] < critical {
      var i :| 0 <= i < |a| && warning <= a[i] < critical;
      assert ab[i] == a[i];
    }
  }

  /** The log priority of a monitor record for a classifier result. */
  function AlarmPriority(level: int): (p: LogPrio)
    ensures p == LogWarning <==> level == 1
    ensures p == LogAlert <==> level == 2
    ensures p == LogInfo <==> level != 1 && level != 2
  {
    if level == 1 then LogWarning else if level == 2 then LogAlert else LogInfo
  }

  // ----------------------------------------------------------------------
  // mpstat -P ALL: the idle percentage is the 13th column

  /** The load `parseCPULoads` reads from an `mpstat` line: the busy
      fraction, 1 - idle/100. */
  function ParseCPULoads(stof: string -> Option<real>, line: string): (load: Option<real>)
    ensures load.Some? <==> |line| > 1 && |Tokens(line)| >= 13 && stof(Tokens(line)[12]).Some?
    ensures load.Some? ==>
              stof(Tokens(line)[12]).Some? && load.value * 100.0 == 100.0 - stof(Tokens(line)[12]).value
  {
    if |line| <= 1 then None
    else
      var tokens := Tokens(line);
      if |tokens| < 13 then None
      else
        match stof(tokens[12])
        case None => None
        case Some(idle) => Some((100.0 - idle) / 100.0)
  }

  /** On a line laid out as its columns, the load comes from the idle
      column, and an idle percentage between 0 and 100 gives a load
      between 0 and 1. */
  lemma MpstatLine(stof: string -> Option<real>, lead: string, columns: seq<string>, gaps: seq<string>)
    requires IsBlank(lead) && IsLayout(columns, gaps) && |columns| >= 13
    ensures var load := ParseCPULoads(stof, lead + Joined(columns, gaps));
            (load.Some? <==> stof(columns[12]).Some?) &&
            (load.Some? && 0.0 <= stof(columns[12]).value <= 100.0 ==> 0.0 <= load.value <= 1.0)
  {
    TokensOfLayout(lead, columns, gaps);
    JoinedLength(columns, gaps);
  }

  /** The loads of the lines that parse, in line order. */
  function LoadsOf(stof: string -> Option<real>, lines: seq<string>): (loads: seq<real>)
    ensures |loads| <= |lines|
  {
    if lines == [] then []
    else
      (match ParseCPULoads(stof, lines[0]) case Some(x) => [x] case None => []) + LoadsOf(stof, lines[1..])
  }

  lemma LoadsOfFrom(stof: string -> Option<real>, lines: seq<string>, i: nat)
    requires i < |lines|
    ensures LoadsOf(stof, lines[i..]) ==
            (match ParseCPULoads(stof, lines[i]) case Some(x) => [x] case None => []) + LoadsOf(stof, lines[i + 1..])
  {
    assert lines[i..][0] == lines[i] && lines[i..][1..] == lines[i + 1..];
  }

  lemma {:induction false} LoadsOfEmpty(stof: string -> Option<real>, lines: seq<string>)
    ensures |LoadsOf(stof, lines)| == 0 <==>
            forall i :: 0 <= i < |lines| ==> ParseCPULoads(stof, lines[i]).None?
  {
    if lines != [] {
      LoadsOfEmpty(stof, lines[1..]);
      assert forall i :: 1 <= i < |lines| ==> lines[i] == lines[1..][i - 1];
    }
  }

  // ----------------------------------------------------------------------
  // df: "/dev/sda1  479151816 302154660 152587696  67% /"

  datatype Mount = Root | Data | Boot

  function MountOf(path: string): (m: Option<Mount>)
    ensures m == Some(Root) <==> path == "/"
    ensures m == Some(Data) <==> path == "/data"
    ensures m == Some(Boot) <==> path == "/boot"
  {
    if path == "/" then Some(Root)
    else if path == "/data" then Some(Data)
    else if path == "/boot" then Some(Boot)
    else None
  }

  /** The mount point and usage fraction `parseDiskUsage` reads: column 6
      names the mount, column 5 is the percentage with its `%` dropped. */
  function ParseDiskUsage(stof: string -> Option<real>, line: string): (u: Option<(Mount, real)>)
    ensures u.Some? <==>
              |line| > 1 && |Tokens(line)| >= 6 && MountOf(Tokens(line)[5]).Some? &&
              var pct := Tokens(line)[4]; stof(pct[..|pct| - 1]).Some?
    ensures u.Some? ==> Some(u.value.0) == MountOf(Tokens(line)[5])
    ensures u.Some? ==>
              var pct := Tokens(line)[4];
              stof(pct[..|pct| - 1]).Some? && u.value.1 * 100.0 == stof(pct[..|pct| - 1]).value
  {
    if |line| <= 1 then None
    else
      var tokens := Tokens(line);
      if |tokens| < 6 then None
      else
        match MountOf(tokens[5])
        case None => None
        case Some(m) =>
          var pct := tokens[4];
          match stof(pct[..|pct| - 1])
          case None => None
          case Some(p) => Some((m, p / 100.0))
  }

  /** A `df` row laid out as its columns is read by its mount and
      percentage columns. */
  lemma DfLine(stof: string -> Option<real>, lead: string, columns: seq<string>, gaps: seq<string>, percent: string)
    requires IsBlank(lead) && IsLayout(columns, gaps) && |columns| >= 6
    requires columns[4] == percent + "%"
    ensures var u := ParseDiskUsage(stof, lead + Joined(columns, gaps));
            u.Some? <==> MountOf(columns[5]).Some? && stof(percent).Some?
    ensures var u := ParseDiskUsage(stof, lead + Joined(columns, gaps));
            u.Some? ==> u.value.0 == MountOf(columns[5]).value && u.value.1 == stof(percent).value / 100.0
  {
    TokensOfLayout(lead, columns, gaps);
    JoinedLength(columns, gaps);
    assert columns[4][..|columns[4]| - 1] == percent;
  }

  datatype Usage = Usage(root: real, data: real, boot: real)

  function Record(u: Usage, m: Mount, v: real): Usage {
    match m
    case Root => u.(root := v)
    case Data => u.(data := v)
    case Boot => u.(boot := v)
  }

  /** The three usages after `findDiskUsage` has passed over the lines:
      each mount keeps the value of the last line that names it. */
  function UsageOf(stof: string -> Option<real>, lines: seq<string>, u: Usage): Usage {
    if lines == [] then u
    else
      var next := match ParseDiskUsage(stof, lines[0])
                  case Some(r) => Record(u, r.0, r.1)
                  case None => u;
      UsageOf(stof, lines[1..], next)
  }

  /** A mount no line reports keeps its previous value. */
  lemma {:induction false} UsageOfKeepsUnreported(stof: string -> Option<real>, lines: seq<string>, u: Usage, m: Mount)
    requires forall i :: 0 <= i < |lines| ==>
               ParseDiskUsage(stof, lines[i]).None? || ParseDiskUsage(stof, lines[i]).value.0 != m
    ensures var w := UsageOf(stof, lines, u);
            (m == Root ==> w.root == u.root) && (m == Data ==> w.data == u.data) &&
            (m == Boot ==> w.boot == u.boot)
  {
    if lines != [] {
      var next := match ParseDiskUsage(stof, lines[0])
                  case Some(r) => Record(u, r.0, r.1)
                  case None => u;
      assert forall i :: 1 <= i < |lines| ==> lines[i] == lines[1..][i - 1];
      UsageOfKeepsUnreported(stof, lines[1..], next, m);
    }
  }

  // ----------------------------------------------------------------------
  // free -m: "Mem:          15885        4124 ..."

  /** What `parseRamUsage` makes of a line: not a `Mem:` row (or not
      readable), a ratio it rejects after writing -1, or the used/total
      ratio. */
  datatype RamParse = Skipped | Rejected | Ratio(value: real)

  function ParseRamUsage(stof: string -> Option<real>, line: string): (r: RamParse)
    ensures |line| <= 1 ==> r == Skipped
    ensures r != Skipped ==> |Tokens(line)| >= 3 && Tokens(line)[0] == "Mem:"
    ensures r.Ratio? ==> r.value != 0.0 && r.value <= 1.0
    ensures r == Skipped <==>
              |line| <= 1 || |Tokens(line)| < 3 || Tokens(line)[0] != "Mem:" ||
              stof(Tokens(line)[1]).None? || stof(Tokens(line)[2]).None?
    ensures r != Skipped ==>
              var used := stof(Tokens(line)[2]).value;
              var total := stof(Tokens(line)[1]).value;
              r == if total == 0.0 || used / total > 1.0 || used / total == 0.0 then Rejected
                   else Ratio(used / total)
    ensures r.Ratio? ==>
              var total := stof(Tokens(line)[1]);
              var used := stof(Tokens(line)[2]);
              total.Some? && used.Some? && total.value != 0.0 && r.value * total.value == used.value
  {
    if |line| <= 1 then Skipped
    else
      var tokens := Tokens(line);
      if |tokens| == 0 || tokens[0] != "Mem:" || |tokens| < 3 then Skipped
      else
        match (stof(tokens[2]), stof(tokens[1]))
        case (Some(used), Some(total)) =>
          if total == 0.0 then Rejected
          else
            var ratio := used / total;
            if ratio > 1.0 || ratio == 0.0 then Rejected else Ratio(ratio)
        case _ => Skipped
  }

  /** The return code and the usage `findRamUsage` leaves: the first
      accepted ratio, -1 written by the rejected rows before it. */
  function RamOf(stof: string -> Option<real>, lines: seq<string>, ram: real): (r: (int, real))
    ensures r.0 == 0 || r.0 == -1
    ensures r.0 == 0 ==> r.1 != 0.0 && r.1 <= 1.0
    ensures r.0 == -1 ==> r.1 == ram || r.1 == -1.0
  {
    if lines == [] then (-1, ram)
    else
      match ParseRamUsage(stof, lines[0])
      case Ratio(v) => (0, v)
      case Rejected => RamOf(stof, lines[1..], -1.0)
      case Skipped => RamOf(stof, lines[1..], ram)
  }

  /** The RAM usage is found exactly when some row gives an accepted ratio,
      and it is the ratio of the first such row. */
  lemma {:induction false} RamOfFirstRatio(stof: string -> Option<real>, lines: seq<string>, ram: real)
    ensures RamOf(stof, lines, ram).0 == 0 <==>
            exists i :: 0 <= i < |lines| && ParseRamUsage(stof, lines[i]).Ratio?
    ensures forall i :: 0 <= i < |lines| && ParseRamUsage(stof, lines[i]).Ratio? &&
                        (forall j :: 0 <= j < i ==> !ParseRamUsage(stof, lines[j]).Ratio?) ==>
              RamOf(stof, lines, ram) == (0, ParseRamUsage(stof, lines[i]).value)
  {
    if lines != [] {
      var next := if ParseRamUsage(stof, lines[0]).Rejected? then -1.0 else ram;
      RamOfFirstRatio(stof, lines[1..], next);
      assert forall i :: 1 <= i < |lines| ==> lines[i] == lines[1..][i - 1];
    }
  }

  /** When no row gives an accepted ratio, the usage is -1 exactly when
      some row was rejected, and otherwise the value it had before. */
  lemma {:induction false} RamOfRejected(stof: string -> Option<real>, lines: seq<string>, ram: real)
    ensures RamOf(stof, lines, ram).0 == -1 ==>
              RamOf(stof, lines, ram).1 ==
              if exists i :: 0 <= i < |lines| && ParseRamUsage(stof, lines[i]).Rejected? then -1.0 else ram
  {
    if lines != [] {
      var next := if ParseRamUsage(stof, lines[0]).Rejected? then -1.0 else ram;
      RamOfRejected(stof, lines[1..], next);
      assert forall i :: 1 <= i < |lines| ==> lines[i] == lines[1..][i - 1];
      assert forall i :: 0 <= i < |lines[1..]| ==> lines[1..][i] == lines[i + 1];
    }
  }

  // ----------------------------------------------------------------------
  // The app

  const CoreLogFailure: string := "Could not log values for CPU core temperatures and usages."
  const DriveLogFailure: string := "Could not log values for drive temperatures and usages."
  const RamLogFailure: string := "Could not log values for RAM usage."

  /** The entries `appLogic` writes to the telemetry log each tick. */
  datatype LogEntry =
    | CoreMon(prio: LogPrio, temps: seq<real>, loads: seq<real>)
    | DriveMon(prio: LogPrio, temps: seq<real>, root: real, data: real, boot: real)
    | RamUse(prio: LogPrio, ram: real)
    | SoftwareError(message: string)

  /** Some `df` row names one of the three mounts with a readable usage. */
  predicate AnyUsage(stof: string -> Option<real>, lines: seq<string>) {
    exists i :: 0 <= i < |lines| && ParseDiskUsage(stof, lines[i]).Some?
  }

  class SysMonitor {
    const stof: string -> Option<real>
    var warningCoreTemp: int
    var criticalCoreTemp: int
    var warningDiskTemp: int
    var criticalDiskTemp: int
    var coreTemps: seq<real>
    var coreLoads: seq<real>
    var diskTemp: seq<real>
    var rootUsage: real
    var dataUsage: real
    var bootUsage: real
    var ramUsage: real

    /** The thresholds are the configured values, 0 where not configured. */
    constructor (stof: string -> Option<real>, warningCoreTemp: int, criticalCoreTemp: int,
                 warningDiskTemp: int, criticalDiskTemp: int)
      ensures this.stof == stof
      ensures this.warningCoreTemp == warningCoreTemp && this.criticalCoreTemp == criticalCoreTemp
      ensures this.warningDiskTemp == warningDiskTemp && this.criticalDiskTemp == criticalDiskTemp
      ensures coreTemps == [] && coreLoads == [] && diskTemp == []
      ensures rootUsage == 0.0 && dataUsage == 0.0 && bootUsage == 0.0 && ramUsage == 0.0
    {
      this.stof := stof;
      this.warningCoreTemp := warningCoreTemp;
      this.criticalCoreTemp := criticalCoreTemp;
      this.warningDiskTemp := warningDiskTemp;
      this.criticalDiskTemp := criticalDiskTemp;
      coreTemps := [];
      coreLoads := [];
      diskTemp := [];
      rootUsage := 0.0;
      dataUsage := 0.0;
      bootUsage := 0.0;
      ramUsage := 0.0;
    }

    /** Reads one `sensors` line; fills a core threshold from the line
        only while it is still 0. */
    method ParseCPUTemperatures(line: string, temps: real) returns (r: Run<int>, temps': real)
      modifies this`warningCoreTemp, this`criticalCoreTemp
      ensures match CoreLine(stof, line, temps, old(warningCoreTemp), old(criticalCoreTemp))
              case Aborts => r == Aborts
              case Done(p) =>
                r == Done(p.rv) && temps' == p.temp &&
                warningCoreTemp == p.warning && criticalCoreTemp == p.critical
    {
      temps' := temps;
      if |line| <= 1 {
        return Done(-1), temps';
      }
      if Substr(line, 0, 5) != CorePrefix {
        return Done(-1), temps';
      }
      if |line| < 17 {
        // substr(17, 4) throws out_of_range, which nothing catches
        return Aborts, temps';
      }
      var temp := stof(Substr(line, 17, 4));
      if temp.None? {
        return Done(-1), temps';
      }
      temps' := temp.value;
      if warningCoreTemp == 0 {
        var tokens := Tokens(line);
        if |tokens| <= 5 || |tokens[5]| < 4 {
          return Aborts, temps';
        }
        var w := stof(TrimThreshold(tokens[5]).value);
        if w.None? {
          return Done(-1), temps';
        }
        warningCoreTemp := Trunc(w.value);
      }
      if criticalCoreTemp == 0 {
        var tokens := Tokens(line);
        if |tokens| <= 8 || |tokens[8]| < 4 {
          return Aborts, temps';
        }
        var c := stof(TrimThreshold(tokens[8]).value);
        if c.None? {
          return Done(-1), temps';
        }
        criticalCoreTemp := Trunc(c.value);
      }
      return Done(0), temps';
    }

    /** Reads the `sensors` capture: appends each core temperature in line
        order; 0 iff some line gave one. */
    method FindCPUTemperatures(sensors: seq<string>, temps: seq<real>) returns (r: Run<int>, temps': seq<real>)
      modifies this`warningCoreTemp, this`criticalCoreTemp
      ensures match ScanCoreLines(stof, sensors, old(warningCoreTemp), old(criticalCoreTemp))
              case Aborts => r == Aborts
              case Done(s) =>
                r == Done(if |s.temps| > 0 then 0 else -1) && temps' == temps + s.temps &&
                warningCoreTemp == s.warning && criticalCoreTemp == s.critical
    {
      var rv := -1;
      temps' := temps;
      var i := 0;
      assert temps'[|temps|..] == [] && sensors[i..] == sensors;
      PrependNoTemps(ScanCoreLines(stof, sensors, warningCoreTemp, criticalCoreTemp));
      while i < |sensors|
        invariant 0 <= i <= |sensors|
        invariant |temps'| >= |temps| && temps'[..|temps|] == temps
        invariant ScanCoreLines(stof, sensors, old(warningCoreTemp), old(criticalCoreTemp)) ==
                  PrependTemps(temps'[|temps|..], ScanCoreLines(stof, sensors[i..], warningCoreTemp, criticalCoreTemp))
        invariant rv == (if |temps'| > |temps| then 0 else -1)
      {
        ghost var before := temps'[|temps|..];
        ScanCoreLinesFrom(stof, sensors, i, warningCoreTemp, criticalCoreTemp);
        var pr, t := ParseCPUTemperatures(sensors[i], 0.0);
        if pr.Aborts? {
          return Aborts, temps';
        }
        var found := if pr.result == 0 then [t] else [];
        PrependTempsTwice(before, found, ScanCoreLines(stof, sensors[i + 1..], warningCoreTemp, criticalCoreTemp));
        temps' := temps' + found;
        assert temps'[|temps|..] == before + found;
        if pr.result == 0 {
          rv := 0;
        }
        i := i + 1;
      }
      assert temps' == temps + temps'[|temps|..];
      PrependNoTemps(ScanCoreLines(stof, [], warningCoreTemp, criticalCoreTemp));
      return Done(rv), temps';
    }

    /** Reads one `hddtemp` line: the first temperature token with its
        last two bytes (the `C` and the byte before it) dropped; the drive
        thresholds are set to 110% and 120% of it while they are 0. */
    method ParseDiskTemperature(line: string, hddTemp: real) returns (rv: int, hddTemp': real)
      modifies this`warningDiskTemp, this`criticalDiskTemp
      ensures DiskReading(rv, hddTemp', warningDiskTemp, criticalDiskTemp) ==
              DiskLine(stof, line, hddTemp, old(warningDiskTemp), old(criticalDiskTemp))
    {
      hddTemp' := hddTemp;
      if |line| <= 1 {
        return -1, hddTemp';
      }
      var tokens := Tokens(line);
      var i := 0;
      while i < |tokens|
        invariant 0 <= i <= |tokens|
        invariant forall j :: 0 <= j < i ==> !IsTempToken(tokens[j])
      {
        var tok := tokens[i];
        if IsDigit(tok[0]) && tok[|tok| - 1] == 'C' {
          assert FirstTempToken(tokens) == Some(i);
          var v := stof(tok[..|tok| - 2]);
          if v.None? {
            return -1, hddTemp';
          }
          hddTemp' := v.value;
          if warningDiskTemp == 0 {
            warningDiskTemp := Trunc(v.value + 0.1 * v.value);
          }
          if criticalDiskTemp == 0 {
            criticalDiskTemp := Trunc(v.value + 0.2 * v.value);
          }
          return 0, hddTemp';
        }
        i := i + 1;
      }
      return -1, hddTemp';
    }

    /** Reads the `hddtemp` capture: appends each drive temperature in line
        order; 0 iff some line gave one. */
    method FindDiskTemperature(hddtemp: seq<string>, temps: seq<real>) returns (rv: int, temps': seq<real>)
      modifies this`warningDiskTemp, this`criticalDiskTemp
      ensures var s := ScanDiskLines(stof, hddtemp, old(warningDiskTemp), old(criticalDiskTemp));
              rv == (if |s.temps| > 0 then 0 else -1) && temps' == temps + s.temps &&
              warningDiskTemp == s.warning && criticalDiskTemp == s.critical
    {
      rv := -1;
      temps' := temps;
      var i := 0;
      assert temps'[|temps|..] == [] && hddtemp[i..] == hddtemp;
      while i < |hddtemp|
        invariant 0 <= i <= |hddtemp|
        invariant |temps'| >= |temps| && temps'[..|temps|] == temps
        invariant var s := ScanDiskLines(stof, hddtemp, old(warningDiskTemp), old(criticalDiskTemp));
                  var t := ScanDiskLines(stof, hddtemp[i..], warningDiskTemp, criticalDiskTemp);
                  s == DiskScan(temps'[|temps|..] + t.temps, t.warning, t.critical)
        invariant rv == (if |temps'| > |temps| then 0 else -1)
      {
        ghost var before := temps'[|temps|..];
        ScanDiskLinesFrom(stof, hddtemp, i, warningDiskTemp, criticalDiskTemp);
        var prv, t := ParseDiskTemperature(hddtemp[i], 0.0);
        var found := if prv == 0 then [t] else [];
        ghost var rest := ScanDiskLines(stof, hddtemp[i + 1..], warningDiskTemp, criticalDiskTemp).temps;
        assert before + (found + rest) == (before + found) + rest;
        temps' := temps' + found;
        assert temps'[|temps|..] == before + found;
        if prv == 0 {
          rv := 0;
        }
        i := i + 1;
      }
      assert temps' == temps + temps'[|temps|..];
    }

    /** Classifies the core temperatures against the core thresholds. */
    method CriticalCoreTemperature(v: seq<real>) returns (rv: int)
      ensures rv == Severity(v, warningCoreTemp as real, criticalCoreTemp as real)
    {
      rv := Classify(v, warningCoreTemp as real, criticalCoreTemp as real);
    }

    /** Classifies the drive temperatures against the drive thresholds. */
    method CriticalDiskTemperature(v: seq<real>) returns (rv: int)
      ensures rv == Severity(v, warningDiskTemp as real, criticalDiskTemp as real)
    {
      rv := Classify(v, warningDiskTemp as real, criticalDiskTemp as real);
    }

    /** One `appLogic` tick over the captured output of the five commands:
        collects and classifies the readings and chooses the three log
        entries. */
    method AppLogic(sensors: seq<string>, mpstat: seq<string>, hddtemp: seq<string>,
                    df: seq<string>, free: seq<string>) returns (r: Run<int>, logs: seq<LogEntry>)
      modifies this`coreTemps, this`coreLoads, this`warningCoreTemp, this`criticalCoreTemp,
               this`diskTemp, this`warningDiskTemp, this`criticalDiskTemp,
               this`rootUsage, this`dataUsage, this`bootUsage, this`ramUsage
      ensures r.Aborts? <==> ScanCoreLines(stof, sensors, old(warningCoreTemp), old(criticalCoreTemp)).Aborts?
      ensures r.Done? ==>
                r.result == 0 && |logs| == 3 &&
                coreTemps == ScanCoreLines(stof, sensors, old(warningCoreTemp), old(criticalCoreTemp)).result.temps &&
                coreLoads == (if |mpstat| < 5 then [] else LoadsOf(stof, mpstat[4..])) &&
                diskTemp == ScanDiskLines(stof, hddtemp, old(warningDiskTemp), old(criticalDiskTemp)).temps &&
                Usage(rootUsage, dataUsage, bootUsage) == UsageOf(stof, df, old(Usage(rootUsage, dataUsage, bootUsage))) &&
                ramUsage == RamOf(stof, free, old(ramUsage)).1
      ensures r.Done? ==>
                var cores := ScanCoreLines(stof, sensors, old(warningCoreTemp), old(criticalCoreTemp)).result;
                var drives := ScanDiskLines(stof, hddtemp, old(warningDiskTemp), old(criticalDiskTemp));
                warningCoreTemp == cores.warning && criticalCoreTemp == cores.critical &&
                warningDiskTemp == drives.warning && criticalDiskTemp == drives.critical
      ensures r.Done? ==>
                logs[0] == if |coreTemps| > 0 && |coreLoads| > 0 then
                             CoreMon(AlarmPriority(Severity(coreTemps, warningCoreTemp as real, criticalCoreTemp as real)),
                                     coreTemps, coreLoads)
                           else SoftwareError(CoreLogFailure)
      ensures r.Done? ==>
                logs[1] == if |diskTemp| > 0 && AnyUsage(stof, df) then
                             DriveMon(AlarmPriority(Severity(diskTemp, warningDiskTemp as real, criticalDiskTemp as real)),
                                      diskTemp, rootUsage, dataUsage, bootUsage)
                           else SoftwareError(DriveLogFailure)
      ensures r.Done? ==>
                logs[2] == if RamOf(stof, free, old(ramUsage)).0 == 0 then RamUse(LogInfo, ramUsage)
                           else SoftwareError(RamLogFailure)
    {
      var coreLog := LogCores(sensors, mpstat);
      if coreLog.Aborts? {
        return Aborts, [];
      }
      var driveLog := LogDrives(hddtemp, df);
      var ramLog := LogRam(free);
      return Done(0), [coreLog.result, driveLog, ramLog];
    }

    /** The CPU part of a tick: temperatures, then loads, then the
        `core_mon` entry, or a `software_error` when either is missing. */
    method LogCores(sensors: seq<string>, mpstat: seq<string>) returns (entry: Run<LogEntry>)
      modifies this`coreTemps, this`coreLoads, this`warningCoreTemp, this`criticalCoreTemp
      ensures entry.Aborts? <==> ScanCoreLines(stof, sensors, old(warningCoreTemp), old(criticalCoreTemp)).Aborts?
      ensures entry.Done? ==>
                coreTemps == ScanCoreLines(stof, sensors, old(warningCoreTemp), old(criticalCoreTemp)).result.temps &&
                coreLoads == (if |mpstat| < 5 then [] else LoadsOf(stof, mpstat[4..])) &&
                warningCoreTemp == ScanCoreLines(stof, sensors, old(warningCoreTemp), old(criticalCoreTemp)).result.warning &&
                criticalCoreTemp == ScanCoreLines(stof, sensors, old(warningCoreTemp), old(criticalCoreTemp)).result.critical &&
                entry.result == if |coreTemps| > 0 && |coreLoads| > 0 then
                                  CoreMon(AlarmPriority(Severity(coreTemps, warningCoreTemp as real, criticalCoreTemp as real)),
                                          coreTemps, coreLoads)
                                else SoftwareError(CoreLogFailure)
    {
      coreTemps := [];
      var ct, temps := FindCPUTemperatures(sensors, coreTemps);
      if ct.Aborts? {
        return Aborts;
      }
      coreTemps := temps;
      var rvCPUTemp := ct.result;
      if rvCPUTemp >= 0 {
        rvCPUTemp := CriticalCoreTemperature(coreTemps);
      }
      coreLoads := [];
      var rvCPULoad, loads := FindCPULoads(mpstat, coreLoads);
      coreLoads := loads;
      if rvCPUTemp >= 0 && rvCPULoad >= 0 {
        return Done(CoreMon(AlarmPriority(rvCPUTemp), coreTemps, coreLoads));
      }
      return Done(SoftwareError(CoreLogFailure));
    }

    /** The drive part of a tick: temperatures, then usages, then the
        `drive_mon` entry, or a `software_error` when either is missing. */
    method LogDrives(hddtemp: seq<string>, df: seq<string>) returns (entry: LogEntry)
      modifies this`diskTemp, this`warningDiskTemp, this`criticalDiskTemp,
               this`rootUsage, this`dataUsage, this`bootUsage
      ensures diskTemp == ScanDiskLines(stof, hddtemp, old(warningDiskTemp), old(criticalDiskTemp)).temps
      ensures warningDiskTemp == ScanDiskLines(stof, hddtemp, old(warningDiskTemp), old(criticalDiskTemp)).warning
      ensures criticalDiskTemp == ScanDiskLines(stof, hddtemp, old(warningDiskTemp), old(criticalDiskTemp)).critical
      ensures Usage(rootUsage, dataUsage, bootUsage) == UsageOf(stof, df, old(Usage(rootUsage, dataUsage, bootUsage)))
      ensures entry == if |diskTemp| > 0 && AnyUsage(stof, df) then
                         DriveMon(AlarmPriority(Severity(diskTemp, warningDiskTemp as real, criticalDiskTemp as real)),
                                  diskTemp, rootUsage, dataUsage, bootUsage)
                       else SoftwareError(DriveLogFailure)
    {
      diskTemp := [];
      var rvDiskTemp, temps := FindDiskTemperature(hddtemp, diskTemp);
      diskTemp := temps;
      if rvDiskTemp >= 0 {
        rvDiskTemp := CriticalDiskTemperature(diskTemp);
      }
      var rvDiskUsage, root, data, boot := FindDiskUsage(df, rootUsage, dataUsage, bootUsage);
      rootUsage, dataUsage, bootUsage := root, data, boot;
      if rvDiskTemp >= 0 && rvDiskUsage >= 0 {
        return DriveMon(AlarmPriority(rvDiskTemp), diskTemp, rootUsage, dataUsage, bootUsage);
      }
      return SoftwareError(DriveLogFailure);
    }

    /** The RAM part of a tick: the `ram_usage` entry, or a
        `software_error` when no row was accepted. */
    method LogRam(free: seq<string>) returns (entry: LogEntry)
      modifies this`ramUsage
      ensures ramUsage == RamOf(stof, free, old(ramUsage)).1
      ensures entry == if RamOf(stof, free, old(ramUsage)).0 == 0 then RamUse(LogInfo, ramUsage)
                       else SoftwareError(RamLogFailure)
    {
      var rvRamUsage, ram := FindRamUsage(free, ramUsage);
      ramUsage := ram;
      if rvRamUsage >= 0 {
        return RamUse(LogInfo, ramUsage);
      }
      return SoftwareError(RamLogFailure);
    }

    /** Reads the `mpstat -P ALL` capture from its fifth line on; fewer than
        five lines is a failure. */
    method FindCPULoads(mpstat: seq<string>, loads: seq<real>)
      returns (rv: int, loads': seq<real>)
      ensures |mpstat| < 5 ==> rv == -1 && loads' == loads
      ensures |mpstat| >= 5 ==>
                loads' == loads + LoadsOf(stof, mpstat[4..]) &&
                rv == (if |LoadsOf(stof, mpstat[4..])| > 0 then 0 else -1)
    {
      rv := -1;
      loads' := loads;
      if |mpstat| < 5 {
        return;
      }
      var i := 4;
      while i < |mpstat|
        invariant 4 <= i <= |mpstat|
        invariant loads' + LoadsOf(stof, mpstat[i..]) == loads + LoadsOf(stof, mpstat[4..])
        invariant rv == (if |loads'| > |loads| then 0 else -1)
        invariant |loads'| >= |loads|
      {
        LoadsOfFrom(stof, mpstat, i);
        var load := ParseCPULoads(stof, mpstat[i]);
        if load.Some? {
          assert loads' + ([load.value] + LoadsOf(stof, mpstat[i + 1..])) ==
                 (loads' + [load.value]) + LoadsOf(stof, mpstat[i + 1..]);
          loads' := loads' + [load.value];
          rv := 0;
        }
        i := i + 1;
      }
      assert mpstat[i..] == [];
    }

    /** Reads the `df` capture; each row naming `/`, `/data` or `/boot`
        overwrites that mount's usage. 0 iff some row did. */
    method FindDiskUsage(df: seq<string>, rootUsage: real, dataUsage: real, bootUsage: real)
      returns (rv: int, rootUsage': real, dataUsage': real, bootUsage': real)
      ensures Usage(rootUsage', dataUsage', bootUsage') == UsageOf(stof, df, Usage(rootUsage, dataUsage, bootUsage))
      ensures rv == (if AnyUsage(stof, df) then 0 else -1)
    {
      rv := -1;
      var u := Usage(rootUsage, dataUsage, bootUsage);
      var i := 0;
      while i < |df|
        invariant 0 <= i <= |df|
        invariant UsageOf(stof, df[i..], u) == UsageOf(stof, df, Usage(rootUsage, dataUsage, bootUsage))
        invariant rv == (if exists j :: 0 <= j < i && ParseDiskUsage(stof, df[j]).Some? then 0 else -1)
      {
        assert df[i..][0] == df[i] && df[i..][1..] == df[i + 1..];
        var reading := ParseDiskUsage(stof, df[i]);
        if reading.Some? {
          u := Record(u, reading.value.0, reading.value.1);
          rv := 0;
        }
        i := i + 1;
      }
      assert df[i..] == [];
      rootUsage', dataUsage', bootUsage' := u.root, u.data, u.boot;
    }

    /** Reads the `free -m` capture, stopping at the first row that gives an
        accepted ratio. */
    method FindRamUsage(free: seq<string>, ramUsage: real) returns (rv: int, ramUsage': real)
      ensures (rv, ramUsage') == RamOf(stof, free, ramUsage)
    {
      ramUsage' := ramUsage;
      var i := 0;
      while i < |free|
        invariant 0 <= i <= |free|
        invariant RamOf(stof, free[i..], ramUsage') == RamOf(stof, free, ramUsage)
      {
        assert free[i..][0] == free[i] && free[i..][1..] == free[i + 1..];
        var parsed := ParseRamUsage(stof, free[i]);
        if parsed.Ratio? {
          return 0, parsed.value;
        }
        if parsed.Rejected? {
          ramUsage' := -1.0;
        }
        i := i + 1;
      }
      assert free[i..] == [];
      return -1, ramUsage';
    }
  }

  /** The loop both classifiers run: a reading at or above the critical
      threshold raises the level to 2, one in the warning band raises it
      to 1 unless it is already 2. */
  method Classify(v: seq<real>, warning: real, critical: real) returns (rv: int)
    ensures rv == Severity(v, warning, critical)
  {
    rv := 0;
    var i := 0;
    while i < |v|
      invariant 0 <= i <= |v|
      invariant rv == Severity(v[..i], warning, critical)
    {
      assert v[..i + 1] == v[..i] + [v[i]];
      SeverityOfAppend(v[..i], [v[i]], warning, critical);
      var temp := v[i];
      if temp >= warning && temp < critical {
        if rv < 2 {
          rv := 1;
        }
      } else if temp >= critical {
        rv := 2;
      }
      i := i + 1;
    }
    assert v[..i] == v;
  }

}
