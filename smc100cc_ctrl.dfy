/** The SMC100CC stage controller app (`smc100ccCtrl`): the fixed-offset
    ASCII reply decoders, the device-error table, the connection state
    machine run once per `appLogic` tick, the tolerance check that ends a
    move, and the INDI callback that starts a move.

    The serial line and the udev lookup are an oracle (`UsbTty`): each call
    the app makes to `getDeviceName`, `connect`, `ttyWrite` or
    `ttyWriteRead` consumes the next scripted answer, and every frame
    written is recorded. `std::stof` and `std::to_string` are parameters. */
module Smc100ccCtrlApp {
  import opened Wrappers
  import opened MagAoxApp
  import opened Text

  /** A negative tty error code other than the two discovery codes. */
  type ErrorCode = i: int | i < 0 witness -1

  /** What a tty-library call reports (`TTY_E_NOERROR`, `TTY_E_DEVNOTFOUND`,
      `TTY_E_NODEVNAMES`, or any other negative code). */
  datatype TtyStatus = NoError | DevNotFound | NoDevNames | OtherError(code: ErrorCode)

  /** The device is simply not plugged in: not a fault of the host. */
  predicate Absent(s: TtyStatus) {
    s == DevNotFound || s == NoDevNames
  }

  /** One scripted answer of the oracle: a status and, for a read, the
      reply line (the terminator already stripped). */
  datatype Answer = Answer(status: TtyStatus, output: string)

  // The frames the app writes: controller address 1, CR-LF twice.
  const StatusQuery: string := "1TS\r\n\r\n"
  const PositionQuery: string := "1TP\r\n\r\n"
  const ErrorQuery: string := "1TE\r\n\r\n"
  const HomeCommand: string := "1OR\r\n\r\n"

  /** The absolute-move frame for a position already rendered as text. */
  function MoveCommand(position: string): (frame: string)
    ensures |frame| == |position| + 7
    ensures "1PA" <= frame && frame[3..|frame| - 4] == position
    ensures frame[|frame| - 4..] == "\r\n\r\n"
  {
    "1PA" + position + "\r\n\r\n"
  }

  /** The distance from the target within which a stopped stage counts as
      arrived. */
  const ErrorBand: real := 0.05

  /** What is left in the position fields when nothing was read. */
  const Unset: real := -99.0

  const NotResponding: string := "Unknown output; controller not responding correctly."

  function Abs(x: real): (r: real)
    ensures r >= 0.0 && (r == x || r == -x)
  {
    if x < 0.0 then -x else x
  }

  /** The liveness test on a `1TS` reply: its first 7 characters are
      `1TS0000` (address, command echo, no positioner error). */
  function IsAlive(reply: string): (b: bool)
    ensures b <==> "1TS0000" <= reply
  {
    Substr(reply, 0, 7) == "1TS0000"
  }

  /** A `1TS` reply whose first 9 characters are `1TS000028`: the
      controller state 28, MOVING. */
  function IsMoving(reply: string): (b: bool)
    ensures b <==> "1TS000028" <= reply
    ensures b ==> IsAlive(reply)
  {
    Substr(reply, 0, 9) == "1TS000028"
  }

  /** The position carried by a `1TP` reply: everything after the 3-byte
      echo, read by `std::stof`; `None` for a reply shorter than the echo
      or text `stof` rejects. */
  function DecodePosition(stof: string -> Option<real>, reply: string): (p: Option<real>)
    ensures |reply| < 3 ==> p == None
    ensures |reply| >= 3 ==> p == stof(reply[3..])
    ensures forall text :: reply == "1TP" + text ==> p == stof(text)
  {
    if |reply| < 3 then None
    else
      assert forall text :: reply == "1TP" + text ==> reply[3..] == text;
      stof(reply[3..])
  }

  /** The position a `getPosition` exchange yields, if any. */
  function ReadPosition(stof: string -> Option<real>, a: Answer): (p: Option<real>)
    ensures p.Some? ==> a.status == NoError && |a.output| >= 3
    ensures a.status == NoError ==> p == DecodePosition(stof, a.output)
    ensures a.status != NoError ==> p == None
  {
    if a.status == NoError then DecodePosition(stof, a.output) else None
  }

  /** The one-character positioner error codes the controller reports. */
  const KnownCodes: set<char> :=
    {'A', 'B', 'C', 'D', 'E', 'F', 'G', 'H', 'I', 'J', 'K', 'L', 'M', 'N',
     'S', 'U', 'V', 'W', 'X'}

  /** The message `getLastError` stores for an error code; `None` for a
      character that has no case in the table. */
  function ErrorMessage(code: char): (m: Option<string>)
    ensures m.Some? <==> code in KnownCodes
    ensures m.Some? ==> |m.value| > 0
  {
    match code
    case 'A' => Some("Unknown message code or floating point controller address.")
    case 'B' => Some("Controller address not correct.")
    case 'C' => Some("Parameter missing or out of range.")
    case 'D' => Some("Command not allowed.")
    case 'E' => Some("Home sequence already started.")
    case 'F' => Some("ESP stage name unknown.")
    case 'G' => Some("Displacement out of limits.")
    case 'H' => Some("Command not allowed in NOT REFERENCED state.")
    case 'I' => Some("Command not allowed in CONFIGURATION state.")
    case 'J' => Some("Command not allowed in DISABLE state.")
    case 'K' => Some("Command not allowed in READY state.")
    case 'L' => Some("Command not allowed in HOMING state.")
    case 'M' => Some("UCommand not allowed in MOVING state.")
    case 'N' => Some("Current position out of software limit.")
    case 'S' => Some("Communication Time Out.")
    case 'U' => Some("Error during EEPROM access.")
    case 'V' => Some("Error during command execution.")
    case 'W' => Some("Command not allowed for PP version.")
    case 'X' => Some("Command not allowed for CC version.")
    case _ => None
  }

  /** How `getLastError` answers, given the `1TE` exchange and the error
      string it was handed: the code it returns and the string it leaves. */
  function LastError(a: Answer, errorText: TtyStatus -> string, prior: string): (r: (int, string))
    ensures r.0 == 0 || r.0 == -1
    ensures r.0 == 0 <==> a.status == NoError && |a.output| > 3 && a.output[3] == '@'
    ensures r.0 == 0 ==> r.1 == prior
    ensures a.status != NoError ==> r.1 == errorText(a.status)
    ensures a.status == NoError && |a.output| <= 3 ==> r.1 == NotResponding
    ensures a.status == NoError && |a.output| > 3 && a.output[3] in KnownCodes ==>
              r.0 == -1 && Some(r.1) == ErrorMessage(a.output[3])
    ensures a.status == NoError && |a.output| > 3 && a.output[3] !in KnownCodes ==> r.1 == prior
  {
    if a.status != NoError then (-1, errorText(a.status))
    else if |a.output| <= 3 then (-1, NotResponding)
    else if a.output[3] == '@' then (0, prior)
    else (-1, ErrorMessage(a.output[3]).GetOr(prior))
  }

  /** What `checkPosition` concludes from a `1TS` exchange. */
  datatype Motion = NoReply | StillMoving | Reached | Mismatch

  function PollCompletion(a: Answer, target: real, current: real): (m: Motion)
    ensures m == NoReply <==> a.status != NoError
    ensures m == StillMoving <==> a.status == NoError && "1TS000028" <= a.output
    ensures m == Reached <==>
              a.status == NoError && !("1TS000028" <= a.output) && Abs(target - current) <= ErrorBand
  {
    if a.status != NoError then NoReply
    else if IsMoving(a.output) then StillMoving
    else if Abs(target - current) > ErrorBand then Mismatch
    else Reached
  }

  /** The three motion scenarios of the tolerance check. */
  lemma ToleranceScenarios(target: real, current: real)
    ensures PollCompletion(Answer(NoError, "1TS000028"), target, current) == StillMoving
    ensures PollCompletion(Answer(NoError, "1TS00000A"), 10.0, 10.02) == Reached
    ensures PollCompletion(Answer(NoError, "1TS00000A"), 10.0, 9.5) == Mismatch
  {
    assert "1TS000028" <= "1TS000028";
    assert !("1TS000028" <= "1TS00000A") by {
      assert "1TS00000A"[7] != "1TS000028"[7];
    }
  }

  /** A target published on the `position` property. */
  datatype PositionProperty = PositionProperty(name: string, current: Option<real>, target: Option<real>)

  const PositionName: string := "position"

  /** The target the callback acts on: the `target` element, or the
      `current` element when the target is missing or reads -99. */
  function RequestedTarget(p: PositionProperty): (t: real)
    ensures p.target.Some? && p.target.value != Unset ==> t == p.target.value
    ensures p.target.None? || p.target.value == Unset ==> t == p.current.GetOr(Unset)
  {
    var current := p.current.GetOr(Unset);
    var target := p.target.GetOr(Unset);
    if target == Unset then current else target
  }

  /** The callback goes on to move the stage. */
  predicate StartsMove(p: PositionProperty) {
    p.name == PositionName && RequestedTarget(p) > 0.0
  }

  /** The liveness exchange succeeded. */
  predicate Alive(a: Answer) {
    a.status == NoError && IsAlive(a.output)
  }

  /** The state the connected branch of a tick leaves when entered in
      state `s` (CONNECTED, READY or OPERATING) with the answers from index
      `j` on: a failed liveness test demotes to NOTCONNECTED; otherwise
      the stage is homed if only CONNECTED, its position read (or -99
      kept), and the tolerance check may declare it READY. */
  function ConnectedOutcome(answers: nat -> Answer, stof: string -> Option<real>,
                            s: StateCode, j: nat, target: real): (t: StateCode)
    requires s in {Connected, Ready, Operating}
    ensures t == NotConnected <==> !Alive(answers(j))
    ensures t in {Connected, Ready, Operating, NotConnected}
    ensures s == Ready ==> t in {Ready, NotConnected}
  {
    if !Alive(answers(j)) then NotConnected
    else
      var homed := if s == Connected then (if answers(j + 1).status == NoError then Ready else Connected)
                   else s;
      var p := if s == Connected then j + 2 else j + 1;
      var current := ReadPosition(stof, answers(p)).GetOr(Unset);
      if PollCompletion(answers(p + 2), target, current) == Reached then Ready else homed
  }

  /** While the controller keeps reporting MOVING, an OPERATING stage
      stays OPERATING however far it is from its target. */
  lemma MovingStageStaysOperating(answers: nat -> Answer, stof: string -> Option<real>,
                                  j: nat, target: real)
    requires Alive(answers(j))
    requires answers(j + 3).status == NoError && "1TS000028" <= answers(j + 3).output
    ensures ConnectedOutcome(answers, stof, Operating, j, target) == Operating
  {
  }

  /** A stopped stage whose `1TP` reply reads within the error band of
      its target ends the tick READY, whichever connected state the tick
      started in. */
  lemma StoppedOnTargetIsReady(answers: nat -> Answer, stof: string -> Option<real>,
                               s: StateCode, j: nat, target: real, text: string, x: real)
    requires s in {Connected, Ready, Operating} && Alive(answers(j))
    requires var p := if s == Connected then j + 2 else j + 1;
             answers(p).status == NoError && answers(p).output == "1TP" + text && stof(text) == Some(x)
    requires var p := if s == Connected then j + 2 else j + 1;
             answers(p + 2).status == NoError && !("1TS000028" <= answers(p + 2).output) &&
             Abs(target - x) <= ErrorBand
    ensures ConnectedOutcome(answers, stof, s, j, target) == Ready
  {
    var p := if s == Connected then j + 2 else j + 1;
    assert ReadPosition(stof, answers(p)) == Some(x);
  }

  /** The device side of the app: the udev lookup and the serial line, as
      a script of answers consumed one per call, and the record of every
      frame written. */
  class UsbTty {
    const answers: nat -> Answer
    const errorText: TtyStatus -> string   // tty::ttyErrorString
    var used: nat
    var sent: seq<string>

    constructor (answers: nat -> Answer, errorText: TtyStatus -> string)
      ensures this.answers == answers && this.errorText == errorText
      ensures used == 0 && sent == []
    {
      this.answers := answers;
      this.errorText := errorText;
      used := 0;
      sent := [];
    }

    /** `tty::usbDevice::getDeviceName`: look the device up in udev. */
    method GetDeviceName() returns (rv: TtyStatus)
      modifies this
      ensures rv == answers(old(used)).status
      ensures used == old(used) + 1 && sent == old(sent)
    {
      rv := answers(used).status;
      used := used + 1;
    }

    /** `tty::usbDevice::connect`: open the device file. */
    method Connect() returns (rv: TtyStatus)
      modifies this
      ensures rv == answers(old(used)).status
      ensures used == old(used) + 1 && sent == old(sent)
    {
      rv := answers(used).status;
      used := used + 1;
    }

    /** `tty::ttyWrite` with its 2000 ms timeout. */
    method Write(frame: string) returns (rv: TtyStatus)
      modifies this
      ensures rv == answers(old(used)).status
      ensures used == old(used) + 1 && sent == old(sent) + [frame]
    {
      rv := answers(used).status;
      used := used + 1;
      sent := sent + [frame];
    }

    /** `tty::ttyWriteRead` up to a CR-LF, 2000 ms each way. */
    method WriteRead(frame: string) returns (rv: TtyStatus, output: string)
      modifies this
      ensures rv == answers(old(used)).status && output == answers(old(used)).output
      ensures used == old(used) + 1 && sent == old(sent) + [frame]
    {
      rv := answers(used).status;
      output := answers(used).output;
      used := used + 1;
      sent := sent + [frame];
    }
  }

  class Smc100ccCtrl {
    const tty: UsbTty
    const stof: string -> Option<real>    // std::stof; None where it throws
    const toText: real -> string          // std::to_string
    const deviceName: string              // as found by udev at configuration
    var state: StateCode
    var target: real                      // m_target, never initialised
    var shownCurrent: Option<real>        // position.current as published
    var shownTarget: Option<real>         // position.target as published

    constructor (tty: UsbTty, stof: string -> Option<real>, toText: real -> string,
                 deviceName: string, initial: StateCode)
      ensures this.tty == tty && this.stof == stof && this.toText == toText
      ensures this.deviceName == deviceName && state == initial
      ensures shownCurrent == None && shownTarget == None
    {
      this.tty := tty;
      this.stof := stof;
      this.toText := toText;
      this.deviceName := deviceName;
      state := initial;
      target := *;
      shownCurrent := None;
      shownTarget := None;
    }

    /** Registers the position property and picks the first state from
        whether udev knew the device at configuration time. */
    method AppStartup() returns (rv: int)
      modifies this`state, this`shownCurrent, this`shownTarget
      ensures shownCurrent == Some(0.0) && shownTarget == None
      ensures old(state) == Uninitialized ==> rv == -1 && state == Uninitialized
      ensures old(state) != Uninitialized ==>
                rv == 0 && state == (if deviceName == [] then NoDevice else NotConnected)
    {
      shownCurrent := Some(0.0);
      shownTarget := None;
      if state == Uninitialized {
        return -1;
      }
      if deviceName == [] {
        state := NoDevice;
      } else {
        state := NotConnected;
      }
      return 0;
    }

    /** Asks the controller for its last error (`1TE`). */
    method GetLastError(errorString: string) returns (rv: int, errorString': string)
      modifies tty
      ensures (rv, errorString') == LastError(tty.answers(old(tty.used)), tty.errorText, errorString)
      ensures tty.used == old(tty.used) + 1 && tty.sent == old(tty.sent) + [ErrorQuery]
    {
      var status, output := tty.WriteRead(ErrorQuery);
      rv, errorString' := LastError(Answer(status, output), tty.errorText, errorString).0,
                          LastError(Answer(status, output), tty.errorText, errorString).1;
    }

    /** Homes the stage (`1OR`); a successful write makes the app READY. */
    method SetUpMoving() returns (rv: int)
      modifies this`state, tty
      ensures var st := tty.answers(old(tty.used)).status;
              rv == (if st == NoError then 0 else -1) &&
              state == (if st == NoError then Ready else old(state))
      ensures tty.used == old(tty.used) + 1 && tty.sent == old(tty.sent) + [HomeCommand]
    {
      var st := tty.Write(HomeCommand);
      if st != NoError {
        return -1;
      }
      state := Ready;
      return 0;
    }

    /** The liveness test (`1TS`); while CONNECTED a pass also homes the
        stage. */
    method TestConnection() returns (rv: int)
      modifies this`state, tty
      ensures rv == (if Alive(tty.answers(old(tty.used))) then 0 else -1)
      ensures if Alive(tty.answers(old(tty.used))) && old(state) == Connected then
                tty.used == old(tty.used) + 2 &&
                tty.sent == old(tty.sent) + [StatusQuery, HomeCommand] &&
                state == (if tty.answers(old(tty.used) + 1).status == NoError then Ready else Connected)
              else
                tty.used == old(tty.used) + 1 &&
                tty.sent == old(tty.sent) + [StatusQuery] &&
                state == old(state)
    {
      var st, output := tty.WriteRead(StatusQuery);
      if st != NoError {
        return -1;
      }
      if IsAlive(output) {
        if state == Connected {
          var _ := SetUpMoving();
        }
        return 0;
      }
      return -1;
    }

    /** Starts an absolute move (`1PA<position>`); a successful write makes
        the app OPERATING whatever the error query after it reports. */
    method MoveToPosition(pos: real) returns (rv: int)
      modifies this`state, tty
      ensures var st := tty.answers(old(tty.used)).status;
              if st != NoError then
                rv == -1 && state == old(state) &&
                tty.used == old(tty.used) + 1 &&
                tty.sent == old(tty.sent) + [MoveCommand(toText(pos))]
              else
                state == Operating &&
                rv == LastError(tty.answers(old(tty.used) + 1), tty.errorText, []).0 &&
                tty.used == old(tty.used) + 2 &&
                tty.sent == old(tty.sent) + [MoveCommand(toText(pos)), ErrorQuery]
    {
      var st := tty.Write(MoveCommand(toText(pos)));
      if st != NoError {
        return -1;
      }
      state := Operating;
      var e, _ := GetLastError([]);
      if e == 0 {
        return 0;
      }
      return -1;
    }

    /** Ends a move: a stopped stage within the error band of the target
        makes the app READY. */
    method CheckPosition(current: real) returns (rv: int)
      modifies this`state, tty
      ensures var m := PollCompletion(tty.answers(old(tty.used)), target, current);
              rv == (if m == StillMoving || m == Reached then 0 else -1) &&
              state == (if m == Reached then Ready else old(state))
      ensures tty.used == old(tty.used) + 1 && tty.sent == old(tty.sent) + [StatusQuery]
    {
      var st, output := tty.WriteRead(StatusQuery);
      if st != NoError {
        return -1;
      }
      if IsMoving(output) {
        return 0;
      }
      if Abs(target - current) > ErrorBand {
        return -1;
      }
      state := Ready;
      return 0;
    }

    /** Reads the stage position (`1TP`); on failure `current` is left as
        it was. */
    method GetPosition(current: real) returns (rv: int, current': real)
      modifies tty
      ensures var p := ReadPosition(stof, tty.answers(old(tty.used)));
              (rv, current') == (if p.Some? then (0, p.value) else (-1, current))
      ensures tty.used == old(tty.used) + 1 && tty.sent == old(tty.sent) + [PositionQuery]
    {
      var st, output := tty.WriteRead(PositionQuery);
      if st != NoError {
        return -1, current;
      }
      var p := DecodePosition(stof, output);
      if p.None? {
        return -1, current;
      }
      return 0, p.value;
    }
    /** One `appLogic` tick: the cascade of state checks, each branch able
        to hand over to the next within the same tick. */
    method AppLogic() returns (rv: int)
      modifies this`state, this`shownCurrent, tty
      // Nothing to do before startup, or in a state the cascade ignores.
      ensures old(state) == Initialized ==> rv == -1
      ensures old(state) in {Initialized, Uninitialized, PowerOff, Failure} ==>
                state == old(state) && tty.used == old(tty.used) && tty.sent == old(tty.sent) &&
                (old(state) != Initialized ==> rv == 0)
      ensures old(state) in {Initialized, Uninitialized, PowerOff, Failure, Error} ==>
                shownCurrent == old(shownCurrent)
      // Discovery in NODEVICE, going on to connect once the device is found.
      ensures var d := tty.answers(old(tty.used)).status;
              old(state) == NoDevice && d != NoError ==>
                tty.sent == old(tty.sent) && tty.used == old(tty.used) + 1 &&
                shownCurrent == old(shownCurrent) &&
                (Absent(d) ==> rv == 0 && state == NoDevice) &&
                (d.OtherError? ==> rv == -1 && state == Failure)
      ensures var k := old(tty.used) + 1;
              old(state) == NoDevice && tty.answers(old(tty.used)).status == NoError ==>
                var c := tty.answers(k).status;
                (c != NoError ==>
                   var d := tty.answers(k + 1).status;
                   tty.sent == old(tty.sent) && tty.used == k + 2 && shownCurrent == old(shownCurrent) &&
                   (Absent(d) ==> rv == 0 && state == NoDevice) &&
                   (!Absent(d) ==> rv == -1 && state == Failure)) &&
                (c == NoError && !Alive(tty.answers(k + 1)) ==>
                   rv == 0 && state == NotConnected && tty.used == k + 3 && shownCurrent == old(shownCurrent) &&
                   tty.sent == old(tty.sent) + [StatusQuery, ErrorQuery]) &&
                (c == NoError && Alive(tty.answers(k + 1)) ==>
                   rv == 0 && state == ConnectedOutcome(tty.answers, stof, Connected, k + 2, target) &&
                   var p := ReadPosition(stof, tty.answers(k + 4));
                   shownCurrent == (if Alive(tty.answers(k + 2)) && p.Some? then p else old(shownCurrent)))
      // Connecting from NOTCONNECTED.
      ensures var k := old(tty.used);
              old(state) == NotConnected ==>
                var c := tty.answers(k).status;
                (c != NoError ==>
                   var d := tty.answers(k + 1).status;
                   tty.sent == old(tty.sent) && tty.used == k + 2 && shownCurrent == old(shownCurrent) &&
                   (Absent(d) ==> rv == 0 && state == NoDevice) &&
                   (!Absent(d) ==> rv == -1 && state == Failure)) &&
                (c == NoError && !Alive(tty.answers(k + 1)) ==>
                   rv == 0 && state == NotConnected && tty.used == k + 3 && shownCurrent == old(shownCurrent) &&
                   tty.sent == old(tty.sent) + [StatusQuery, ErrorQuery]) &&
                (c == NoError && Alive(tty.answers(k + 1)) ==>
                   rv == 0 && state == ConnectedOutcome(tty.answers, stof, Connected, k + 2, target) &&
                   var p := ReadPosition(stof, tty.answers(k + 4));
                   shownCurrent == (if Alive(tty.answers(k + 2)) && p.Some? then p else old(shownCurrent)))
      // Connected, homed or moving: keep checking the line and the motion.
      ensures old(state) in {Connected, Ready, Operating} ==>
                rv == 0 && state == ConnectedOutcome(tty.answers, stof, old(state), old(tty.used), target)
      ensures old(state) in {Connected, Ready, Operating} && !Alive(tty.answers(old(tty.used))) ==>
                shownCurrent == old(shownCurrent) && tty.sent == old(tty.sent) + [StatusQuery, ErrorQuery]
      ensures old(state) in {Ready, Operating} && Alive(tty.answers(old(tty.used))) ==>
                tty.used == old(tty.used) + 5 &&
                tty.sent == old(tty.sent) + [StatusQuery, PositionQuery, ErrorQuery, StatusQuery, ErrorQuery] &&
                var p := ReadPosition(stof, tty.answers(old(tty.used) + 1));
                shownCurrent == (if p.Some? then p else old(shownCurrent))
      ensures old(state) == Connected && Alive(tty.answers(old(tty.used))) ==>
                tty.used == old(tty.used) + 6 &&
                tty.sent == old(tty.sent) + [StatusQuery, HomeCommand, PositionQuery, ErrorQuery, StatusQuery, ErrorQuery] &&
                var p := ReadPosition(stof, tty.answers(old(tty.used) + 2));
                shownCurrent == (if p.Some? then p else old(shownCurrent))
      // ERROR never reconnects.
      ensures var d := tty.answers(old(tty.used)).status;
              old(state) == Error ==>
                tty.sent == old(tty.sent) && tty.used == old(tty.used) + 1 &&
                (d.OtherError? ==> rv == d.code && state == Failure) &&
                (Absent(d) ==> rv == 0 && state == NoDevice) &&
                (d == NoError ==> rv == 0 && state == Failure)
      ensures state != Error
    {
      if state == Initialized {
        return -1;
      }
      if state == NoDevice {
        rv := DiscoverAndConnect();
        return;
      }
      if state == NotConnected {
        rv := ConnectAndMonitor();
        return;
      }
      if state == Connected || state == Ready || state == Operating {
        MonitorConnection();
        return 0;
      }
      if state == Error {
        rv := RecoverFromError();
        return;
      }
      return 0;
    }

    /** The NODEVICE branch of a tick: look the device up again. `None`
        when the tick goes on to connect. */
    method DiscoverDevice() returns (r: Option<int>)
      requires state == NoDevice
      modifies this`state, tty
      ensures var d := tty.answers(old(tty.used)).status;
              (d.OtherError? ==> r == Some(-1) && state == Failure) &&
              (Absent(d) ==> r == Some(0) && state == NoDevice) &&
              (d == NoError ==> r == None && state == NotConnected)
      ensures tty.used == old(tty.used) + 1 && tty.sent == old(tty.sent)
    {
      var d := tty.GetDeviceName();
      if d.OtherError? {
        state := Failure;
        return Some(-1);
      }
      if Absent(d) {
        state := NoDevice;
        return Some(0);
      }
      state := NotConnected;
      return None;
    }

    /** A tick from NODEVICE: look the device up, and once found go
        straight on to connecting. */
    method DiscoverAndConnect() returns (rv: int)
      requires state == NoDevice
      modifies this`state, this`shownCurrent, tty
      ensures var d := tty.answers(old(tty.used)).status;
              d != NoError ==>
                tty.sent == old(tty.sent) && tty.used == old(tty.used) + 1 &&
                shownCurrent == old(shownCurrent) &&
                (Absent(d) ==> rv == 0 && state == NoDevice) &&
                (d.OtherError? ==> rv == -1 && state == Failure)
      ensures var k := old(tty.used) + 1;
              tty.answers(old(tty.used)).status == NoError ==>
                var c := tty.answers(k).status;
                (c != NoError ==>
                   var d := tty.answers(k + 1).status;
                   tty.sent == old(tty.sent) && tty.used == k + 2 && shownCurrent == old(shownCurrent) &&
                   (Absent(d) ==> rv == 0 && state == NoDevice) &&
                   (!Absent(d) ==> rv == -1 && state == Failure)) &&
                (c == NoError && !Alive(tty.answers(k + 1)) ==>
                   rv == 0 && state == NotConnected && tty.used == k + 3 && shownCurrent == old(shownCurrent) &&
                   tty.sent == old(tty.sent) + [StatusQuery, ErrorQuery]) &&
                (c == NoError && Alive(tty.answers(k + 1)) ==>
                   rv == 0 && state == ConnectedOutcome(tty.answers, stof, Connected, k + 2, target) &&
                   var p := ReadPosition(stof, tty.answers(k + 4));
                   shownCurrent == (if Alive(tty.answers(k + 2)) && p.Some? then p else old(shownCurrent)))
      ensures state != Error
    {
      var r := DiscoverDevice();
      if r.Some? {
        return r.value;
      }
      rv := ConnectAndMonitor();
    }

    /** A tick from NOTCONNECTED: connect, and on a live line go straight
        on to the connected branch. */
    method ConnectAndMonitor() returns (rv: int)
      requires state == NotConnected
      modifies this`state, this`shownCurrent, tty
      ensures var k := old(tty.used);
              var c := tty.answers(k).status;
              (c != NoError ==>
                 var d := tty.answers(k + 1).status;
                 tty.sent == old(tty.sent) && tty.used == k + 2 && shownCurrent == old(shownCurrent) &&
                 (Absent(d) ==> rv == 0 && state == NoDevice) &&
                 (!Absent(d) ==> rv == -1 && state == Failure)) &&
              (c == NoError && !Alive(tty.answers(k + 1)) ==>
                 rv == 0 && state == NotConnected && tty.used == k + 3 && shownCurrent == old(shownCurrent) &&
                 tty.sent == old(tty.sent) + [StatusQuery, ErrorQuery]) &&
              (c == NoError && Alive(tty.answers(k + 1)) ==>
                 rv == 0 && state == ConnectedOutcome(tty.answers, stof, Connected, k + 2, target) &&
                 var p := ReadPosition(stof, tty.answers(k + 4));
                 shownCurrent == (if Alive(tty.answers(k + 2)) && p.Some? then p else old(shownCurrent)))
      ensures state != Error
    {
      var r := ConnectDevice();
      if r.Some? {
        return r.value;
      }
      if state == Connected {
        MonitorConnection();
      }
      return 0;
    }

    /** The NOTCONNECTED branch: open the device, then test the line. A
        failed open asks udev whether the device is still there. `None`
        when the tick goes on. */
    method ConnectDevice() returns (r: Option<int>)
      requires state == NotConnected
      modifies this`state, tty
      ensures var c := tty.answers(old(tty.used)).status;
              var d := tty.answers(old(tty.used) + 1).status;
              c != NoError ==>
                tty.sent == old(tty.sent) && tty.used == old(tty.used) + 2 &&
                (Absent(d) ==> r == Some(0) && state == NoDevice) &&
                (!Absent(d) ==> r == Some(-1) && state == Failure)
      ensures var c := tty.answers(old(tty.used)).status;
              c == NoError ==>
                r == None &&
                if Alive(tty.answers(old(tty.used) + 1)) then
                  state == Connected && tty.used == old(tty.used) + 2 &&
                  tty.sent == old(tty.sent) + [StatusQuery]
                else
                  state == NotConnected && tty.used == old(tty.used) + 3 &&
                  tty.sent == old(tty.sent) + [StatusQuery, ErrorQuery]
    {
      var c := tty.Connect();
      if c != NoError {
        var d := tty.GetDeviceName();
        if d.OtherError? {
          state := Failure;
          return Some(-1);
        }
        if Absent(d) {
          state := NoDevice;
          return Some(0);
        }
        state := Failure;
        return Some(-1);
      }
      var t := TestConnection();
      if t == 0 {
        state := Connected;
      } else {
        var _, _ := GetLastError([]);
      }
      return None;
    }

    /** The branch for CONNECTED, READY and OPERATING: test the line, read
        and publish the position, and check whether a move has ended. */
    method MonitorConnection()
      requires state in {Connected, Ready, Operating}
      modifies this`state, this`shownCurrent, tty
      ensures state == ConnectedOutcome(tty.answers, stof, old(state), old(tty.used), target)
      ensures !Alive(tty.answers(old(tty.used))) ==>
                shownCurrent == old(shownCurrent) && tty.used == old(tty.used) + 2 &&
                tty.sent == old(tty.sent) + [StatusQuery, ErrorQuery]
      ensures old(state) in {Ready, Operating} && Alive(tty.answers(old(tty.used))) ==>
                tty.used == old(tty.used) + 5 &&
                tty.sent == old(tty.sent) + [StatusQuery, PositionQuery, ErrorQuery, StatusQuery, ErrorQuery] &&
                var p := ReadPosition(stof, tty.answers(old(tty.used) + 1));
                shownCurrent == (if p.Some? then p else old(shownCurrent))
      ensures old(state) == Connected && Alive(tty.answers(old(tty.used))) ==>
                tty.used == old(tty.used) + 6 &&
                tty.sent == old(tty.sent) + [StatusQuery, HomeCommand, PositionQuery, ErrorQuery, StatusQuery, ErrorQuery] &&
                var p := ReadPosition(stof, tty.answers(old(tty.used) + 2));
                shownCurrent == (if p.Some? then p else old(shownCurrent))
    {
      var t := TestConnection();
      if t != 0 {
        state := NotConnected;
        var _, _ := GetLastError([]);
      } else {
        TrackPosition();
      }
    }

    /** After a passed liveness test: read and publish the position, then
        let the tolerance check decide whether the move has ended. */
    method TrackPosition()
      modifies this`state, this`shownCurrent, tty
      ensures var current := ReadPosition(stof, tty.answers(old(tty.used))).GetOr(Unset);
              state == (if PollCompletion(tty.answers(old(tty.used) + 2), target, current) == Reached
                        then Ready else old(state))
      ensures var p := ReadPosition(stof, tty.answers(old(tty.used)));
              shownCurrent == (if p.Some? then p else old(shownCurrent))
      ensures tty.used == old(tty.used) + 4 &&
              tty.sent == old(tty.sent) + [PositionQuery, ErrorQuery, StatusQuery, ErrorQuery]
    {
      var prv, current := GetPosition(Unset);
      var _, _ := GetLastError([]);
      if prv == 0 {
        shownCurrent := Some(current);
      }
      var _ := CheckPosition(current);
      var _, _ := GetLastError([]);
    }

    /** The ERROR branch: never back to NOTCONNECTED. */
    method RecoverFromError() returns (rv: int)
      requires state == Error
      modifies this`state, tty
      ensures var d := tty.answers(old(tty.used)).status;
              (d.OtherError? ==> rv == d.code && state == Failure) &&
              (Absent(d) ==> rv == 0 && state == NoDevice) &&
              (d == NoError ==> rv == 0 && state == Failure)
      ensures tty.used == old(tty.used) + 1 && tty.sent == old(tty.sent)
    {
      var d := tty.GetDeviceName();
      if d.OtherError? {
        state := Failure;
        return d.code;
      }
      if Absent(d) {
        state := NoDevice;
        return 0;
      }
      state := Failure;
      return 0;
    }

    /** The new-property callback of `position`: picks the target, records
        it, and starts the move. The source waits, spinning, until the
        stage is no longer OPERATING before moving; here that wait is the
        precondition. */
    method PositionCallback(ipRecv: PositionProperty) returns (rv: int)
      requires StartsMove(ipRecv) ==> state != Operating
      modifies this`state, this`target, this`shownTarget, tty
      ensures !StartsMove(ipRecv) ==>
                rv == (if ipRecv.name == PositionName then 0 else -1) &&
                state == old(state) && target == old(target) && shownTarget == old(shownTarget) &&
                tty.used == old(tty.used) && tty.sent == old(tty.sent)
      ensures StartsMove(ipRecv) ==>
                target == RequestedTarget(ipRecv) && target > 0.0 && shownTarget == Some(target) &&
                var st := tty.answers(old(tty.used)).status;
                if st != NoError then
                  rv == -1 && state == old(state) &&
                  tty.used == old(tty.used) + 1 &&
                  tty.sent == old(tty.sent) + [MoveCommand(toText(target))]
                else
                  state == Operating &&
                  rv == LastError(tty.answers(old(tty.used) + 1), tty.errorText, []).0 &&
                  tty.used == old(tty.used) + 2 &&
                  tty.sent == old(tty.sent) + [MoveCommand(toText(target)), ErrorQuery]
    {
      if ipRecv.name != PositionName {
        return -1;
      }
      var t := RequestedTarget(ipRecv);
      if t <= 0.0 {
        return 0;
      }
      shownTarget := Some(t);
      target := t;
      rv := MoveToPosition(t);
    }
  }
}
