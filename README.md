# MagAO-X device apps: smc100ccCtrl, sysMonitor and dmMode in Dafny

This project models three of the MagAO-X instrument-control applications.
Each app is a `MagAOXApp` that the framework drives once per loop through
`appLogic`, and that INDI clients talk to through new-property callbacks.

- **smc100ccCtrl** drives a Newport SMC100CC stage controller over a USB
  serial line. It speaks a fixed-offset ASCII protocol with replies such as
  `1TS000028` and `1TP12.5`. It keeps a connection state machine:
  NODEVICE, NOTCONNECTED, CONNECTED, READY, OPERATING, ERROR and FAILURE.
  A move ends when the stage has stopped within 0.05 of its target.
- **sysMonitor** runs `sensors`, `mpstat -P ALL`, `hddtemp`, `df` and
  `free -m` and parses their text output. It classifies the core and drive
  temperatures against warning and critical thresholds and writes
  `core_mon`, `drive_mon` and `ram_usage` telemetry entries. It writes a
  `software_error` entry instead when readings are missing.
- **dmMode** holds one amplitude per mode of a mode cube. The amplitudes
  are set through the `current_amps` and `target_amps` INDI properties. On
  each change the app writes the resulting shape into a deformable-mirror
  channel stream.

The modules are:

| module | file | content |
|---|---|---|
| `Wrappers` | `wrappers.dfy` | `Option` |
| `MagAoxApp` | `magaox_app.dfy` | the framework's state codes and log priorities |
| `Text` | `text.dfy` | `substr`, the whitespace tokenizer `std::istream_iterator<std::string>`, decimal rendering |
| `Smc100ccCtrlApp` | `smc100cc_ctrl.dfy` | the reply decoders, the controller error table, the state machine as class `Smc100ccCtrl`, and the serial line and udev as class `UsbTty` |
| `SysMonitorApp` | `sys_monitor.dfy` | the line parsers as functions, the fold over each command's output that a `find*` loop computes, and class `SysMonitor` |
| `DmModeApp` | `dm_mode.dfy` | class `DmMode` with its amplitudes, element names and the stream metadata |

Outside effects are parameters or oracles:

- The serial line and the udev lookup are a scripted `UsbTty`. Each call
  consumes the next answer, and every frame written is appended to `sent`.
- `std::stof` is a function `string -> Option<real>`. `None` stands for the
  exception it throws.
- `std::to_string` and `ImageStreamIO_typesize` are functions given at
  construction.
- The captured output of each command is a sequence of lines.
- The opened stream's metadata, and the mode cube's dimensions, arrive as
  `Option` values. `None` means the open or the read failed.

An exception the source does not catch, or a `pop_back` on a too-short
string, is modelled as the `Aborts` outcome of `Run<T>`. Conversions from
float to int truncate toward zero (`Trunc`).

## Model

| member | source | states |
|---|---|---|
| Text.Substr | apps/sysMonitor/sysMonitor.hpp:472-475 | `substr(pos, n)` yields `min(n, size - pos)` characters, each copied from `pos` on |
| Text.Tokens | apps/sysMonitor/sysMonitor.hpp:491-492 | every token the stream extractor yields is non-empty and free of whitespace; there is none iff the line is all whitespace |
| Text.TokensOfBlank | apps/sysMonitor/sysMonitor.hpp:589-590 | leading whitespace yields no token |
| Text.TokensOfLayout | apps/sysMonitor/sysMonitor.hpp:589-590 | tokenizing a line made of whitespace-free fields, with any non-empty whitespace runs between them and any whitespace before and after, gives back exactly those fields, in order |
| Text.DecimalRoundTrip | apps/dmMode/dmMode.hpp:189 | reading back the decimal rendering of an index gives the index |
| Smc100ccCtrlApp.MoveCommand | apps/smc100ccCtrl/smc100ccCtrl.hpp:480-481 | the move frame is `1PA`, then the rendered position unchanged, then CR-LF CR-LF |
| Smc100ccCtrlApp.IsAlive | apps/smc100ccCtrl/smc100ccCtrl.hpp:404 | the liveness test passes iff the reply starts with `1TS0000` (a shorter reply fails it) |
| Smc100ccCtrlApp.IsMoving | apps/smc100ccCtrl/smc100ccCtrl.hpp:530 | the reply says MOVING iff it starts with `1TS000028`; a MOVING reply also passes the liveness test |
| Smc100ccCtrlApp.DecodePosition | apps/smc100ccCtrl/smc100ccCtrl.hpp:577-585 | a reply shorter than the 3-byte echo gives no position; a longer one gives `stof` of everything after its first 3 bytes, so for `1TP` followed by any text the position is `stof` of that text |
| Smc100ccCtrlApp.ReadPosition | apps/smc100ccCtrl/smc100ccCtrl.hpp:570-585 | a failed exchange gives no position; a successful one gives the position its reply decodes to, which needs a reply of at least 3 bytes |
| Smc100ccCtrlApp.ErrorMessage | apps/smc100ccCtrl/smc100ccCtrl.hpp:627-686 | a message exists iff the code is one of the 19 letters with a case; every message is non-empty |
| Smc100ccCtrlApp.LastError | apps/smc100ccCtrl/smc100ccCtrl.hpp:590-689 | returns 0 iff the exchange succeeded and byte 3 is `@`, else -1. The error string is kept on success or for an unknown code. Otherwise it is the tty error text, the not-responding message for a reply of 3 bytes or fewer, or the table message |
| Smc100ccCtrlApp.PollCompletion | apps/smc100ccCtrl/smc100ccCtrl.hpp:508-555 | no reply iff the exchange failed; still moving iff the reply starts with `1TS000028`; reached iff the stage stopped within 0.05 of the target; mismatch otherwise |
| Smc100ccCtrlApp.ToleranceScenarios | apps/smc100ccCtrl/smc100ccCtrl.hpp:530-549 | MOVING never ends a move; a stop 0.02 from the target ends it; a stop 0.5 from the target is a mismatch |
| Smc100ccCtrlApp.RequestedTarget | apps/smc100ccCtrl/smc100ccCtrl.hpp:695-709 | the callback's target is the `target` element, or the `current` element (-99 if absent) when the target is missing or reads -99 |
| Smc100ccCtrlApp.ConnectedOutcome | apps/smc100ccCtrl/smc100ccCtrl.hpp:305-342 | the connected branch demotes to NOTCONNECTED iff the liveness test fails. It always ends in CONNECTED, READY, OPERATING or NOTCONNECTED, and READY never goes back to CONNECTED or OPERATING |
| Smc100ccCtrlApp.MovingStageStaysOperating | apps/smc100ccCtrl/smc100ccCtrl.hpp:305-342 | an OPERATING stage that the controller reports MOVING stays OPERATING, whatever its position |
| Smc100ccCtrlApp.StoppedOnTargetIsReady | apps/smc100ccCtrl/smc100ccCtrl.hpp:305-342 | a live stage whose `1TP` reply reads within 0.05 of the target and whose `1TS` reply is not MOVING ends the tick READY from any connected state |
| Smc100ccCtrlApp.UsbTty.constructor | apps/smc100ccCtrl/smc100ccCtrl.hpp:217 | the oracle starts with nothing consumed and nothing sent |
| Smc100ccCtrlApp.UsbTty.GetDeviceName | apps/smc100ccCtrl/smc100ccCtrl.hpp:217 | the udev lookup consumes one answer and sends nothing |
| Smc100ccCtrlApp.UsbTty.Connect | apps/smc100ccCtrl/smc100ccCtrl.hpp:255 | opening the device consumes one answer and sends nothing |
| Smc100ccCtrlApp.UsbTty.Write | apps/smc100ccCtrl/smc100ccCtrl.hpp:482-486 | a write consumes one answer and records the frame |
| Smc100ccCtrlApp.UsbTty.WriteRead | apps/smc100ccCtrl/smc100ccCtrl.hpp:561-569 | a write-read consumes one answer, records the frame and returns the scripted reply |
| Smc100ccCtrlApp.Smc100ccCtrl.constructor | apps/smc100ccCtrl/smc100ccCtrl.hpp:60 | the app starts in the given state with nothing published |
| Smc100ccCtrlApp.Smc100ccCtrl.AppStartup | apps/smc100ccCtrl/smc100ccCtrl.hpp:177-205 | publishes current = 0. It fails in UNINITIALIZED; otherwise it enters NODEVICE when udev found no device name, else NOTCONNECTED |
| Smc100ccCtrlApp.Smc100ccCtrl.GetLastError | apps/smc100ccCtrl/smc100ccCtrl.hpp:590-689 | sends one `1TE` query and answers as `LastError` |
| Smc100ccCtrlApp.Smc100ccCtrl.SetUpMoving | apps/smc100ccCtrl/smc100ccCtrl.hpp:460-476 | sends `1OR`; READY and 0 iff the write succeeded, else -1 with the state unchanged |
| Smc100ccCtrlApp.Smc100ccCtrl.TestConnection | apps/smc100ccCtrl/smc100ccCtrl.hpp:382-426 | returns 0 iff the `1TS` reply is alive; homes the stage only when alive and CONNECTED; the frames sent and the new state in each case |
| Smc100ccCtrlApp.Smc100ccCtrl.MoveToPosition | apps/smc100ccCtrl/smc100ccCtrl.hpp:478-506 | a failed `1PA` write returns -1 with the state unchanged. A successful one makes the app OPERATING whatever the `1TE` query then reports, and returns that query's code |
| Smc100ccCtrlApp.Smc100ccCtrl.CheckPosition | apps/smc100ccCtrl/smc100ccCtrl.hpp:508-555 | sends `1TS`; the state becomes READY exactly when `PollCompletion` says reached; a mismatch returns -1 and leaves the state alone |
| Smc100ccCtrlApp.Smc100ccCtrl.GetPosition | apps/smc100ccCtrl/smc100ccCtrl.hpp:557-588 | sends `1TP`; returns 0 with the decoded position, or -1 with the position untouched |
| Smc100ccCtrlApp.Smc100ccCtrl.AppLogic | apps/smc100ccCtrl/smc100ccCtrl.hpp:207-378 | one tick of the cascade, which can pass through several states. Per starting state it gives the return code, the new state and the frames sent. The published position is the one the tick's `1TP` reply decodes to, and stays as it was when no position was read. ERROR is never the outcome of a tick |
| Smc100ccCtrlApp.Smc100ccCtrl.DiscoverAndConnect | apps/smc100ccCtrl/smc100ccCtrl.hpp:215-342 | NODEVICE falls through to connecting once udev finds the device, and on a live line to the connected branch, in the same tick; the code, state, frames and published position of each path |
| Smc100ccCtrlApp.Smc100ccCtrl.ConnectAndMonitor | apps/smc100ccCtrl/smc100ccCtrl.hpp:252-342 | NOTCONNECTED falls through to the connected branch in the same tick once the line passes the liveness test; the code, state, frames and published position of each path |
| Smc100ccCtrlApp.Smc100ccCtrl.DiscoverDevice | apps/smc100ccCtrl/smc100ccCtrl.hpp:215-250 | NODEVICE: an absent device stays NODEVICE; another udev error is FAILURE with -1; success moves on to NOTCONNECTED |
| Smc100ccCtrlApp.Smc100ccCtrl.ConnectDevice | apps/smc100ccCtrl/smc100ccCtrl.hpp:252-303 | NOTCONNECTED: a failed open asks udev, giving NODEVICE (0) or FAILURE (-1). An open line becomes CONNECTED iff it passes the liveness test; otherwise the last error is queried and it stays NOTCONNECTED |
| Smc100ccCtrlApp.Smc100ccCtrl.MonitorConnection | apps/smc100ccCtrl/smc100ccCtrl.hpp:305-342 | the connected branch ends in `ConnectedOutcome`, with the exact frame sequence and the published position for each case |
| Smc100ccCtrlApp.Smc100ccCtrl.TrackPosition | apps/smc100ccCtrl/smc100ccCtrl.hpp:317-341 | reads the position (-99 when unread), publishes it only when it was read, and ends READY exactly when the tolerance check says reached |
| Smc100ccCtrlApp.Smc100ccCtrl.RecoverFromError | apps/smc100ccCtrl/smc100ccCtrl.hpp:344-375 | ERROR: another udev error is FAILURE with that code; an absent device is NODEVICE; a present device is FAILURE |
| Smc100ccCtrlApp.Smc100ccCtrl.PositionCallback | apps/smc100ccCtrl/smc100ccCtrl.hpp:691-726 | a foreign property gives -1; a target at or below 0 gives 0 and nothing changes; otherwise the target is recorded and published and the move is started as in `MoveToPosition` |
| SysMonitorApp.Trunc | apps/sysMonitor/sysMonitor.hpp:500 | float-to-int conversion truncates toward zero |
| SysMonitorApp.TrimThreshold | apps/sysMonitor/sysMonitor.hpp:495-499 | four `pop_back`s and `erase(0,1)` keep characters 1 to size-5; a token shorter than 4 bytes is undefined behaviour |
| SysMonitorApp.ThresholdTokenRoundTrip | apps/sysMonitor/sysMonitor.hpp:495-499 | trimming a token of the form sign, number, degree sign, `C`, closing character gives back the number |
| SysMonitorApp.ThresholdFrom | apps/sysMonitor/sysMonitor.hpp:488-526 | a threshold already set is kept. An unset one aborts iff its token is missing or shorter than 4 bytes; otherwise it is read iff `stof` reads the trimmed token, and is then its truncation (a token out of `float` range is not distinguished from an unreadable one) |
| SysMonitorApp.CoreLine | apps/sysMonitor/sysMonitor.hpp:465-534 | a non-`Core ` line gives -1 and changes nothing; a `Core ` line under 17 bytes aborts. The line succeeds iff bytes 17-20 read and both thresholds are read; the temperature is then `stof` of those bytes. It aborts iff a `Core ` line is under 17 bytes or a threshold read aborts after the earlier reads succeeded. Set thresholds never change |
| SysMonitorApp.ScanCoreLines | apps/sysMonitor/sysMonitor.hpp:448-463 | the scan keeps set thresholds and yields at most one temperature per line |
| SysMonitorApp.ScanCoreLinesAppend | apps/sysMonitor/sysMonitor.hpp:448-463 | scanning two captures one after the other equals scanning their concatenation, the thresholds carried across |
| SysMonitorApp.FirstTempToken | apps/sysMonitor/sysMonitor.hpp:636-639 | the index found is that of the first token starting with a digit and ending in `C`; none means there is no such token |
| SysMonitorApp.DiskLine | apps/sysMonitor/sysMonitor.hpp:626-669 | 0 iff there is a token that starts with a digit and ends in `C`, and the first such token, minus its last two bytes (the `C` and the byte before it), reads; a later token is never tried. Then the temperature is that value and unset thresholds become the truncated 110% and 120% of it. On -1 nothing changes |
| SysMonitorApp.ScanDiskLines | apps/sysMonitor/sysMonitor.hpp:609-624 | the scan keeps set thresholds and yields at most one temperature per line |
| SysMonitorApp.ScanDiskLinesFinds | apps/sysMonitor/sysMonitor.hpp:609-624 | the scan yields some temperature iff some line parses, whatever thresholds are in force |
| SysMonitorApp.SeverityOfAppend | apps/sysMonitor/sysMonitor.hpp:536-558 | the classification of a concatenation is the larger of the two classifications |
| SysMonitorApp.AlarmPriority | apps/sysMonitor/sysMonitor.hpp:364-378 | level 1 is logged as a warning, level 2 as an alert, anything else as info, and conversely |
| SysMonitorApp.ParseCPULoads | apps/sysMonitor/sysMonitor.hpp:583-607 | a load is read iff the line is longer than one byte, has at least 13 tokens and column 13 reads; then load x 100 = 100 - idle, idle being column 13 |
| SysMonitorApp.MpstatLine | apps/sysMonitor/sysMonitor.hpp:583-607 | on a line made of its columns, whatever whitespace surrounds them, a load is read iff the idle column reads; an idle percentage in [0, 100] gives a load in [0, 1] |
| SysMonitorApp.LoadsOf | apps/sysMonitor/sysMonitor.hpp:560-581 | the loads of the lines that parse, in order, no more of them than lines |
| SysMonitorApp.LoadsOfEmpty | apps/sysMonitor/sysMonitor.hpp:560-581 | no load is collected iff no line parses |
| SysMonitorApp.MountOf | apps/sysMonitor/sysMonitor.hpp:721-749 | column 6 names the root, data or boot mount iff it is `/`, `/data` or `/boot` |
| SysMonitorApp.ParseDiskUsage | apps/sysMonitor/sysMonitor.hpp:710-768 | a usage is read iff the line has at least 6 tokens, column 6 is a known mount and column 5 minus its last byte reads. The mount is column 6 and usage x 100 is column 5's value |
| SysMonitorApp.DfLine | apps/sysMonitor/sysMonitor.hpp:710-768 | on a `df` row made of its columns, whatever whitespace surrounds them, with `p%` in column 5, a usage is read iff the mount is known and `p` reads, and it is `p`/100 for that mount |
| SysMonitorApp.UsageOfKeepsUnreported | apps/sysMonitor/sysMonitor.hpp:694-708 | a mount that no line reports keeps its previous usage |
| SysMonitorApp.ParseRamUsage | apps/sysMonitor/sysMonitor.hpp:784-814 | a row is skipped iff it is not a `Mem:` row of at least 3 tokens whose columns 2 and 3 both read. Otherwise, with used and total read, it is rejected iff total is 0 or used/total is above 1 or is 0, and accepted as used/total else |
| SysMonitorApp.RamOf | apps/sysMonitor/sysMonitor.hpp:770-782 | the return code is 0 or -1; an accepted usage is non-zero and at most 1; a failure leaves the old usage or the -1 a rejected row wrote |
| SysMonitorApp.RamOfRejected | apps/sysMonitor/sysMonitor.hpp:770-814 | when no row is accepted, the usage is -1 iff some row was rejected, and the old usage otherwise |
| SysMonitorApp.RamOfFirstRatio | apps/sysMonitor/sysMonitor.hpp:770-782 | the RAM usage is found iff some row gives an accepted ratio, and it is the ratio of the first such row |
| SysMonitorApp.Classify | apps/sysMonitor/sysMonitor.hpp:536-558 | the loop's level is `Severity`: 2 if some reading reaches critical, else 1 if some reading is in the warning band, else 0 |
| SysMonitorApp.SysMonitor.constructor | apps/sysMonitor/sysMonitor.hpp:275-281 | the thresholds are the configured ones; readings start empty and usages at 0 |
| SysMonitorApp.SysMonitor.ParseCPUTemperatures | apps/sysMonitor/sysMonitor.hpp:465-534 | the method's outcome, temperature and thresholds are those of `CoreLine` |
| SysMonitorApp.SysMonitor.FindCPUTemperatures | apps/sysMonitor/sysMonitor.hpp:448-463 | appends exactly the scan's temperatures, in line order, and returns 0 iff there is one; an aborting line aborts the whole call |
| SysMonitorApp.SysMonitor.ParseDiskTemperature | apps/sysMonitor/sysMonitor.hpp:626-669 | the token loop's code, temperature and thresholds are those of `DiskLine` |
| SysMonitorApp.SysMonitor.FindDiskTemperature | apps/sysMonitor/sysMonitor.hpp:609-624 | appends exactly the scan's temperatures, in line order, returns 0 iff there is one, and leaves the scan's thresholds |
| SysMonitorApp.SysMonitor.CriticalCoreTemperature | apps/sysMonitor/sysMonitor.hpp:536-558 | classifies against the core thresholds as `Severity` |
| SysMonitorApp.SysMonitor.CriticalDiskTemperature | apps/sysMonitor/sysMonitor.hpp:671-692 | classifies against the drive thresholds as `Severity` |
| SysMonitorApp.SysMonitor.FindCPULoads | apps/sysMonitor/sysMonitor.hpp:560-581 | fewer than 5 lines fails. Otherwise it appends the loads of lines 5 on, in order, and returns 0 iff there is one |
| SysMonitorApp.SysMonitor.FindDiskUsage | apps/sysMonitor/sysMonitor.hpp:694-708 | each mount ends with its last reported usage; 0 iff some row gave one |
| SysMonitorApp.SysMonitor.FindRamUsage | apps/sysMonitor/sysMonitor.hpp:770-782 | the code and usage are `RamOf`: the first accepted row wins |
| SysMonitorApp.SysMonitor.AppLogic | apps/sysMonitor/sysMonitor.hpp:339-441 | a tick aborts iff the `sensors` scan aborts. Otherwise it returns 0, stores every reading and the four thresholds as the scans define them, and writes three entries with their priorities |
| SysMonitorApp.SysMonitor.LogCores | apps/sysMonitor/sysMonitor.hpp:341-382 | stores the temperatures, loads and core thresholds the scans give; `core_mon` at the classified priority iff both temperatures and loads were found, else the core `software_error` |
| SysMonitorApp.SysMonitor.LogDrives | apps/sysMonitor/sysMonitor.hpp:384-424 | stores the drive temperatures, usages and drive thresholds the scans give; `drive_mon` at the classified priority iff both drive temperatures and some usage were found, else the drive `software_error` |
| SysMonitorApp.SysMonitor.LogRam | apps/sysMonitor/sysMonitor.hpp:427-436 | `ram_usage` at info iff a row was accepted, else the RAM `software_error` |
| DmModeApp.ElementName | apps/dmMode/dmMode.hpp:189 | an element name is at least two decimal digits, zero-padded below 10 |
| DmModeApp.ElementNameValue | apps/dmMode/dmMode.hpp:184-195 | an element name reads back as its index |
| DmModeApp.ElementNamesDistinct | apps/dmMode/dmMode.hpp:184-195 | distinct elements have distinct names, so each INDI element addresses one amplitude |
| DmModeApp.Resized | apps/dmMode/dmMode.hpp:172 | `resize(n, 0)` keeps the first n values and pads with zeros |
| DmModeApp.DestinationSlot | apps/dmMode/dmMode.hpp:294-299 | a cube stream takes the shape in slot `cnt1`, a single-image stream in slot 0 |
| DmModeApp.DmMode.constructor | apps/dmMode/dmMode.hpp:55-77 | no amplitudes, no frames, stream flagged open, no restart, sizes 0 |
| DmModeApp.DmMode.LoadConfigImpl | apps/dmMode/dmMode.hpp:145-156 | configured values replace the defaults; the DM name defaults to the channel name |
| DmModeApp.DmMode.AppStartup | apps/dmMode/dmMode.hpp:163-202 | an unreadable cube fails with nothing changed. Otherwise the amplitudes are resized to the planes, every element is named and published at 0, and the app becomes NOTCONNECTED |
| DmModeApp.DmMode.SendCommand | apps/dmMode/dmMode.hpp:272-319 | without an open stream nothing is written. Otherwise one frame of the current amplitudes goes to the destination slot, `cnt0` advances, the write flag drops, and the amplitudes are published |
| DmModeApp.DmMode.AppLogic | apps/dmMode/dmMode.hpp:204-265 | NOTCONNECTED connects iff the open succeeded with at least 10 semaphores. A connected stream is checked against the cube: a mismatch returns -1 and stays CONNECTED; a match zeroes and sends the shape and becomes READY. A tick that starts CONNECTED keeps the open and restart flags. A failed open, a mismatch and any other state leave the published amplitudes (and, where nothing was checked, the recorded type and sizes) as they were |
| DmModeApp.DmMode.OpenChannel | apps/dmMode/dmMode.hpp:206-227 | the stream counts as open iff it opened with at least 10 semaphores; CONNECTED exactly then |
| DmModeApp.DmMode.ConfigureStream | apps/dmMode/dmMode.hpp:229-261 | records the stream's type, size and dimensions; zeroes and sends the shape and becomes READY iff they fit the cube, else -1 with nothing else changed |
| DmModeApp.DmMode.ZeroShape | apps/dmMode/dmMode.hpp:257-258 | every amplitude becomes 0 and the zero shape is sent |
| DmModeApp.DmMode.ZeroAmps | apps/dmMode/dmMode.hpp:257 | every amplitude becomes 0, their number unchanged |
| DmModeApp.DmMode.AmpsCallback | apps/dmMode/dmMode.hpp:321-379 | a foreign property gives -1 and changes nothing. Otherwise each amplitude whose element the update carries takes its value and the rest keep theirs; the shape is sent iff some element matched |
| DmModeApp.DmMode.SetAmps | apps/dmMode/dmMode.hpp:325-337 | each amplitude whose element name the update carries takes the value given for it, the others keep theirs; the count found is non-zero iff some name matched |

## Left out

- The serial line and udev in smc100ccCtrl are an oracle. The effective-uid switch around `connect` and the `callCommand` hook after discovery run inside `appLogic` but change none of the modelled state, so they are not modelled.
- The INDI mutex, and the busy-wait in the `position` callback until the stage is no longer OPERATING. `PositionCallback` takes "not OPERATING" as a precondition when a move starts. That wait can never finish when the callback runs on the thread that runs `appLogic`; that is a concurrency question and is not modelled.
- Log entry contents other than the telemetry entries of sysMonitor, INDI property registration, `stateLogged`, `updateVals` and the `std::cout` echoes.
- `runCommand` and the `fork`/`exec` of the monitored commands: their captured output is a parameter.
- Floating point: readings are exact reals. Rounding of `float`, NaN and infinity are not modelled, and the 0.05 error band is the exact value rather than the nearest `float`.
- Smc100ccCtrlApp.Smc100ccCtrl.AppLogic: when a NODEVICE or NOTCONNECTED tick connects and passes the liveness test, the contract gives the return code, the new state and the published position. It does not restate the frames the connected branch then sends; `MonitorConnection` states those. The same holds for `DiscoverAndConnect` and `ConnectAndMonitor`.
- SysMonitorApp.ParseRamUsage: treats a total of 0 as a rejected row. The source divides in `float`: a positive used gives infinity, which is rejected, but a negative used gives minus infinity and 0/0 gives NaN, and both of those are accepted.
- SysMonitorApp.CoreLine: `stof` is one parameter for both of its exceptions. All three `stof` reads of a `sensors` line (the temperature and the two thresholds) catch only `invalid_argument`, so in the source an `out_of_range` (a number beyond `float` range, such as `+1e39`) escapes `appLogic`; the model reads such text as unreadable and gives -1 instead of aborting.
- SysMonitorApp.ThresholdFrom: for the same reason, a threshold token whose number is beyond `float` range gives `Done(None)` in the model, where the source aborts; the "aborts iff" clause covers only a missing or too-short token.
- DmModeApp.DmMode.SendCommand: the shape is recorded as the amplitudes it is built from. The mode-image arithmetic, `memcpy`, `ImageStreamIO_sempost` and the spin on a set write flag are not modelled, and `cnt0` is unbounded rather than 64-bit.
- DmModeApp.DmMode.SendCommand: the stream flag starts true (apps/dmMode/dmMode.hpp:76) while no stream is attached yet, so a `current_amps` or `target_amps` update before the first `appLogic` writes through an uninitialised stream; that is undefined behaviour in the source, and the model writes into the default metadata instead.
- DmModeApp.DmMode.AppStartup: the FITS read of the mode cube is a parameter, and the `dm` text property is not modelled.
- `appShutdown` of each app does nothing of interest and is not modelled.
- utils/cursesINDI and libMagAOX/common/paths.hpp are not part of this model.
- Facts about the code that the model keeps:
  - `getLastError` knows 19 codes.
  - An unknown code returns -1 and leaves the error string as it was.
  - A position mismatch in `checkPosition` leaves the state unchanged.
  - The ERROR branch with the device present goes to FAILURE, and no tick ever enters ERROR.
