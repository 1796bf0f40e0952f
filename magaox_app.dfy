/** The parts of the MagAO-X application framework that the three apps
    share: the application state codes and the log priorities. The
    framework itself (startup sequencing, the INDI driver, the logger) is
    not part of this model. */
module MagAoxApp {

  /** The state codes an app moves through (`stateCodes::...`). */
  datatype StateCode =
    | Failure        // unrecoverable, the app gives up
    | Error          // a recoverable fault
    | Uninitialized
    | Initialized
    | NoDevice       // the device is not present
    | PowerOff
    | NotConnected   // present, no connection yet
    | Connected
    | Ready
    | Operating

  /** The priorities of log entries that the apps choose between. */
  datatype LogPrio = LogInfo | LogWarning | LogError | LogCritical | LogAlert
}
