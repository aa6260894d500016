/** What the parsers receive from the outside world: the output of an external
    command (internal/util/cmd.go runs it; running it is not part of this
    model) and the number scanning done by `fmt.Sscanf`. */
module Command {
  import opened Wrappers

  /** The trimmed standard output of a command that succeeded, or the error of
      one that failed. */
  datatype CmdOutput = Output(text: string) | Failed(err: string)

  /** `fmt.Sscanf` with one numeric verb: the number read, or None when the text
      does not start with one (the target variable is then left as it was). */
  type RealScanner = string -> Option<real>
  type IntScanner = string -> Option<int>

  /** The value a zero-initialised variable holds after scanning `s`. */
  function RealOrZero(scan: RealScanner, s: string): real {
    match scan(s)
    case Some(v) => v
    case None => 0.0
  }

  function IntOrZero(scan: IntScanner, s: string): int {
    match scan(s)
    case Some(v) => v
    case None => 0
  }
}
