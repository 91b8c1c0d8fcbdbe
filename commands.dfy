/** The commands the workbench hands to the machine's command service, and
    the calls it makes on that service. A batch is a list of commands issued
    together; a command sequence is a list of batches run one after the
    other by the (external) sequencer. */
module Commands {
  import opened Util

  datatype Cmd =
    | Estop(on: bool)                                     // MKCommandEstop
    | Power(on: bool)                                     // MKCommandPower
    | AxisHome(index: int, home: bool)                    // MKCommandAxisHome
    | WaitHomed(index: int)                               // MKCommandWaitUntil(axis index homed)
    | AxisJog(index: int, velocity: real, distance: Option<real>)  // MKCommandAxisJog
    | AxisAbort(index: int)                               // MKCommandAxisAbort
    | TaskExecute(code: string)                           // MKCommandTaskExecute
    | TaskAbort                                           // MKCommandTaskAbort
    | TaskMode(mode: string)                              // what MKUtils.taskMode* returns

  type Batch = seq<Cmd>

  /** One call on the command service. */
  datatype Call =
    | SendCommand(cmd: Cmd)
    | SendCommands(cmds: seq<Cmd>)
    | SendCommandSequence(batches: seq<Batch>)
    | AbortCommandSequence

  /** `[[cmd] for cmd in cmds]`: every command in a batch of its own. */
  function Singletons(cmds: seq<Cmd>): (r: seq<Batch>)
    ensures |r| == |cmds|
    ensures forall k :: 0 <= k < |r| ==> r[k] == [cmds[k]]
  {
    seq(|cmds|, k requires 0 <= k < |cmds| => [cmds[k]])
  }
}
