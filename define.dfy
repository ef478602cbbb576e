/** The enumerations of Define.js: run kinds, queue states, finish modes and memory modes. */
module Define {

  /** `options.queueRun`: Instant entries go straight into the live table; Event and Sub entries wait. */
  datatype RunKind = Instant | Event | Sub

  /** Queue states of a live entry; Define.js numbers them ADDED=0, RUNNING=1, FINISHED=2, ERROR=3. */
  datatype QueueState = Added | Running | Finished | Error

  /** Finish modes a queueable reports with; Define.js numbers them FIN_OK=0, FIN_WARNING=1, FIN_ERROR=2. */
  datatype FinMode = FinOk | FinWarning | FinError

  /** Lifecycle of a memory item. */
  datatype MemoryMode = Garbage | Session | Permanent

  /** The string Define.js gives each memory mode. */
  function ModeName(m: MemoryMode): string {
    match m
    case Garbage => "Garbage"
    case Session => "Session"
    case Permanent => "Permanent"
  }
}
