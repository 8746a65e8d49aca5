/** What one read of one /proc file can give, and the records it gives. The reads
    themselves are the environment: every outcome is possible at every read. */
module Procfs {

  /** The scanner distinguishes three failures: the process exited (`IsVanished`),
      permission was refused (`IsDenied`), or anything else. */
  datatype Outcome<+T> = Ok(value: T) | Vanished | Denied | Failed {
    function Fault(): Fault {
      match this
      case Ok(_) => Fine
      case Vanished => ItVanished
      case Denied => WasDenied
      case Failed => Broke
    }
  }

  datatype Fault = Fine | ItVanished | WasDenied | Broke

  /** A process number. The kernel reuses it, so it identifies a process only
      together with a start time. */
  datatype Pid = Pid(number: int)

  /** The wanted fields of /proc/<pid>/stat. */
  datatype Stat = Stat(
    pid: int,
    comm: string,
    state: char,
    ppid: int,
    minorFaults: nat,
    majorFaults: nat,
    utimeTicks: nat,
    stimeTicks: nat,
    threads: int,
    startTicks: nat,
    vsizeBytes: nat,
    rssPages: nat)

  datatype Status = Status(uid: nat, volCtxSw: nat, involCtxSw: nat, swapBytes: nat)

  datatype Statm = Statm(sizePages: nat, residentPages: nat, sharedPages: nat, dataPages: nat)

  datatype IO = IO(readBytes: nat, writeBytes: nat)

  datatype Smaps = Smaps(pssBytes: nat, swapPssBytes: nat)

  /** Everything one listed process would answer during one scan. Each file is read
      at most once per process and scan, so one outcome per file is fully general. */
  datatype Files = Files(
    stat: Outcome<Stat>,
    cmdline: Outcome<seq<string>>,
    status: Outcome<Status>,
    exe: string,
    statm: Outcome<Statm>,
    io: Outcome<IO>,
    fds: Outcome<nat>,
    limits: Outcome<int>,
    smaps: Outcome<Smaps>)

  datatype Listed = Listed(pid: Pid, files: Files)

  /** Constants read once at start. */
  datatype System = System(clockTicks: int, pageSize: nat, bootTime: real) {

    function TicksToSeconds(ticks: nat): real {
      if clockTicks <= 0 then 0.0 else ticks as real / clockTicks as real
    }

    function PagesToBytes(pages: nat): nat { pages * pageSize }

    function StartTimeUnix(startTicks: nat): real { bootTime + TicksToSeconds(startTicks) }
  }
}
