/**
 * `register_process_collector`: which collector and callbacks are handed to
 * the metrics facility, in order, given the capability flags. The facility
 * itself is outside the model; a registration is its space and metric.
 */
module Registrar {
  import opened Platform

  /** The legacy "resource" subspace, or the process namespace itself. */
  datatype Space = Resource | Process

  /** The registered metrics; `Name` is the name they are registered under. */
  datatype Metric =
    | Utime | Stime | Maxrss | Fds
    | CpuUserSecondsTotal | CpuSystemSecondsTotal | CpuSecondsTotal
    | VirtualMemoryBytes | ResidentMemoryBytes | StartTimeSeconds
    | OpenFds | MaxFds
  {
    function Name(): string
    {
      match this
      case Utime => "utime"
      case Stime => "stime"
      case Maxrss => "maxrss"
      case Fds => "fds"
      case CpuUserSecondsTotal => "cpu_user_seconds_total"
      case CpuSystemSecondsTotal => "cpu_system_seconds_total"
      case CpuSecondsTotal => "cpu_seconds_total"
      case VirtualMemoryBytes => "virtual_memory_bytes"
      case ResidentMemoryBytes => "resident_memory_bytes"
      case StartTimeSeconds => "start_time_seconds"
      case OpenFds => "open_fds"
      case MaxFds => "max_fds"
    }
  }

  datatype Registration =
    | Collector(space: Space)
    | Callback(space: Space, metric: Metric)

  /** Registered whatever the flags. */
  const AlwaysRegistered: seq<Registration> := [
    Collector(Resource),
    Callback(Resource, Utime),
    Callback(Resource, Stime),
    Callback(Resource, Maxrss),
    Callback(Process, Fds)
  ]

  /** The registrations, in the order they are made. */
  function Registrations(caps: Capabilities): seq<Registration>
  {
    AlwaysRegistered
    + (if caps.haveProcSelfStat then
         [Callback(Process, CpuUserSecondsTotal), Callback(Process, CpuSystemSecondsTotal),
          Callback(Process, CpuSecondsTotal), Callback(Process, VirtualMemoryBytes),
          Callback(Process, ResidentMemoryBytes), Callback(Process, StartTimeSeconds)]
       else [])
    + (if caps.haveProcSelfFd then [Callback(Process, OpenFds)] else [])
    + (if caps.haveProcSelfLimits then [Callback(Process, MaxFds)] else [])
  }

  /** A metric's gate: the flag that must be set for it to be registered. */
  predicate Gate(caps: Capabilities, m: Metric)
  {
    match m
    case Utime | Stime | Maxrss | Fds => true
    case CpuUserSecondsTotal | CpuSystemSecondsTotal | CpuSecondsTotal
       | VirtualMemoryBytes | ResidentMemoryBytes | StartTimeSeconds => caps.haveProcSelfStat
    case OpenFds => caps.haveProcSelfFd
    case MaxFds => caps.haveProcSelfLimits
  }

  /**
   * Each metric's callback is registered, in its space, exactly when its
   * gate holds: the three legacy callbacks and `fds` always, each gated one
   * only with its flag.
   */
  lemma RegistrationGating(caps: Capabilities)
    ensures forall m: Metric :: Callback(SpaceOf(m), m) in Registrations(caps) <==> Gate(caps, m)
  {
    var r := Registrations(caps);
    forall m: Metric
      ensures Callback(SpaceOf(m), m) in r <==> Gate(caps, m)
    {
      match m
      case Utime => assert r[1] == Callback(Resource, Utime);
      case Stime => assert r[2] == Callback(Resource, Stime);
      case Maxrss => assert r[3] == Callback(Resource, Maxrss);
      case Fds => assert r[4] == Callback(Process, Fds);
      case _ =>
    }
  }

  /** The legacy metrics live in the "resource" subspace, the rest in the process namespace. */
  function SpaceOf(m: Metric): Space
  {
    match m
    case Utime | Stime | Maxrss => Resource
    case _ => Process
  }

  /**
   * The collector is registered first, always, in the "resource" subspace;
   * every callback is registered in its metric's own space.
   */
  lemma RegistrationsPlaced(caps: Capabilities)
    ensures Registrations(caps)[0] == Collector(Resource)
    ensures forall reg :: reg in Registrations(caps) ==> reg == Collector(Resource) || (reg.Callback? && reg.space == SpaceOf(reg.metric))
  {
  }

  /** Nothing is registered twice. */
  lemma RegistrationsDistinct(caps: Capabilities)
    ensures forall i, j :: 0 <= i < j < |Registrations(caps)| ==> Registrations(caps)[i] != Registrations(caps)[j]
  {
  }

  /** The /proc/stat flag (boot time) decides no registration. */
  lemma RegistrationsIgnoreProcStat(caps: Capabilities)
    ensures Registrations(caps) == Registrations(caps.(haveProcStat := !caps.haveProcStat))
  {
  }

  /** Registered names are unique too: no two metrics share a name. */
  lemma MetricNamesDistinct(m: Metric, m': Metric)
    requires m != m'
    ensures m.Name() != m'.Name()
  {
  }
}
