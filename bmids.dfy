/** The script's top level in source order: the shared probe socket is created first,
    then the files, processes and ports policies are walked one after the other. */
module Bmids {
  import opened Policy
  import opened FileWatch
  import opened ProcessAudit
  import opened PortAudit

  method Run(files: seq<FileEntry>, processes: seq<ProcessTarget>, snaps: seq<seq<ProcEntry>>,
             ports: seq<PortTarget>, outcomes: seq<BindOutcome>)
    returns (threads: seq<Observer>, console: seq<ConsoleLine>, log: seq<Alert>, testsock: ProbeSocket)
    requires |snaps| == |processes| && |outcomes| == |ports|
    ensures |threads| == |files|
    ensures forall i :: 0 <= i < |files| ==> ScheduledFor(threads[i], files[i])
    ensures console == FileConsole(files)
    ensures log == ProcessVerdicts(processes, snaps) + PortVerdicts(ports, outcomes)
    ensures testsock.calls == ProbeCalls(ports, outcomes)
    ensures testsock.state == if ports == [] then Unbound else Closed
  {
    testsock := new ProbeSocket();
    threads, console := WatchFiles(files);
    var processLog := AuditProcesses(processes, snaps);
    var portLog := AuditPorts(testsock, ports, outcomes);
    log := processLog + portLog;
  }
}
