/** The collaborators the control core talks to but does not contain: the
    service manager (`service.get_service_status`, `start_service`,
    `stop_service`, `run_command_admin`), subprocess, `time.sleep`, the tray
    notification balloon and the tray refresh hook. Each call the core issues
    is appended, in order, to the trace of a `Host`; what a call answers is
    chosen by the caller of the modelled operation (an oracle parameter). */
module System {

  datatype Call =
    | QueryService(name: string)              // service.get_service_status
    | StartService(name: string)              // service.start_service
    | StopService(name: string)               // service.stop_service
    | RunAdmin(command: string)               // service.run_command_admin
    | QueryTasks(command: string)             // subprocess.check_output of a task list
    | Spawn(command: string)                  // subprocess.Popen, hidden window
    | Sleep(millis: nat)                      // time.sleep
    | Notify(message: string, title: string)  // pystray Icon.notify
    | RefreshTray                             // tray_icon.refresh_tray_icon

  /** Calls that change the state of the driver service or of the process. */
  predicate IsControl(c: Call)
  {
    c.StartService? || c.StopService? || c.RunAdmin? || c.Spawn?
  }

  /** Call `a` is issued strictly before call `b` in trace `t`. */
  ghost predicate Precedes(t: seq<Call>, a: Call, b: Call)
  {
    exists i, j :: 0 <= i < j < |t| && t[i] == a && t[j] == b
  }

  /** How a collaborator call ended when its caller catches exceptions. */
  datatype Reply = Returned(ok: bool) | Raised

  /** The outside world, as far as the core can see it: the calls issued so far. */
  class Host {
    var calls: seq<Call>

    constructor()
      ensures calls == []
    {
      calls := [];
    }

    method Issue(c: Call)
      modifies this
      ensures calls == old(calls) + [c]
    {
      calls := calls + [c];
    }
  }
}
