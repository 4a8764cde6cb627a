/** The cross-platform demo's process listing back end: a getter class
    chosen by operating-system name, each with the command it runs. Running
    the command is outside the model: listing processes yields the command
    line that would be run. */
module ProcessBackend {
  import opened Common

  datatype Getter = GenericProcessGetter | LinuxProcessGetter | MacBsdProcessGetter | WindowsProcessGetter

  const NoBackend := "No backend for OS"
  const NotImplemented := "NotImplementedError"

  /** The class attribute `cmd` of each getter. */
  function Cmd(getter: Getter): seq<string> {
    match getter
    case GenericProcessGetter => []
    case LinuxProcessGetter => ["ps", "-e", "--format", "comm", "--no-heading"]
    case MacBsdProcessGetter => ["ps", "-e", "-o", "comm=''", "-c"]
    case WindowsProcessGetter => ["tasklist", "/nh", "/fo", "CSV"]
  }

  /** `get_process_getter_class`: a table lookup whose `KeyError` becomes
      `NotImplementedError("No backend for OS")`. */
  function ProcessGetterFor(osName: string): (r: Result<Getter, string>)
    ensures r == Ok(LinuxProcessGetter) <==> osName == "Linux"
    ensures r == Ok(MacBsdProcessGetter) <==> osName == "Darwin" || osName == "freebsd7"
    ensures r == Ok(WindowsProcessGetter) <==> osName == "Windows"
    ensures r.Err? <==> osName !in {"Linux", "Darwin", "Windows", "freebsd7"}
    ensures r.Err? ==> r.error == NoBackend
    ensures r != Ok(GenericProcessGetter)
  {
    var backends := map["Linux" := LinuxProcessGetter, "Darwin" := MacBsdProcessGetter,
                        "Windows" := WindowsProcessGetter, "freebsd7" := MacBsdProcessGetter];
    if osName in backends then Ok(backends[osName]) else Err(NoBackend)
  }

  /** `get_process_list`: the command to run, or `NotImplementedError` when
      the getter has none. */
  function ProcessList(getter: Getter): (r: Result<seq<string>, string>)
    ensures r.Err? <==> getter == GenericProcessGetter
    ensures r.Err? ==> r.error == NotImplemented
    ensures r.Ok? ==> r.value == Cmd(getter) && |r.value| > 0
  {
    if |Cmd(getter)| > 0 then Ok(Cmd(getter)) else Err(NotImplemented)
  }

  /** Every getter the dispatcher hands out can list processes: the generic
      getter, the only one without a command, is never returned. */
  lemma DispatchedGetterLists(osName: string)
    requires ProcessGetterFor(osName).Ok?
    ensures ProcessList(ProcessGetterFor(osName).value).Ok?
  {
  }
}
