/** Recovering engine-chosen host ports from an inspected container
    (`getPortMapping`) and building the access URLs that launch and resume
    return. */
module Ports {
  import opened Wrappers
  import opened Engine
  import opened Templates

  /** `http://localhost:<port>`. */
  function LocalUrl(port: string): string {
    "http://localhost:" + port
  }

  const NoPortsMessage := "No ports found in NetworkSettings"

  function NoMappingMessage(key: string): string {
    "No port mapping found for " + key
  }

  function NoHostPortMessage(key: string): string {
    "HostPort not found for " + key
  }

  /** `ports[key]` is a non-empty array. */
  predicate HasBindings(ports: map<string, PortEntry>, key: string) {
    key in ports && ports[key].Bindings? && |ports[key].bindings| > 0
  }

  /** `getPortMapping(info, key)`: the `HostPort` of the first binding under
      `key`, or an error; it never substitutes a default. */
  function GetPortMapping(info: PortTable, key: string): (r: Result<string>)
    ensures !info.Ports? ==> r == Err(NoPortsMessage)
    ensures info.Ports? && !HasBindings(info.entries, key) ==> r == Err(NoMappingMessage(key))
    ensures (info.Ports? && HasBindings(info.entries, key)
             && info.entries[key].bindings[0].hostPort in {None, Some("")}) ==> r == Err(NoHostPortMessage(key))
    ensures r.Ok? ==> r.value != "" && info.Ports? && HasBindings(info.entries, key)
                      && info.entries[key].bindings[0].hostPort == Some(r.value)
  {
    if !info.Ports? then Err(NoPortsMessage)
    else if !HasBindings(info.entries, key) then Err(NoMappingMessage(key))
    else
      var hostPort := info.entries[key].bindings[0].hostPort;
      if hostPort.None? || hostPort.value == "" then Err(NoHostPortMessage(key))
      else Ok(hostPort.value)
  }

  /** A port the engine published first in the list is what is reported,
      whatever bindings follow it. */
  lemma PublishedPortIsReported(ports: map<string, PortEntry>, key: string, hostPort: string, rest: seq<Binding>)
    requires hostPort != ""
    ensures GetPortMapping(Ports(ports[key := Bindings([Binding(Some(hostPort))] + rest)]), key) == Ok(hostPort)
  {
  }

  predicate Resolves(info: PortTable, key: string) {
    GetPortMapping(info, key).Ok?
  }

  /** What launch and resume report: the IDE port and URL and, for a
      multi-service container, the frontend and backend ports and URLs. */
  datatype Access = Access(
    idePort: string,
    ideUrl: string,
    frontendPort: Option<string>,
    backendPort: Option<string>,
    frontendUrl: Option<string>,
    backendUrl: Option<string>)

  /** Every URL is the loopback URL of its port, every port is non-empty,
      and the four extra fields are present together or not at all. */
  predicate WellFormed(a: Access) {
    && a.idePort != "" && a.ideUrl == LocalUrl(a.idePort)
    && a.frontendPort.Some? == a.backendPort.Some? == a.frontendUrl.Some? == a.backendUrl.Some?
    && (a.frontendPort.Some? ==>
          && a.frontendPort.value != "" && a.backendPort.value != ""
          && a.frontendUrl == Some(LocalUrl(a.frontendPort.value))
          && a.backendUrl == Some(LocalUrl(a.backendPort.value)))
  }

  predicate HasExtras(a: Access) {
    a.frontendPort.Some?
  }

  function IdeOnly(ide: string): Access {
    Access(ide, LocalUrl(ide), None, None, None, None)
  }

  function WithExtras(ide: string, frontend: string, backend: string): Access {
    Access(ide, LocalUrl(ide), Some(frontend), Some(backend), Some(LocalUrl(frontend)), Some(LocalUrl(backend)))
  }

  /** The port part of `launchWorkspace` after inspect: the IDE port always,
      and the 3000/tcp and 5000/tcp ports exactly for `mern`. */
  function ResolveLaunchAccess(template: string, info: PortTable): (r: Result<Access>)
    ensures r.Ok? <==> Resolves(info, IdePortKey)
                       && (template == "mern" ==> Resolves(info, FrontendPortKey) && Resolves(info, BackendPortKey))
    ensures r.Ok? ==> WellFormed(r.value) && (HasExtras(r.value) <==> template == "mern")
    ensures r.Ok? ==> GetPortMapping(info, IdePortKey) == Ok(r.value.idePort)
    ensures r.Ok? && HasExtras(r.value) ==>
      && GetPortMapping(info, FrontendPortKey) == Ok(r.value.frontendPort.value)
      && GetPortMapping(info, BackendPortKey) == Ok(r.value.backendPort.value)
    ensures !Resolves(info, IdePortKey) ==> r == Err(GetPortMapping(info, IdePortKey).message)
    ensures (Resolves(info, IdePortKey) && template == "mern" && !Resolves(info, FrontendPortKey)) ==>
      r == Err(GetPortMapping(info, FrontendPortKey).message)
    ensures (Resolves(info, IdePortKey) && template == "mern" && Resolves(info, FrontendPortKey)
             && !Resolves(info, BackendPortKey)) ==>
      r == Err(GetPortMapping(info, BackendPortKey).message)
  {
    var ide :- GetPortMapping(info, IdePortKey);
    if template == "mern" then
      var frontend :- GetPortMapping(info, FrontendPortKey);
      var backend :- GetPortMapping(info, BackendPortKey);
      Ok(WithExtras(ide, frontend, backend))
    else
      Ok(IdeOnly(ide))
  }

  /** `ports[key]` is truthy: present and not null. An empty array and a
      non-array value are truthy too; only absence and `null` are falsy,
      since the engine never stores `false`, 0 or "" under a port key. */
  predicate Truthy(ports: map<string, PortEntry>, key: string) {
    key in ports && !ports[key].NullEntry?
  }

  /** `info.NetworkSettings?.Ports || {}`. */
  function PortsOrEmpty(info: PortTable): map<string, PortEntry> {
    if info.Ports? then info.entries else map[]
  }

  /** The port part of `resumeWorkspace` after inspect: the IDE port always,
      and the extra ports whenever both 3000/tcp and 5000/tcp entries are
      truthy, whatever the template was. */
  function ResolveResumeAccess(info: PortTable): (r: Result<Access>)
    ensures r.Ok? ==> WellFormed(r.value)
    ensures r.Ok? ==> (HasExtras(r.value) <==>
                       Truthy(PortsOrEmpty(info), FrontendPortKey) && Truthy(PortsOrEmpty(info), BackendPortKey))
    ensures r.Ok? <==> Resolves(info, IdePortKey)
                       && (Truthy(PortsOrEmpty(info), FrontendPortKey) && Truthy(PortsOrEmpty(info), BackendPortKey)
                           ==> Resolves(info, FrontendPortKey) && Resolves(info, BackendPortKey))
    ensures r.Ok? ==> GetPortMapping(info, IdePortKey) == Ok(r.value.idePort)
    ensures r.Ok? && HasExtras(r.value) ==>
      && GetPortMapping(info, FrontendPortKey) == Ok(r.value.frontendPort.value)
      && GetPortMapping(info, BackendPortKey) == Ok(r.value.backendPort.value)
    ensures !Resolves(info, IdePortKey) ==> r == Err(GetPortMapping(info, IdePortKey).message)
    ensures (Resolves(info, IdePortKey) && Truthy(PortsOrEmpty(info), FrontendPortKey)
             && Truthy(PortsOrEmpty(info), BackendPortKey) && !Resolves(info, FrontendPortKey)) ==>
      r == Err(GetPortMapping(info, FrontendPortKey).message)
    ensures (Resolves(info, IdePortKey) && Truthy(PortsOrEmpty(info), FrontendPortKey)
             && Truthy(PortsOrEmpty(info), BackendPortKey) && Resolves(info, FrontendPortKey)
             && !Resolves(info, BackendPortKey)) ==>
      r == Err(GetPortMapping(info, BackendPortKey).message)
  {
    var ide :- GetPortMapping(info, IdePortKey);
    var ports := PortsOrEmpty(info);
    if Truthy(ports, FrontendPortKey) && Truthy(ports, BackendPortKey) then
      var frontend :- GetPortMapping(info, FrontendPortKey);
      var backend :- GetPortMapping(info, BackendPortKey);
      Ok(WithExtras(ide, frontend, backend))
    else
      Ok(IdeOnly(ide))
  }

  /** Resuming a container whose three ports are all published reports
      exactly what launching it as `mern` reported. */
  lemma ResumeAgreesWithMernLaunch(info: PortTable)
    requires Resolves(info, IdePortKey) && Resolves(info, FrontendPortKey) && Resolves(info, BackendPortKey)
    ensures ResolveResumeAccess(info) == ResolveLaunchAccess("mern", info)
  {
    assert HasBindings(info.entries, FrontendPortKey) && HasBindings(info.entries, BackendPortKey);
  }

  /** Resuming a container without the two extra entries reports exactly what
      launching it as a single-port template reported. */
  lemma ResumeAgreesWithSinglePortLaunch(template: string, info: PortTable)
    requires template != "mern"
    requires FrontendPortKey !in PortsOrEmpty(info) || BackendPortKey !in PortsOrEmpty(info)
    ensures ResolveResumeAccess(info) == ResolveLaunchAccess(template, info)
  {
  }

  /** An empty array is truthy: when 3000/tcp and 5000/tcp are present but
      hold empty arrays, resume tries to resolve them and fails, while a
      single-port launch of the same container succeeds. */
  lemma EmptyExtraArrayFailsResume(ports: map<string, PortEntry>, ide: string)
    requires ide != ""
    requires ports == map[IdePortKey := Bindings([Binding(Some(ide))]),
                          FrontendPortKey := Bindings([]),
                          BackendPortKey := Bindings([])]
    ensures ResolveLaunchAccess("python", Ports(ports)) == Ok(IdeOnly(ide))
    ensures ResolveResumeAccess(Ports(ports)) == Err(NoMappingMessage(FrontendPortKey))
  {
    assert Truthy(ports, FrontendPortKey) && Truthy(ports, BackendPortKey);
    assert !HasBindings(ports, FrontendPortKey);
  }
}
