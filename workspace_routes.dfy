/** The `/api/v1/workspaces` router: five handlers that call the lifecycle
    service and turn its result into a response. Each response function
    takes the service's result; each handler method wires it to the
    service. */
module WorkspaceRoutes {
  import opened Wrappers
  import opened Text
  import opened Engine
  import opened Templates
  import opened Ports
  import opened Http
  import opened ImageResolver
  import opened DockerService

  /** The fixed user every launch is attributed to. */
  const PlaceholderUser := "placeholder-user-123"

  /** `${userId}-${Date.now()}`. */
  function LaunchWorkspaceId(now: nat): string {
    PlaceholderUser + "-" + NatToDecimal(now)
  }

  /** Two launches at different milliseconds get different workspace ids,
      hence different containers and volumes. */
  lemma LaunchIdsDistinct(now1: nat, now2: nat)
    requires now1 != now2
    ensures LaunchWorkspaceId(now1) != LaunchWorkspaceId(now2)
    ensures WorkspaceName(LaunchWorkspaceId(now1)) != WorkspaceName(LaunchWorkspaceId(now2))
  {
    var prefix := PlaceholderUser + "-";
    if LaunchWorkspaceId(now1) == LaunchWorkspaceId(now2) {
      assert NatToDecimal(now1) == LaunchWorkspaceId(now1)[|prefix|..];
      assert NatToDecimal(now2) == LaunchWorkspaceId(now2)[|prefix|..];
      NatToDecimalInjective(now1, now2);
    }
    if WorkspaceName(LaunchWorkspaceId(now1)) == WorkspaceName(LaunchWorkspaceId(now2)) {
      WorkspaceNameInjective(LaunchWorkspaceId(now1), LaunchWorkspaceId(now2));
    }
  }

  /** `req.body.template`; a missing one is interpolated as "undefined". */
  function TemplateArgument(template: Option<string>): string {
    if template.Some? then template.value else "undefined"
  }

  /** The four optional members, in the order the handlers spread them. */
  function ExtraMembers(a: Access): seq<(string, Json)> {
    Spread("frontendUrl", a.frontendUrl) + Spread("backendUrl", a.backendUrl)
    + Spread("frontendPort", a.frontendPort) + Spread("backendPort", a.backendPort)
  }

  /** For the access the service reports, the optional members are all
      present, with the reported values, or all absent, as the container
      does or does not publish the two extra ports. */
  lemma ExtraMembersFollowAccess(a: Access)
    requires WellFormed(a)
    ensures HasExtras(a) ==>
      ExtraMembers(a) == [("frontendUrl", Str(LocalUrl(a.frontendPort.value))),
                          ("backendUrl", Str(LocalUrl(a.backendPort.value))),
                          ("frontendPort", Str(a.frontendPort.value)),
                          ("backendPort", Str(a.backendPort.value))]
    ensures !HasExtras(a) ==> ExtraMembers(a) == []
  {
    if HasExtras(a) {
      assert LocalUrl(a.frontendPort.value) != "" && LocalUrl(a.backendPort.value) != "";
    }
  }

  /** How an optional port member reads in a response to `a`: present
      with the reported value exactly when the container publishes the
      extra ports. */
  function ExtraValue(a: Access, key: string): Option<Json>
    requires WellFormed(a)
  {
    if !HasExtras(a) then None
    else if key == "frontendUrl" then Some(Str(a.frontendUrl.value))
    else if key == "backendUrl" then Some(Str(a.backendUrl.value))
    else if key == "frontendPort" then Some(Str(a.frontendPort.value))
    else if key == "backendPort" then Some(Str(a.backendPort.value))
    else None
  }

  const ExtraKeys: seq<string> := ["frontendUrl", "backendUrl", "frontendPort", "backendPort"]

  /** The optional members of a body made of `head`, the extras of `a`, and
      `tail`, when neither `head` nor `tail` uses their keys. */
  lemma {:induction false} ExtrasReadBack(head: seq<(string, Json)>, a: Access, tail: seq<(string, Json)>, key: string)
    requires WellFormed(a) && key in ExtraKeys
    requires forall j :: 0 <= j < |head| ==> head[j].0 !in ExtraKeys
    requires forall j :: 0 <= j < |tail| ==> tail[j].0 !in ExtraKeys
    ensures Lookup(head + ExtraMembers(a) + tail, key) == ExtraValue(a, key)
  {
    ExtraMembersFollowAccess(a);
    var m := head + ExtraMembers(a) + tail;
    if HasExtras(a) {
      var k := if key == "frontendUrl" then 0 else if key == "backendUrl" then 1
               else if key == "frontendPort" then 2 else 3;
      assert m[|head| + k].0 == key;
      LookupAt(m, |head| + k, key);
    } else {
      assert m == head + tail;
      assert key !in Keys(m);
    }
  }

  /** POST /launch. */
  function LaunchResponse(workspaceId: string, r: Result<Launched>): (res: Response)
    ensures res.status == 200 <==> r.Ok?
    ensures r.Err? ==> res == Failure("Failed to launch container.", r.message)
  {
    if r.Err? then Failure("Failed to launch container.", r.message)
    else
      Response(200, Object(LaunchMembers(workspaceId, r.value)))
  }

  /** The members of a successful launch response. */
  function LaunchMembers(workspaceId: string, launched: Launched): seq<(string, Json)> {
    LaunchHead(workspaceId, launched) + ExtraMembers(launched.access) + LaunchTail
  }

  function LaunchHead(workspaceId: string, launched: Launched): seq<(string, Json)> {
    [("workspaceId", Str(workspaceId)), ("containerId", Str(launched.containerId)),
     ("ideUrl", Str(launched.access.ideUrl)), ("idePort", Str(launched.access.idePort))]
  }

  const LaunchTail: seq<(string, Json)> := [("message", Str("Workspace launched successfully"))]

  /** A successful launch answers the workspace id, the container id and
      the IDE's URL and port, then the four `mern` members together or none
      of them, then the message. */
  lemma LaunchResponseKeys(workspaceId: string, launched: Launched)
    requires WellFormed(launched.access)
    ensures LaunchResponse(workspaceId, Ok(launched)).body.members == LaunchMembers(workspaceId, launched)
    ensures Keys(LaunchMembers(workspaceId, launched))
            == ["workspaceId", "containerId", "ideUrl", "idePort"]
               + (if HasExtras(launched.access) then ExtraKeys else []) + ["message"]
  {
    ExtraMembersFollowAccess(launched.access);
  }

  /** The fixed members of a successful launch response carry the launch's
      ids and the IDE's loopback URL and port. */
  lemma LaunchResponseValues(workspaceId: string, launched: Launched)
    requires WellFormed(launched.access)
    ensures var m := LaunchMembers(workspaceId, launched);
      && Lookup(m, "workspaceId") == Some(Str(workspaceId))
      && Lookup(m, "containerId") == Some(Str(launched.containerId))
      && Lookup(m, "ideUrl") == Some(Str(LocalUrl(launched.access.idePort)))
      && Lookup(m, "idePort") == Some(Str(launched.access.idePort))
  {
    var h := LaunchHead(workspaceId, launched);
    var m := LaunchMembers(workspaceId, launched);
    assert m == h + (ExtraMembers(launched.access) + LaunchTail);
    assert m[..4] == h;
    LookupAt(m, 0, "workspaceId");
    LookupAt(m, 1, "containerId");
    LookupAt(m, 2, "ideUrl");
    LookupAt(m, 3, "idePort");
  }

  /** The optional members of a successful launch response are the
      frontend and backend ports and URLs, all or none. */
  lemma LaunchResponseExtras(workspaceId: string, launched: Launched, key: string)
    requires WellFormed(launched.access) && key in ExtraKeys
    ensures Lookup(LaunchMembers(workspaceId, launched), key) == ExtraValue(launched.access, key)
  {
    ExtrasReadBack(LaunchHead(workspaceId, launched), launched.access, LaunchTail, key);
  }

  /** The answer of the stop and delete routes: 200 with "Workspace <id>
      <done>" and the id, or 500 with `error` and the service's message. */
  function ActionResponse(workspaceId: string, r: Outcome, error: string, done: string): (res: Response)
    ensures res.status == 200 <==> r.Pass?
    ensures r.Fail? ==> res == Failure(error, r.message)
  {
    if r.Fail? then Failure(error, r.message)
    else Response(200, Object([("message", Str("Workspace " + workspaceId + " " + done)),
                               ("workspaceId", Str(workspaceId))]))
  }

  function ResumeResponse(workspaceId: string, r: Result<Access>): (res: Response)
    ensures res.status == 200 <==> r.Ok?
    ensures r.Err? ==> res == Failure("Failed to resume workspace", r.message)
  {
    if r.Err? then Failure("Failed to resume workspace", r.message)
    else Response(200, Object(ResumeHead(workspaceId, r.value) + ExtraMembers(r.value)))
  }

  function ResumeHead(workspaceId: string, a: Access): seq<(string, Json)> {
    [("message", Str("Workspace " + workspaceId + " resumed.")), ("workspaceId", Str(workspaceId)),
     ("idePort", Str(a.idePort)), ("ideUrl", Str(a.ideUrl))]
  }

  /** A successful resume answers the workspace id and the IDE's port and
      URL, then the four `mern` members together or none of them. */
  lemma ResumeResponseKeys(workspaceId: string, a: Access)
    requires WellFormed(a)
    ensures ResumeResponse(workspaceId, Ok(a)).body.members == ResumeHead(workspaceId, a) + ExtraMembers(a)
    ensures Keys(ResumeHead(workspaceId, a) + ExtraMembers(a))
            == ["message", "workspaceId", "idePort", "ideUrl"] + (if HasExtras(a) then ExtraKeys else [])
  {
    ExtraMembersFollowAccess(a);
  }

  lemma ResumeResponseValues(workspaceId: string, a: Access)
    requires WellFormed(a)
    ensures var m := ResumeHead(workspaceId, a) + ExtraMembers(a);
      && Lookup(m, "workspaceId") == Some(Str(workspaceId))
      && Lookup(m, "idePort") == Some(Str(a.idePort))
      && Lookup(m, "ideUrl") == Some(Str(LocalUrl(a.idePort)))
  {
    ResumeHeadLookup(workspaceId, a, ExtraMembers(a), 1, "workspaceId");
    ResumeHeadLookup(workspaceId, a, ExtraMembers(a), 2, "idePort");
    ResumeHeadLookup(workspaceId, a, ExtraMembers(a), 3, "ideUrl");
  }

  lemma ResumeHeadLookup(workspaceId: string, a: Access, tail: seq<(string, Json)>, i: nat, key: string)
    requires 1 <= i < 4 && key == ["", "workspaceId", "idePort", "ideUrl"][i]
    ensures Lookup(ResumeHead(workspaceId, a) + tail, key) == Some(ResumeHead(workspaceId, a)[i].1)
  {
    LookupInHead(ResumeHead(workspaceId, a), tail, i, key);
  }

  lemma ResumeResponseExtras(workspaceId: string, a: Access, key: string)
    requires WellFormed(a) && key in ExtraKeys
    ensures Lookup(ResumeHead(workspaceId, a) + ExtraMembers(a), key) == ExtraValue(a, key)
  {
    ExtrasReadBack(ResumeHead(workspaceId, a), a, [], key);
    assert ResumeHead(workspaceId, a) + ExtraMembers(a) + [] == ResumeHead(workspaceId, a) + ExtraMembers(a);
  }

  /** `req.body.command`: anything that is not an array, or an array (of
      strings). */
  datatype CommandField = NotArray | Items(items: seq<string>)

  predicate ValidCommand(command: CommandField) {
    command.Items? && |command.items| > 0
  }

  const InvalidCommand := Response(400, Object([("error", Str("Command must be a non-empty array of strings."))]))

  /** POST /:workspaceId/exec once the command was accepted; the command is
      echoed joined by single spaces. */
  function ExecResponse(command: seq<string>, r: Result<string>): (res: Response)
    ensures res.status == 200 <==> r.Ok?
    ensures r.Err? ==> res == Failure("Failed to execute command", r.message)
  {
    if r.Err? then Failure("Failed to execute command", r.message)
    else Response(200, Object([("message", Str("Command executed successfully.")),
                               ("command", Str(Join(command, " "))),
                               ("output", Str(r.value))]))
  }

  /** A successful exec answers the output and the command echoed joined by
      spaces, which splits back into the argument vector whenever no
      argument contains a space. */
  lemma {:induction false} ExecEchoesCommand(command: seq<string>, output: string)
    requires |command| >= 1
    requires forall i :: 0 <= i < |command| ==> ' ' !in command[i]
    ensures var m := ExecResponse(command, Ok(output)).body.members;
      && Lookup(m, "output") == Some(Str(output))
      && Lookup(m, "command") == Some(Str(Join(command, " ")))
      && Split(Join(command, " "), ' ') == command
  {
    var m := ExecResponse(command, Ok(output)).body.members;
    LookupAt(m, 1, "command");
    LookupAt(m, 2, "output");
    JoinThenSplit(command, ' ');
  }

  /** POST /launch, wired to the service. */
  method PostLaunch(service: Service, template: Option<string>, now: nat, o: LaunchOracle)
    returns (launched: Result<Launched>, res: Response)
    requires o.volumeFault.Some? ==> !Contains(o.volumeFault.value, "already exists")
    modifies service`docker, service.engine
    ensures res == LaunchResponse(LaunchWorkspaceId(now), launched)
    ensures res.status == 200 <==>
      && CanConnect(old(service.docker), o.pings) && o.ping
      && LaunchSucceeds(TemplateArgument(template), WorkspaceName(LaunchWorkspaceId(now)), o,
                        old(service.engine.images), old(service.engine.volumes), old(service.engine.containers))
    ensures launched.Ok? ==>
      service.LaunchedAs(TemplateArgument(template), LaunchWorkspaceId(now), o, old(service.engine.containers), launched.value)
    ensures (CanConnect(old(service.docker), o.pings) && o.ping && TemplateImage(TemplateArgument(template)).Some?) ==>
      var name := WorkspaceName(LaunchWorkspaceId(now));
      var image := TemplateImage(TemplateArgument(template)).value;
      && service.engine.images == ImagesAfter(old(service.engine.images), image, o.buildFault)
      && service.engine.volumes == VolumesAfter(image, name, o, old(service.engine.images), old(service.engine.volumes))
      && service.engine.containers
         == ContainersAfter(TemplateArgument(template), name, o,
                            old(service.engine.images), old(service.engine.volumes), old(service.engine.containers))
    ensures !(CanConnect(old(service.docker), o.pings) && o.ping && TemplateImage(TemplateArgument(template)).Some?) ==>
      && service.engine.images == old(service.engine.images)
      && service.engine.volumes == old(service.engine.volumes)
      && service.engine.containers == old(service.engine.containers)
    ensures TemplateArgument(template) !in Known ==>
      && res.status == 500
      && service.engine.images == old(service.engine.images)
      && service.engine.volumes == old(service.engine.volumes)
      && service.engine.containers == old(service.engine.containers)
  {
    var workspaceId := LaunchWorkspaceId(now);
    launched := service.LaunchWorkspace(PlaceholderUser, TemplateArgument(template), workspaceId, o);
    res := LaunchResponse(workspaceId, launched);
  }

  /** POST /:workspaceId/stop, wired to the service. */
  method PostStop(service: Service, workspaceId: string, pings: seq<bool>) returns (res: Response)
    modifies service`docker, service.engine
    ensures var name := WorkspaceName(workspaceId);
      res.status == 200 <==> CanConnect(old(service.docker), pings) && name in old(service.engine.containers)
                             && old(service.engine.containers)[name].running
    ensures res.status != 200 ==> res.status == 500 && service.engine.containers == old(service.engine.containers)
    ensures var name := WorkspaceName(workspaceId);
      res.status == 200 ==>
      service.engine.containers == old(service.engine.containers)[name := old(service.engine.containers)[name].(running := false)]
    ensures service.engine.images == old(service.engine.images) && service.engine.volumes == old(service.engine.volumes)
  {
    var r := service.StopWorkspace(workspaceId, pings);
    res := ActionResponse(workspaceId, r, "Failed to stop workspace", "stopped.");
  }

  /** POST /:workspaceId/start, wired to the service. */
  method PostStart(service: Service, workspaceId: string, pings: seq<bool>, startFault: Option<string>, bindings: PortTable)
    returns (resumed: Result<Access>, res: Response)
    modifies service`docker, service.engine
    ensures res == ResumeResponse(workspaceId, resumed)
    ensures resumed.Ok? ==> ResolveResumeAccess(bindings) == Ok(resumed.value)
    ensures var name := WorkspaceName(workspaceId);
      res.status == 200 <==> && CanConnect(old(service.docker), pings)
                             && name in old(service.engine.containers) && !old(service.engine.containers)[name].running
                             && startFault.None? && ResolveResumeAccess(bindings).Ok?
    ensures service.engine.containers
            == ContainersAfterResume(CanConnect(old(service.docker), pings), WorkspaceName(workspaceId),
                                     startFault, bindings, old(service.engine.containers))
    ensures service.engine.images == old(service.engine.images) && service.engine.volumes == old(service.engine.volumes)
  {
    resumed := service.ResumeWorkspace(workspaceId, pings, startFault, bindings);
    res := ResumeResponse(workspaceId, resumed);
  }

  /** DELETE /:workspaceId, wired to the service: it answers 200 whenever the
      engine is reachable, and the container is gone afterwards. */
  method Delete(service: Service, workspaceId: string, pings: seq<bool>) returns (res: Response)
    modifies service`docker, service.engine
    ensures res.status == 200 <==> CanConnect(old(service.docker), pings)
    ensures res.status == 200 ==> WorkspaceName(workspaceId) !in service.engine.containers
    ensures res.status != 200 ==> res == Failure("Failed to delete workspace", DeleteFailedPrefix + DaemonUnreachable)
    ensures var name := WorkspaceName(workspaceId);
      res.status == 200 ==>
      && service.engine.containers == old(service.engine.containers) - {name}
      && service.engine.volumes
         == if name in old(service.engine.containers) && !VolumeInUse(old(service.engine.containers) - {name}, name)
            then old(service.engine.volumes) - {name}
            else old(service.engine.volumes)
    ensures res.status != 200 ==>
      service.engine.containers == old(service.engine.containers) && service.engine.volumes == old(service.engine.volumes)
    ensures service.engine.images == old(service.engine.images)
  {
    var r := service.DeleteWorkspace(workspaceId, pings);
    res := ActionResponse(workspaceId, r, "Failed to delete workspace", "successfully deleted.");
  }

  /** POST /:workspaceId/exec, wired to the service: an invalid command is
      refused before the service is called. */
  method PostExec(service: Service, workspaceId: string, command: CommandField, pings: seq<bool>, stream: ExecStream)
    returns (res: Response)
    modifies service`docker
    ensures !ValidCommand(command) ==> res == InvalidCommand && service.docker == old(service.docker)
    ensures ValidCommand(command) ==>
      res == ExecResponse(command.items, ExecOutcome(CanConnect(old(service.docker), pings),
                                                     service.engine.ExecStart(WorkspaceName(workspaceId)), stream))
    ensures var name := WorkspaceName(workspaceId);
      (ValidCommand(command) && CanConnect(old(service.docker), pings) && name in service.engine.containers
       && service.engine.containers[name].running && stream.error.None?) ==>
      res == ExecResponse(command.items, Ok(Concat(stream.chunks)))
    ensures ValidCommand(command) ==> res.status == 200 || res.status == 500
  {
    if !ValidCommand(command) {
      return InvalidCommand;
    }
    var r := service.ExecInContainer(workspaceId, command.items, pings, stream);
    res := ExecResponse(command.items, r);
  }
}
