/** The workspace lifecycle service: the shared engine handle and how it is
    established, and the five lifecycle operations. Every operation addresses
    its container and its volume by the same deterministic name
    `devpod-<workspaceId>`. */
module DockerService {
  import opened Wrappers
  import opened Text
  import opened Engine
  import opened Templates
  import opened Ports
  import opened ImageResolver

  // ---------------------------------------------------------------------
  // Engine connector
  // ---------------------------------------------------------------------

  /** A client configuration to try. */
  datatype Transport =
    | Tcp(host: string, port: nat, protocol: string)
    | SocketPath(path: string)
    | DefaultConfig

  /** The candidates, in the order they are tried: the TCP API, the Windows
      named pipe, the Unix socket, and the client's defaults. */
  const Candidates: seq<Transport> := [
    Tcp("localhost", 2375, "http"),
    SocketPath("\\\\.\\pipe\\docker_engine"),
    SocketPath("/var/run/docker.sock"),
    DefaultConfig
  ]

  /** Whether the ping of candidate `i` answers in time; an outcome missing
      from the oracle counts as a timeout. */
  predicate Probe(pings: seq<bool>, i: nat) {
    i < |pings| && pings[i]
  }

  function FirstReachableFrom(pings: seq<bool>, i: nat): Option<nat>
    decreases |Candidates| - i
  {
    if i >= |Candidates| then None
    else if Probe(pings, i) then Some(i)
    else FirstReachableFrom(pings, i + 1)
  }

  /** The index of the candidate the connector adopts, if any. */
  function FirstReachable(pings: seq<bool>): Option<nat> {
    FirstReachableFrom(pings, 0)
  }

  lemma {:induction false} FirstReachableFromSpec(pings: seq<bool>, i: nat, k: nat)
    requires i <= |Candidates|
    requires forall j: nat :: j < i ==> !Probe(pings, j)
    ensures FirstReachableFrom(pings, i) == Some(k) <==>
            k < |Candidates| && Probe(pings, k) && forall j: nat :: j < k ==> !Probe(pings, j)
    ensures FirstReachableFrom(pings, i).None? <==> forall j: nat :: j < |Candidates| ==> !Probe(pings, j)
    decreases |Candidates| - i
  {
    if i < |Candidates| && !Probe(pings, i) {
      FirstReachableFromSpec(pings, i + 1, k);
    }
  }

  /** The connector adopts candidate `k` exactly when `k` is the first
      candidate whose ping succeeds; it adopts none exactly when all four
      fail. */
  lemma FirstReachableSpec(pings: seq<bool>, k: nat)
    ensures FirstReachable(pings) == Some(k) <==>
            k < |Candidates| && Probe(pings, k) && forall j: nat :: j < k ==> !Probe(pings, j)
    ensures FirstReachable(pings).None? <==> forall j: nat :: j < |Candidates| ==> !Probe(pings, j)
  {
    FirstReachableFromSpec(pings, 0, k);
  }

  /** The handle after `if (!docker) await initializeDocker()`. */
  function Connect(handle: Option<Transport>, pings: seq<bool>): Option<Transport> {
    if handle.Some? then handle
    else match FirstReachable(pings)
      case Some(i) => Some(Candidates[i])
      case None => None
  }

  predicate CanConnect(handle: Option<Transport>, pings: seq<bool>) {
    Connect(handle, pings).Some?
  }

  /** Once a handle exists it is kept, and no probe outcome matters. */
  lemma ConnectKeepsHandle(handle: Option<Transport>, pings: seq<bool>, other: seq<bool>)
    requires handle.Some?
    ensures Connect(handle, pings) == handle == Connect(handle, other)
  {
  }

  // ---------------------------------------------------------------------
  // Names and messages
  // ---------------------------------------------------------------------

  /** The container name and the volume name of a workspace. */
  function WorkspaceName(workspaceId: string): (name: string)
    ensures |name| == 7 + |workspaceId| && name[7..] == workspaceId
  {
    "devpod-" + workspaceId
  }

  /** One workspace id addresses one container and one volume, and
      different ids never share them. */
  lemma WorkspaceNameInjective(a: string, b: string)
    requires WorkspaceName(a) == WorkspaceName(b)
    ensures a == b
  {
    assert a == WorkspaceName(a)[7..] == WorkspaceName(b)[7..] == b;
  }

  const WorkspaceDir := "/workspace"

  /** The phrase both connection failures start with, which launch
      recognises. */
  const NotAccessible := "Docker daemon not accessible"

  const DaemonUnreachable := NotAccessible +
    ". Please ensure Docker Desktop is running and API is enabled in Settings → General → \"Expose daemon on tcp://localhost:2375\""
  const PingFailed := NotAccessible + ". Please ensure Docker Desktop is running and API is enabled."
  const DockerNotRunning :=
    "Docker is not running. Please start Docker Desktop and enable API access in Settings → General → \"Expose daemon on tcp://localhost:2375\""
  const DownloadFailed := "Failed to download required Docker image. Please check your internet connection."
  const PortAllocationFailed := "Failed to allocate ports for workspace. Please try again."
  /** What reading `info.NetworkSettings.Ports` throws when `NetworkSettings` is missing. */
  const NetworkSettingsUndefined := "Cannot read properties of undefined (reading 'Ports')"

  const UnsupportedHead := "Template '"
  const UnsupportedTail := "' not supported. Available templates: " + AvailableList

  function UnsupportedTemplate(template: string): string {
    UnsupportedHead + template + UnsupportedTail
  }

  function LaunchFailed(message: string): string {
    "Workspace launch failed: " + message
  }

  /** The message launch rethrows in place of `message`: the first of the
      four substrings it contains decides, otherwise it is wrapped. */
  function ClassifyLaunchError(message: string): (r: string)
    ensures Contains(message, NotAccessible) ==> r == DockerNotRunning
    ensures (!Contains(message, NotAccessible) && Contains(message, "pull Docker image")) ==> r == DownloadFailed
    ensures (!Contains(message, NotAccessible) && !Contains(message, "pull Docker image")
             && Contains(message, "Template")) ==> r == message
    ensures (!Contains(message, NotAccessible) && !Contains(message, "pull Docker image")
             && !Contains(message, "Template") && Contains(message, "port mapping")) ==> r == PortAllocationFailed
    ensures (!Contains(message, NotAccessible) && !Contains(message, "pull Docker image")
             && !Contains(message, "Template") && !Contains(message, "port mapping")) ==> r == LaunchFailed(message)
  {
    if Contains(message, NotAccessible) then DockerNotRunning
    else if Contains(message, "pull Docker image") then DownloadFailed
    else if Contains(message, "Template") then message
    else if Contains(message, "port mapping") then PortAllocationFailed
    else LaunchFailed(message)
  }

  /** Both ways of failing to reach the daemon are reported as "Docker is
      not running". */
  lemma UnreachableClassified()
    ensures ClassifyLaunchError(DaemonUnreachable) == DockerNotRunning
    ensures ClassifyLaunchError(PingFailed) == DockerNotRunning
  {
    ContainsPrefix(NotAccessible, DaemonUnreachable[|NotAccessible|..]);
    ContainsPrefix(NotAccessible, PingFailed[|NotAccessible|..]);
  }

  /** A message without a capital `D` escapes the first two patterns. */
  lemma NoCapitalD(message: string)
    requires 'D' !in message
    ensures !Contains(message, NotAccessible) && !Contains(message, "pull Docker image")
  {
    NotContainsWithoutChar(message, NotAccessible, 'D');
    NotContainsWithoutChar(message, "pull Docker image", 'D');
  }

  /** An unsupported template name is rethrown unchanged, provided the name
      itself carries no `D` (which the first two patterns need). */
  lemma UnsupportedTemplateKept(template: string)
    requires 'D' !in template
    ensures ClassifyLaunchError(UnsupportedTemplate(template)) == UnsupportedTemplate(template)
  {
    var m := UnsupportedTemplate(template);
    assert 'D' !in UnsupportedTail;
    assert 'D' !in m;
    NoCapitalD(m);
    ContainsPrefix("Template", m[8..]);
    assert m == "Template" + m[8..];
  }

  /** A message that mentions a port mapping, and no capital `D` or `T`,
      reads as a port-allocation failure. */
  lemma PortMappingClassified(head: string, tail: string)
    requires 'D' !in head && 'D' !in tail && 'T' !in head && 'T' !in tail
    ensures ClassifyLaunchError(head + "port mapping" + tail) == PortAllocationFailed
  {
    var m := head + "port mapping" + tail;
    NoCapitalD(m);
    NotContainsWithoutChar(m, "Template", 'T');
    ContainsInfix(head, "port mapping", tail);
  }

  /** A message without a capital `D` or `T` and without an `m` matches no
      pattern and is wrapped. */
  lemma UnrecognisedWrapped(m: string)
    requires 'D' !in m && 'T' !in m && 'm' !in m
    ensures ClassifyLaunchError(m) == LaunchFailed(m)
  {
    NoCapitalD(m);
    NotContainsWithoutChar(m, "Template", 'T');
    NotContainsWithoutChar(m, "port mapping", 'm');
  }

  /** A missing or empty IDE port entry reads as a port-allocation failure. */
  lemma MissingIdeMappingClassified()
    ensures ClassifyLaunchError(NoMappingMessage(IdePortKey)) == PortAllocationFailed
  {
    assert NoMappingMessage(IdePortKey) == "No " + "port mapping" + " found for 8080/tcp";
    PortMappingClassified("No ", " found for 8080/tcp");
  }

  /** A binding without a `HostPort` is not recognised: launch reports it
      as a generic failure. */
  lemma MissingHostPortWrapped()
    ensures ClassifyLaunchError(NoHostPortMessage(IdePortKey)) == LaunchFailed(NoHostPortMessage(IdePortKey))
  {
    UnrecognisedWrapped(NoHostPortMessage(IdePortKey));
  }

  /** Neither is a container without a port table. */
  lemma MissingPortTableWrapped()
    ensures ClassifyLaunchError(NoPortsMessage) == LaunchFailed(NoPortsMessage)
  {
    UnrecognisedWrapped(NoPortsMessage);
  }

  const StopFailedPrefix := "Failed to stop workspace: "
  const ResumeFailedPrefix := "Failed to resume workspace: "
  const DeleteFailedPrefix := "Failed to delete workspace: "
  const ExecFailedPrefix := "Failed to execute command: "

  // ---------------------------------------------------------------------
  // Oracles and results
  // ---------------------------------------------------------------------

  /** Everything launch learns from outside the engine state: the probe
      outcomes of a first connection, the ping on an existing handle, the
      build's error, a volume-creation failure, the id of the new container,
      a start failure, and the ports the engine publishes on start. */
  datatype LaunchOracle = LaunchOracle(
    pings: seq<bool>,
    ping: bool,
    buildFault: Option<string>,
    volumeFault: Option<string>,
    containerId: string,
    startFault: Option<string>,
    bindings: PortTable)

  /** The exec stream: the chunks it emits before it ends, and the error it
      emits instead of ending, if any. */
  datatype ExecStream = ExecStream(chunks: seq<string>, error: Option<string>)

  datatype Launched = Launched(containerId: string, access: Access)

  /** The container a launch creates for `template` under `name`. */
  function SpecFor(image: string, profile: Profile, name: string): ContainerSpec {
    ContainerSpec(image, profile.exposedPorts, profile.env, profile.cmd, WorkspaceDir,
                  profile.portBindings, profile.memory, profile.nanoCpus,
                  [Bind(name, WorkspaceDir)], false, "bridge")
  }

  /** Making the image and the volume available: the image step's failure,
      or a volume-creation failure other than "already exists", or success.
      An existing volume is reused, so the volume step never fails for it. */
  function StorageOutcome(image: string, name: string, o: LaunchOracle, images: seq<Image>, volumes: set<string>)
    : Outcome
  {
    var ensured := ImageOutcome(images, image, o.buildFault);
    if ensured.Fail? then ensured
    else if name !in volumes && o.volumeFault.Some? then Fail(o.volumeFault.value)
    else Pass
  }

  /** What starting and inspecting a freshly created container yields: the
      start failure, the missing `NetworkSettings`, a port that does not
      resolve, or the reported access. */
  function StartOutcome(template: string, o: LaunchOracle): Result<Launched> {
    if o.startFault.Some? then Err(o.startFault.value)
    else if o.bindings.NoNetworkSettings? then Err(NetworkSettingsUndefined)
    else match ResolveLaunchAccess(template, o.bindings)
      case Ok(a) => Ok(Launched(o.containerId, a))
      case Err(m) => Err(m)
  }

  /** The steps of launch after a supported template was accepted, in their
      order: storage, then the container (a taken name is the engine's 409
      conflict), then start and ports. */
  function AfterTemplate(template: string, name: string, o: LaunchOracle,
                         images: seq<Image>, volumes: set<string>, containers: map<string, Container>)
    : Result<Launched>
    requires TemplateImage(template).Some?
  {
    var storage := StorageOutcome(TemplateImage(template).value, name, o, images, volumes);
    if storage.Fail? then Err(storage.message)
    else if name in containers then Err(NameConflict(name))
    else StartOutcome(template, o)
  }

  /** The volumes a launch leaves: the workspace's volume is added exactly
      when storage succeeded (it may have existed already). */
  function VolumesAfter(image: string, name: string, o: LaunchOracle, images: seq<Image>, volumes: set<string>)
    : set<string>
  {
    if StorageOutcome(image, name, o, images, volumes).Pass? then volumes + {name} else volumes
  }

  /** The containers a launch leaves after the template check: unchanged
      when storage failed or the name was taken; otherwise the new container
      is there, running with the published ports when the start succeeded,
      and stopped with no ports when it failed. Nothing is cleaned up after
      a failed start or a port that does not resolve. */
  function ContainersAfter(template: string, name: string, o: LaunchOracle,
                           images: seq<Image>, volumes: set<string>, containers: map<string, Container>)
    : map<string, Container>
    requires TemplateImage(template).Some?
  {
    TablesAgree(template);
    var image := TemplateImage(template).value;
    if StorageOutcome(image, name, o, images, volumes).Fail? || name in containers then containers
    else containers[name := Container(o.containerId, SpecFor(image, TemplateConfig(template).value, name),
                                      o.startFault.None?, if o.startFault.None? then o.bindings else Ports(map[]))]
  }

  /** The containers a resume leaves: a stopped container that starts runs
      with the published ports, even when they then fail to resolve; every
      failure before the start leaves the containers as they were. */
  function ContainersAfterResume(connected: bool, name: string, startFault: Option<string>, bindings: PortTable,
                                 containers: map<string, Container>)
    : map<string, Container>
  {
    if connected && name in containers && !containers[name].running && startFault.None?
    then containers[name := containers[name].(running := true, ports := bindings)]
    else containers
  }

  /** When a launch of `template` under `name` gets past the template check
      and succeeds: the image is present or builds, the volume exists or can
      be created, the name is free, the container starts, and every port
      the template needs is published. */
  predicate LaunchSucceeds(template: string, name: string, o: LaunchOracle,
                           images: seq<Image>, volumes: set<string>, containers: map<string, Container>)
  {
    && template in Known
    && ImageOutcome(images, TemplateImage(template).value, o.buildFault).Pass?
    && (name in volumes || o.volumeFault.None?)
    && name !in containers
    && o.startFault.None?
    && ResolveLaunchAccess(template, o.bindings).Ok?
  }

  /** The steps after the template check succeed exactly under
      `LaunchSucceeds`. */
  lemma AfterTemplateSucceeds(template: string, name: string, o: LaunchOracle,
                              images: seq<Image>, volumes: set<string>, containers: map<string, Container>)
    requires TemplateImage(template).Some?
    ensures AfterTemplate(template, name, o, images, volumes, containers).Ok?
            <==> LaunchSucceeds(template, name, o, images, volumes, containers)
  {
    if o.bindings.NoNetworkSettings? {
      assert !ResolveLaunchAccess(template, o.bindings).Ok?;
    }
  }

  /** What `execInContainer` resolves or rejects with, given whether a
      handle could be established and whether the engine accepted the exec. */
  function ExecOutcome(connected: bool, started: Outcome, stream: ExecStream): Result<string> {
    if !connected then Err(ExecFailedPrefix + DaemonUnreachable)
    else if started.Fail? then Err(ExecFailedPrefix + started.message)
    else if stream.error.Some? then Err(stream.error.value)
    else Ok(Concat(stream.chunks))
  }

  /** `output += chunk.toString()` for each chunk, in order. */
  method CollectOutput(chunks: seq<string>) returns (output: string)
    ensures output == Concat(chunks)
  {
    output := "";
    var i := 0;
    while i < |chunks|
      invariant 0 <= i <= |chunks|
      invariant output == Concat(chunks[..i])
    {
      assert chunks[..i + 1][..i] == chunks[..i];
      output := output + chunks[i];
      i := i + 1;
    }
    assert chunks[..|chunks|] == chunks;
  }

  // ---------------------------------------------------------------------
  // The service
  // ---------------------------------------------------------------------

  class Service {
    /** The module-level `docker` handle; `None` until a candidate answered. */
    var docker: Option<Transport>
    const engine: Engine

    constructor (engine: Engine)
      ensures docker == None && this.engine == engine
    {
      docker := None;
      this.engine := engine;
    }

    /** `initializeDocker`: probe the candidates in order and adopt the first
        that answers; if none does, keep the handle and fail. */
    method InitializeDocker(pings: seq<bool>) returns (r: Outcome)
      modifies this`docker
      ensures FirstReachable(pings).Some? ==>
        r == Pass && docker == Some(Candidates[FirstReachable(pings).value])
      ensures FirstReachable(pings).None? ==> r == Fail(DaemonUnreachable) && docker == old(docker)
    {
      var i := 0;
      while i < |Candidates|
        invariant 0 <= i <= |Candidates|
        invariant forall j: nat :: j < i ==> !Probe(pings, j)
        invariant docker == old(docker)
      {
        if Probe(pings, i) {
          FirstReachableSpec(pings, i);
          docker := Some(Candidates[i]);
          return Pass;
        }
        i := i + 1;
      }
      FirstReachableSpec(pings, 0);
      r := Fail(DaemonUnreachable);
    }

    /** `if (!docker) await initializeDocker()`. */
    method EnsureConnected(pings: seq<bool>) returns (r: Outcome)
      modifies this`docker
      ensures docker == Connect(old(docker), pings)
      ensures r.Pass? <==> CanConnect(old(docker), pings)
      ensures r.Fail? ==> r == Fail(DaemonUnreachable)
    {
      if docker.None? {
        r := InitializeDocker(pings);
      } else {
        r := Pass;
      }
    }

    /** Making the image and the volume available: the image is built when
        missing, and a volume that already exists is reused. */
    method PrepareStorage(image: string, name: string, o: LaunchOracle) returns (r: Outcome)
      requires o.volumeFault.Some? ==> !Contains(o.volumeFault.value, "already exists")
      modifies engine
      ensures r == StorageOutcome(image, name, o, old(engine.images), old(engine.volumes))
      ensures ImageOutcome(old(engine.images), image, o.buildFault).Fail? ==>
        r == ImageOutcome(old(engine.images), image, o.buildFault) && engine.volumes == old(engine.volumes)
      ensures (ImageOutcome(old(engine.images), image, o.buildFault).Pass? && name in old(engine.volumes)) ==>
        r.Pass? && engine.volumes == old(engine.volumes)
      ensures (ImageOutcome(old(engine.images), image, o.buildFault).Pass? && name !in old(engine.volumes)
               && o.volumeFault.Some?) ==> r == Fail(o.volumeFault.value)
      ensures r.Pass? ==> ImageExists(engine.images, image) && engine.volumes == old(engine.volumes) + {name}
      ensures r.Fail? ==> engine.volumes == old(engine.volumes)
      ensures engine.images == ImagesAfter(old(engine.images), image, o.buildFault)
      ensures engine.containers == old(engine.containers)
    {
      var ensured := EnsureDockerImage(engine, image, o.buildFault);
      if ensured.Fail? {
        return ensured;
      }
      if name in engine.volumes {
        ContainsSuffix("volume " + name + " ", "already exists");
        assert VolumeExists(name) == "volume " + name + " " + "already exists";
      }
      var volume := engine.CreateVolume(name, o.volumeFault);
      if volume.Fail? && !Contains(volume.message, "already exists") {
        return volume;
      }
      r := Pass;
    }

    /** Creating and starting the container, then reading its ports. */
    method RunContainer(template: string, image: string, profile: Profile, name: string, o: LaunchOracle)
      returns (r: Result<Launched>)
      modifies engine
      ensures engine.images == old(engine.images) && engine.volumes == old(engine.volumes)
      ensures engine.containers - {name} == old(engine.containers) - {name}
      ensures name in old(engine.containers) ==>
        r == Err(NameConflict(name)) && engine.containers == old(engine.containers)
      ensures name !in old(engine.containers) ==>
        && r == StartOutcome(template, o)
        && engine.containers
           == old(engine.containers)[name := Container(o.containerId, SpecFor(image, profile, name), o.startFault.None?,
                                                       if o.startFault.None? then o.bindings else Ports(map[]))]
      ensures r.Ok? ==>
        && name !in old(engine.containers)
        && engine.containers == old(engine.containers)[name := Container(o.containerId, SpecFor(image, profile, name), true, o.bindings)]
        && r.value.containerId == o.containerId
        && ResolveLaunchAccess(template, o.bindings) == Ok(r.value.access)
    {
      var created := engine.CreateContainer(name, SpecFor(image, profile, name), o.containerId);
      if created.Err? {
        return Err(created.message);
      }
      var started := engine.Start(name, o.bindings, o.startFault);
      if started.Fail? {
        return Err(started.message);
      }
      var info := engine.Inspect(name).value;
      if info.NoNetworkSettings? {
        return Err(NetworkSettingsUndefined);
      }
      var access := ResolveLaunchAccess(template, info);
      if access.Err? {
        return Err(access.message);
      }
      r := Ok(Launched(created.value, access.value));
    }

    /** The body of `launchWorkspace` inside its `try`, with the original
        error messages. */
    method LaunchSteps(template: string, workspaceId: string, o: LaunchOracle) returns (r: Result<Launched>)
      requires o.volumeFault.Some? ==> !Contains(o.volumeFault.value, "already exists")
      modifies this`docker, engine
      ensures docker == Connect(old(docker), o.pings)
      ensures !CanConnect(old(docker), o.pings) ==> r == Err(DaemonUnreachable)
      ensures (CanConnect(old(docker), o.pings) && !o.ping) ==> r == Err(PingFailed)
      ensures (CanConnect(old(docker), o.pings) && o.ping && TemplateImage(template).None?) ==>
        r == Err(UnsupportedTemplate(template))
      ensures !(CanConnect(old(docker), o.pings) && o.ping && TemplateImage(template).Some?) ==>
        engine.images == old(engine.images) && engine.volumes == old(engine.volumes)
        && engine.containers == old(engine.containers)
      ensures (CanConnect(old(docker), o.pings) && o.ping && TemplateImage(template).Some?) ==>
        var name := WorkspaceName(workspaceId);
        var image := TemplateImage(template).value;
        && engine.images == ImagesAfter(old(engine.images), image, o.buildFault)
        && engine.volumes == VolumesAfter(image, name, o, old(engine.images), old(engine.volumes))
        && engine.containers
           == ContainersAfter(template, name, o, old(engine.images), old(engine.volumes), old(engine.containers))
      ensures var name := WorkspaceName(workspaceId);
        && engine.containers - {name} == old(engine.containers) - {name}
        && (engine.volumes == old(engine.volumes) || engine.volumes == old(engine.volumes) + {name})
      ensures (CanConnect(old(docker), o.pings) && o.ping && TemplateImage(template).Some?) ==>
        r == AfterTemplate(template, WorkspaceName(workspaceId), o,
                           old(engine.images), old(engine.volumes), old(engine.containers))
      ensures r.Ok? <==> CanConnect(old(docker), o.pings) && o.ping
                         && LaunchSucceeds(template, WorkspaceName(workspaceId), o,
                                           old(engine.images), old(engine.volumes), old(engine.containers))
      ensures r.Ok? ==> LaunchedAs(template, workspaceId, o, old(engine.containers), r.value)
    {
      var connected := EnsureConnected(o.pings);
      if connected.Fail? {
        return Err(connected.message);
      }
      if !o.ping {
        return Err(PingFailed);
      }
      var image := TemplateImage(template);
      if image.None? {
        return Err(UnsupportedTemplate(template));
      }
      TablesAgree(template);
      var profile := TemplateConfig(template).value;
      var name := WorkspaceName(workspaceId);
      AfterTemplateSucceeds(template, name, o, engine.images, engine.volumes, engine.containers);
      var prepared := PrepareStorage(image.value, name, o);
      if prepared.Fail? {
        return Err(prepared.message);
      }
      r := RunContainer(template, image.value, profile, name, o);
    }

    /** What a successful launch leaves behind: the template is known, its
        image is present, the workspace's volume exists, and a container
        that did not exist before now runs the template's profile with the
        volume mounted at `/workspace`, its ports reported as published. */
    predicate LaunchedAs(template: string, workspaceId: string, o: LaunchOracle,
                         before: map<string, Container>, launched: Launched)
      reads this, engine
    {
      var name := WorkspaceName(workspaceId);
      && template in Known
      && ImageExists(engine.images, TemplateImage(template).value)
      && name in engine.volumes
      && name !in before
      && name in engine.containers
      && engine.containers[name]
         == Container(o.containerId, SpecFor(TemplateImage(template).value, TemplateConfig(template).value, name),
                      true, o.bindings)
      && launched.containerId == o.containerId
      && ResolveLaunchAccess(template, o.bindings) == Ok(launched.access)
    }

    /** `launchWorkspace(userId, template, workspaceId)`. `userId` is
        accepted and not used, as in the service. */
    method LaunchWorkspace(userId: string, template: string, workspaceId: string, o: LaunchOracle)
      returns (r: Result<Launched>)
      requires o.volumeFault.Some? ==> !Contains(o.volumeFault.value, "already exists")
      modifies this`docker, engine
      ensures docker == Connect(old(docker), o.pings)
      ensures !CanConnect(old(docker), o.pings) ==> r == Err(DockerNotRunning)
      ensures (CanConnect(old(docker), o.pings) && !o.ping) ==> r == Err(DockerNotRunning)
      ensures (CanConnect(old(docker), o.pings) && o.ping && TemplateImage(template).None?) ==>
        r == Err(ClassifyLaunchError(UnsupportedTemplate(template)))
      ensures !(CanConnect(old(docker), o.pings) && o.ping && TemplateImage(template).Some?) ==>
        engine.images == old(engine.images) && engine.volumes == old(engine.volumes)
        && engine.containers == old(engine.containers)
      ensures (CanConnect(old(docker), o.pings) && o.ping && TemplateImage(template).Some?) ==>
        var name := WorkspaceName(workspaceId);
        var image := TemplateImage(template).value;
        && engine.images == ImagesAfter(old(engine.images), image, o.buildFault)
        && engine.volumes == VolumesAfter(image, name, o, old(engine.images), old(engine.volumes))
        && engine.containers
           == ContainersAfter(template, name, o, old(engine.images), old(engine.volumes), old(engine.containers))
      ensures var name := WorkspaceName(workspaceId);
        && engine.containers - {name} == old(engine.containers) - {name}
        && (engine.volumes == old(engine.volumes) || engine.volumes == old(engine.volumes) + {name})
      ensures (CanConnect(old(docker), o.pings) && o.ping && TemplateImage(template).Some?) ==>
        var steps := AfterTemplate(template, WorkspaceName(workspaceId), o,
                                   old(engine.images), old(engine.volumes), old(engine.containers));
        r == if steps.Err? then Err(ClassifyLaunchError(steps.message)) else steps
      ensures r.Ok? <==> CanConnect(old(docker), o.pings) && o.ping
                         && LaunchSucceeds(template, WorkspaceName(workspaceId), o,
                                           old(engine.images), old(engine.volumes), old(engine.containers))
      ensures r.Ok? ==> LaunchedAs(template, workspaceId, o, old(engine.containers), r.value)
    {
      r := LaunchSteps(template, workspaceId, o);
      if r.Err? {
        UnreachableClassified();
        r := Err(ClassifyLaunchError(r.message));
      }
    }

    /** `stopWorkspace(workspaceId)`. */
    method StopWorkspace(workspaceId: string, pings: seq<bool>) returns (r: Outcome)
      modifies this`docker, engine
      ensures docker == Connect(old(docker), pings)
      ensures var name := WorkspaceName(workspaceId);
        r.Pass? <==> CanConnect(old(docker), pings) && name in old(engine.containers)
                     && old(engine.containers)[name].running
      ensures !CanConnect(old(docker), pings) ==> r == Fail(StopFailedPrefix + DaemonUnreachable)
      ensures var name := WorkspaceName(workspaceId);
        (CanConnect(old(docker), pings) && name !in old(engine.containers)) ==>
        r == Fail(StopFailedPrefix + NoSuchContainer(name))
      ensures var name := WorkspaceName(workspaceId);
        (CanConnect(old(docker), pings) && name in old(engine.containers) && !old(engine.containers)[name].running) ==>
        r == Fail(StopFailedPrefix + AlreadyStopped)
      ensures r.Fail? ==> StopFailedPrefix <= r.message
      ensures var name := WorkspaceName(workspaceId);
        r.Pass? ==> engine.containers == old(engine.containers)[name := old(engine.containers)[name].(running := false)]
      ensures r.Fail? ==> engine.containers == old(engine.containers)
      ensures engine.images == old(engine.images) && engine.volumes == old(engine.volumes)
    {
      var connected := EnsureConnected(pings);
      if connected.Fail? {
        return Fail(StopFailedPrefix + connected.message);
      }
      var stopped := engine.Stop(WorkspaceName(workspaceId));
      if stopped.Fail? {
        return Fail(StopFailedPrefix + stopped.message);
      }
      r := Pass;
    }

    /** `resumeWorkspace(workspaceId)`: start, inspect, report ports. */
    method ResumeWorkspace(workspaceId: string, pings: seq<bool>, startFault: Option<string>, bindings: PortTable)
      returns (r: Result<Access>)
      modifies this`docker, engine
      ensures docker == Connect(old(docker), pings)
      ensures !CanConnect(old(docker), pings) ==> r == Err(ResumeFailedPrefix + DaemonUnreachable)
      ensures var name := WorkspaceName(workspaceId);
        r.Ok? ==> && CanConnect(old(docker), pings)
                  && name in old(engine.containers) && !old(engine.containers)[name].running
                  && engine.containers == old(engine.containers)[name := old(engine.containers)[name].(running := true, ports := bindings)]
                  && ResolveResumeAccess(bindings) == Ok(r.value)
      ensures var name := WorkspaceName(workspaceId);
        (CanConnect(old(docker), pings) && name in old(engine.containers) && !old(engine.containers)[name].running
         && startFault.None?) ==>
        && name in engine.containers && engine.containers[name].running
        && (r.Ok? <==> ResolveResumeAccess(bindings).Ok?)
        && (r.Err? ==> r.message == ResumeFailedPrefix + ResolveResumeAccess(bindings).message)
      ensures r.Err? ==> ResumeFailedPrefix <= r.message
      ensures var name := WorkspaceName(workspaceId);
        r.Ok? <==> && CanConnect(old(docker), pings)
                   && name in old(engine.containers) && !old(engine.containers)[name].running
                   && startFault.None? && ResolveResumeAccess(bindings).Ok?
      ensures var name := WorkspaceName(workspaceId);
        (CanConnect(old(docker), pings) && name !in old(engine.containers)) ==>
        r == Err(ResumeFailedPrefix + NoSuchContainer(name))
      ensures var name := WorkspaceName(workspaceId);
        (CanConnect(old(docker), pings) && name in old(engine.containers) && old(engine.containers)[name].running) ==>
        r == Err(ResumeFailedPrefix + AlreadyStarted)
      ensures var name := WorkspaceName(workspaceId);
        (CanConnect(old(docker), pings) && name in old(engine.containers) && !old(engine.containers)[name].running
         && startFault.Some?) ==>
        r == Err(ResumeFailedPrefix + startFault.value)
      ensures engine.images == old(engine.images) && engine.volumes == old(engine.volumes)
      ensures var name := WorkspaceName(workspaceId);
        engine.containers - {name} == old(engine.containers) - {name}
      ensures engine.containers == ContainersAfterResume(CanConnect(old(docker), pings), WorkspaceName(workspaceId),
                                                         startFault, bindings, old(engine.containers))
    {
      var connected := EnsureConnected(pings);
      if connected.Fail? {
        return Err(ResumeFailedPrefix + connected.message);
      }
      var name := WorkspaceName(workspaceId);
      var started := engine.Start(name, bindings, startFault);
      if started.Fail? {
        return Err(ResumeFailedPrefix + started.message);
      }
      var info := engine.Inspect(name).value;
      var access := ResolveResumeAccess(info);
      if access.Err? {
        return Err(ResumeFailedPrefix + access.message);
      }
      r := Ok(access.value);
    }

    /** `deleteWorkspace(workspaceId)`: best effort. A failed stop is
        ignored; the volume is removed only after the container was, and a
        failure there is ignored too. It fails only when no handle can be
        established. */
    method DeleteWorkspace(workspaceId: string, pings: seq<bool>) returns (r: Outcome)
      modifies this`docker, engine
      ensures docker == Connect(old(docker), pings)
      ensures r.Pass? <==> CanConnect(old(docker), pings)
      ensures r.Fail? ==> r == Fail(DeleteFailedPrefix + DaemonUnreachable)
      ensures r.Fail? ==> engine.containers == old(engine.containers) && engine.volumes == old(engine.volumes)
      ensures var name := WorkspaceName(workspaceId);
        r.Pass? ==> && engine.containers == old(engine.containers) - {name}
                    && engine.volumes
                       == if name in old(engine.containers) && !VolumeInUse(old(engine.containers) - {name}, name)
                          then old(engine.volumes) - {name}
                          else old(engine.volumes)
      ensures engine.images == old(engine.images)
    {
      var connected := EnsureConnected(pings);
      if connected.Fail? {
        return Fail(DeleteFailedPrefix + connected.message);
      }
      var name := WorkspaceName(workspaceId);
      var stopped := engine.Stop(name);
      var removed := engine.RemoveContainer(name);
      if removed.Pass? {
        var volumeRemoved := engine.RemoveVolume(name);
      }
      r := Pass;
    }

    /** `execInContainer(workspaceId, cmd)`: the output is every chunk, in
        order. An error on the stream rejects with the stream's own message,
        without the "Failed to execute command" prefix, because that
        rejection is not awaited inside the `try`. */
    method ExecInContainer(workspaceId: string, cmd: seq<string>, pings: seq<bool>, stream: ExecStream)
      returns (r: Result<string>)
      modifies this`docker
      ensures docker == Connect(old(docker), pings)
      ensures !CanConnect(old(docker), pings) ==> r == Err(ExecFailedPrefix + DaemonUnreachable)
      ensures var name := WorkspaceName(workspaceId);
        CanConnect(old(docker), pings) && !(name in engine.containers && engine.containers[name].running) ==>
        r == Err(ExecFailedPrefix + engine.ExecStart(name).message)
      ensures var name := WorkspaceName(workspaceId);
        CanConnect(old(docker), pings) && name in engine.containers && engine.containers[name].running ==>
        r == if stream.error.Some? then Err(stream.error.value) else Ok(Concat(stream.chunks))
      ensures r == ExecOutcome(CanConnect(old(docker), pings), engine.ExecStart(WorkspaceName(workspaceId)), stream)
    {
      var connected := EnsureConnected(pings);
      if connected.Fail? {
        return Err(ExecFailedPrefix + connected.message);
      }
      var started := engine.ExecStart(WorkspaceName(workspaceId));
      if started.Fail? {
        return Err(ExecFailedPrefix + started.message);
      }
      if stream.error.Some? {
        return Err(stream.error.value);
      }
      var output := CollectOutput(stream.chunks);
      r := Ok(output);
    }

    /** Deleting twice: the second delete never fails once the first has
        succeeded, whatever the probes say the second time. */
    method DeleteTwice(workspaceId: string, pings1: seq<bool>, pings2: seq<bool>)
      returns (first: Outcome, second: Outcome)
      modifies this`docker, engine
      ensures first.Pass? ==> second.Pass?
      ensures second.Pass? ==> WorkspaceName(workspaceId) !in engine.containers
    {
      first := DeleteWorkspace(workspaceId, pings1);
      second := DeleteWorkspace(workspaceId, pings2);
    }
  }
}
