/** The container engine the service talks to, reduced to the state the
    service can observe: the local image list, the named volumes and the
    containers by name. Each method stands for one awaited engine call; it
    either changes the state as the engine would, or fails with a message and
    changes nothing. What the engine decides on its own (whether a build
    succeeds, which ephemeral host ports it picks, the id it gives a new
    container, a start that fails for reasons outside this state) is passed in
    as an oracle argument. */
module Engine {
  import opened Wrappers
  import Text

  /** One entry of the image list; `RepoTags` is null for untagged images. */
  datatype Image = Image(repoTags: Option<seq<string>>)

  /** One host-side binding; `HostPort` may be missing or empty. */
  datatype Binding = Binding(hostPort: Option<string>)

  /** The value stored under a key of `NetworkSettings.Ports`: null (a port
      that is exposed but not published), some non-array value, or an array
      of bindings. */
  datatype PortEntry = NullEntry | NotArray | Bindings(bindings: seq<Binding>)

  /** `NetworkSettings.Ports` of an inspected container: `NetworkSettings`
      itself missing, `Ports` missing or null, or the table of entries. */
  datatype PortTable = NoNetworkSettings | NoPorts | Ports(entries: map<string, PortEntry>)

  /** A bind mount `volume:target`. */
  datatype Bind = Bind(volume: string, target: string)

  /** What `createContainer` is asked for. */
  datatype ContainerSpec = ContainerSpec(
    image: string,
    exposedPorts: seq<string>,
    env: seq<string>,
    cmd: seq<string>,
    workingDir: string,
    portBindings: map<string, string>,
    memory: nat,
    nanoCpus: nat,
    binds: seq<Bind>,
    autoRemove: bool,
    networkMode: string)

  datatype Container = Container(id: string, spec: ContainerSpec, running: bool, ports: PortTable)

  /** Some container mounts volume `v`. */
  predicate VolumeInUse(containers: map<string, Container>, v: string) {
    exists k | k in containers :: exists b | b in containers[k].spec.binds :: b.volume == v
  }

  /** The set of all tags of all images. */
  function Tags(images: seq<Image>): (tags: set<string>)
    ensures forall i, t :: 0 <= i < |images| && images[i].repoTags.Some? && t in images[i].repoTags.value ==> t in tags
  {
    if images == [] then {}
    else
      Tags(images[..|images| - 1])
      + (var last := images[|images| - 1]; if last.repoTags.Some? then set t | t in last.repoTags.value else {})
  }

  function NoSuchContainer(name: string): string {
    "(HTTP code 404) no such container - No such container: " + name
  }

  function NameConflict(name: string): string {
    "(HTTP code 409) unexpected - Conflict. The container name \"/" + name + "\" is already in use"
  }

  function VolumeExists(name: string): string {
    "volume " + name + " already exists"
  }

  const AlreadyStarted := "(HTTP code 304) container already started - "
  const AlreadyStopped := "(HTTP code 304) container already stopped - "
  const RemoveRunning := "(HTTP code 409) conflict - You cannot remove a running container"
  const NoSuchVolume := "(HTTP code 404) no such volume - "
  const VolumeBusy := "(HTTP code 409) volume is in use - "
  const NotRunning := "(HTTP code 409) container is not running - "

  class Engine {
    var images: seq<Image>
    var volumes: set<string>
    var containers: map<string, Container>

    constructor (images: seq<Image>, volumes: set<string>, containers: map<string, Container>)
      ensures this.images == images && this.volumes == volumes && this.containers == containers
    {
      this.images := images;
      this.volumes := volumes;
      this.containers := containers;
    }

    /** `buildImage` followed by waiting on its progress stream; `fault` is
        the error the build reports, if any. */
    method BuildImage(tag: string, context: string, fault: Option<string>) returns (r: Outcome)
      modifies this
      ensures fault.Some? ==> r == Fail(fault.value) && images == old(images)
      ensures fault.None? ==> r == Pass && images == old(images) + [Image(Some([tag]))]
      ensures volumes == old(volumes) && containers == old(containers)
    {
      if fault.Some? {
        r := Fail(fault.value);
      } else {
        images := images + [Image(Some([tag]))];
        r := Pass;
      }
    }

    /** `createVolume({Name: name})`. An existing name is reported as
        "already exists"; `fault` is any other failure, which the engine
        never words as "already exists". */
    method CreateVolume(name: string, fault: Option<string>) returns (r: Outcome)
      requires fault.Some? ==> !Text.Contains(fault.value, "already exists")
      modifies this
      ensures name in old(volumes) ==> r == Fail(VolumeExists(name)) && volumes == old(volumes)
      ensures name !in old(volumes) && fault.Some? ==> r == Fail(fault.value) && volumes == old(volumes)
      ensures name !in old(volumes) && fault.None? ==> r == Pass && volumes == old(volumes) + {name}
      ensures images == old(images) && containers == old(containers)
    {
      if name in volumes {
        r := Fail(VolumeExists(name));
      } else if fault.Some? {
        r := Fail(fault.value);
      } else {
        volumes := volumes + {name};
        r := Pass;
      }
    }

    /** `createContainer`: a new, stopped container with id `id`. */
    method CreateContainer(name: string, spec: ContainerSpec, id: string) returns (r: Result<string>)
      modifies this
      ensures name in old(containers) ==> r == Err(NameConflict(name)) && containers == old(containers)
      ensures name !in old(containers) ==>
        r == Ok(id) && containers == old(containers)[name := Container(id, spec, false, Ports(map[]))]
      ensures images == old(images) && volumes == old(volumes)
    {
      if name in containers {
        r := Err(NameConflict(name));
      } else {
        containers := containers[name := Container(id, spec, false, Ports(map[]))];
        r := Ok(id);
      }
    }

    /** `container.start()`; on success the engine publishes `bindings`. */
    method Start(name: string, bindings: PortTable, fault: Option<string>) returns (r: Outcome)
      modifies this
      ensures name !in old(containers) ==> r == Fail(NoSuchContainer(name))
      ensures name in old(containers) && old(containers)[name].running ==> r == Fail(AlreadyStarted)
      ensures name in old(containers) && !old(containers)[name].running && fault.Some? ==> r == Fail(fault.value)
      ensures r.Pass? <==> name in old(containers) && !old(containers)[name].running && fault.None?
      ensures r.Pass? ==> containers == old(containers)[name := old(containers)[name].(running := true, ports := bindings)]
      ensures r.Fail? ==> containers == old(containers)
      ensures images == old(images) && volumes == old(volumes)
    {
      if name !in containers {
        r := Fail(NoSuchContainer(name));
      } else if containers[name].running {
        r := Fail(AlreadyStarted);
      } else if fault.Some? {
        r := Fail(fault.value);
      } else {
        containers := containers[name := containers[name].(running := true, ports := bindings)];
        r := Pass;
      }
    }

    /** `container.stop()`. */
    method Stop(name: string) returns (r: Outcome)
      modifies this
      ensures name !in old(containers) ==> r == Fail(NoSuchContainer(name))
      ensures name in old(containers) && !old(containers)[name].running ==> r == Fail(AlreadyStopped)
      ensures r.Pass? <==> name in old(containers) && old(containers)[name].running
      ensures r.Pass? ==> containers == old(containers)[name := old(containers)[name].(running := false)]
      ensures r.Fail? ==> containers == old(containers)
      ensures images == old(images) && volumes == old(volumes)
    {
      if name !in containers {
        r := Fail(NoSuchContainer(name));
      } else if !containers[name].running {
        r := Fail(AlreadyStopped);
      } else {
        containers := containers[name := containers[name].(running := false)];
        r := Pass;
      }
    }

    /** `container.remove()` without `force`. */
    method RemoveContainer(name: string) returns (r: Outcome)
      modifies this
      ensures name !in old(containers) ==> r == Fail(NoSuchContainer(name))
      ensures name in old(containers) && old(containers)[name].running ==> r == Fail(RemoveRunning)
      ensures r.Pass? <==> name in old(containers) && !old(containers)[name].running
      ensures r.Pass? ==> containers == old(containers) - {name}
      ensures r.Fail? ==> containers == old(containers)
      ensures images == old(images) && volumes == old(volumes)
    {
      if name !in containers {
        r := Fail(NoSuchContainer(name));
      } else if containers[name].running {
        r := Fail(RemoveRunning);
      } else {
        containers := containers - {name};
        r := Pass;
      }
    }

    /** `volume.remove()`. */
    method RemoveVolume(name: string) returns (r: Outcome)
      modifies this
      ensures name !in old(volumes) ==> r == Fail(NoSuchVolume)
      ensures name in old(volumes) && VolumeInUse(old(containers), name) ==> r == Fail(VolumeBusy)
      ensures r.Pass? <==> name in old(volumes) && !VolumeInUse(old(containers), name)
      ensures r.Pass? ==> volumes == old(volumes) - {name}
      ensures r.Fail? ==> volumes == old(volumes)
      ensures images == old(images) && containers == old(containers)
    {
      if name !in volumes {
        r := Fail(NoSuchVolume);
      } else if VolumeInUse(containers, name) {
        r := Fail(VolumeBusy);
      } else {
        volumes := volumes - {name};
        r := Pass;
      }
    }

    /** `container.inspect()`, reduced to `NetworkSettings.Ports`. */
    function Inspect(name: string): (r: Result<PortTable>)
      reads this
      ensures r.Ok? <==> name in containers
      ensures r.Ok? ==> r.value == containers[name].ports
    {
      if name in containers then Ok(containers[name].ports) else Err(NoSuchContainer(name))
    }

    /** `container.exec(...)` followed by `exec.start(...)`: refused unless
        the container exists and is running. */
    function ExecStart(name: string): (r: Outcome)
      reads this
      ensures r.Pass? <==> name in containers && containers[name].running
    {
      if name !in containers then Fail(NoSuchContainer(name))
      else if !containers[name].running then Fail(NotRunning)
      else Pass
    }
  }
}
