/** The static template catalog: which image each template runs
    (`TEMPLATE_IMAGES`) and the container profile it is created with
    (`TEMPLATE_CONFIG`). A template is an own key of both tables. */
module Templates {
  import opened Wrappers

  /** The catalog's keys, in declaration order. */
  const Known: seq<string> := ["python", "nodejs", "mern"]

  /** The container port of the IDE and the two extra ports of `mern`. */
  const IdePortKey := "8080/tcp"
  const FrontendPortKey := "3000/tcp"
  const BackendPortKey := "5000/tcp"

  const MiB: nat := 1024 * 1024

  /** The `Available templates` list of the unsupported-template error. */
  const AvailableList := "python, nodejs, mern"

  /** Everything `TEMPLATE_CONFIG` holds for one template. */
  datatype Profile = Profile(
    exposedPorts: seq<string>,
    portBindings: map<string, string>,
    memory: nat,
    nanoCpus: nat,
    env: seq<string>,
    cmd: seq<string>)

  /** `TEMPLATE_IMAGES[t]`. */
  function TemplateImage(t: string): (r: Option<string>)
    ensures r.Some? <==> t in Known
    ensures r.Some? ==> r.value == "devpod-" + t + ":latest"
  {
    if t == "python" then Some("devpod-python:latest")
    else if t == "nodejs" then Some("devpod-nodejs:latest")
    else if t == "mern" then Some("devpod-mern:latest")
    else None
  }

  const CodeServerEnv: seq<string> := ["SHELL=/bin/bash", "DEBIAN_FRONTEND=noninteractive"]

  const CodeServerCmd: seq<string> :=
    ["code-server", "--bind-addr", "0.0.0.0:8080", "--auth", "none", "--disable-telemetry", "/workspace"]

  /** `TEMPLATE_CONFIG[t]`. Every published port asks for host port "0",
      i.e. an ephemeral port chosen by the engine. */
  function TemplateConfig(t: string): Option<Profile> {
    if t == "python" || t == "nodejs" then
      Some(Profile([IdePortKey], map[IdePortKey := "0"], 512 * MiB, 1000000000, CodeServerEnv, CodeServerCmd))
    else if t == "mern" then
      Some(Profile([IdePortKey, FrontendPortKey, BackendPortKey],
                   map[IdePortKey := "0", FrontendPortKey := "0", BackendPortKey := "0"],
                   1024 * MiB, 2000000000, CodeServerEnv, CodeServerCmd))
    else None
  }

  /** The two tables have the same keys, so once the image lookup succeeds
      the configuration lookup cannot fail. */
  lemma TablesAgree(t: string)
    ensures TemplateConfig(t).Some? <==> TemplateImage(t).Some?
  {
  }

  /** Every profile exposes the IDE port, publishes exactly the ports it
      exposes, each on an engine-chosen host port, and starts code-server on
      the IDE port with `/workspace` open; only `mern` exposes more. */
  lemma ProfilesWellFormed(t: string)
    requires t in Known
    ensures var p := TemplateConfig(t).value;
      && IdePortKey in p.exposedPorts
      && (forall k :: k in p.exposedPorts <==> k in p.portBindings)
      && (forall k :: k in p.portBindings ==> p.portBindings[k] == "0")
      && (FrontendPortKey in p.exposedPorts <==> t == "mern")
      && (BackendPortKey in p.exposedPorts <==> t == "mern")
      && p.cmd[0] == "code-server" && p.cmd[|p.cmd| - 1] == "/workspace"
      && p.memory == (if t == "mern" then 1024 else 512) * MiB
  {
  }
}
