/** The part of testcontainers-go and of go-connections' `nat` package that the
    launchers and MakeTerraformTempDir talk to. The container runtime itself is not modelled: it appears only
    as the answers it gives. */
module Testcontainers {
  import opened Results
  import opened GoStrings

  /** A readiness condition: `ForLog(text)` waits until the container log contains `text`. */
  datatype WaitStrategy = NoWait | ForLog(log: string)

  /** testcontainers.ContainerRequest. `image`, `exposedPorts` ("port/protocol"
      strings), `waitingFor` and `env` are the fields terralocacon sets or reads;
      `otherFields` stands for every other field of the struct (name, command,
      networks, mounts, …), keyed by field name. */
  datatype ContainerRequest = ContainerRequest(
    image: string,
    exposedPorts: seq<string>,
    waitingFor: WaitStrategy,
    env: map<string, string>,
    otherFields: map<string, string>)

  /** testcontainers.GenericContainerRequest: a request and whether to start the container. */
  datatype GenericContainerRequest = GenericContainerRequest(containerRequest: ContainerRequest, started: bool)

  /** An opaque handle to a container owned by the runtime. */
  datatype Container = Container(id: nat)

  /** What testcontainers.GenericContainer answers: a started container, or an
      error, possibly together with a container created before the failure. */
  datatype StartReply = Started(con: Container) | StartFailed(created: Option<Container>, cause: string)

  /** The container runtime as an oracle: how it answers GenericContainer, and
      how it answers MappedPort for a container and an internal port (with a
      nat.Port value such as "32768/tcp"). */
  datatype Runtime = Runtime(
    genericContainer: GenericContainerRequest -> StartReply,
    mappedPort: (Container, string) -> Result<string>)

  /** nat.Port.Port(): the port number of a "port/protocol" string, i.e. the text
      before the first '/', or the whole string when it has no '/'. */
  function PortNumber(p: string): (r: string)
    ensures r <= p && '/' !in r
    ensures |r| < |p| ==> p[|r|] == '/'
  {
    SplitFirstPiece(p, '/');
    Split(p, '/')[0]
  }
}
