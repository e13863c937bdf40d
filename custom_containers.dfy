/** custom_containers.go: a validating container launcher and the two fixed
    service profiles (Localstack, MongoDB) built on it. The container runtime
    is the oracle `rt`; every function here is pure. */
module CustomContainers {
  import opened Results
  import opened GoStrings
  import opened Testcontainers
  import Terralocacon

  const NO_IMAGE_ERROR := "didn't specify any image nmae for the container"
  const NO_PORT_ERROR := "didn't specify any port to expose for the container"
  const PORT_ERROR_PREFIX := "failed to get the external port of created container: "

  /** The error prefix a profile adds when its container cannot be created. */
  function CreateErrorPrefix(profile: string): string
  {
    "failed to create " + profile + " container: "
  }

  /** NewContainer's Go result (testcontainers.Container, error); None is nil. */
  datatype Launched = Launched(con: Option<Container>, err: Option<string>)

  /** A profile builder's Go result (testcontainers.Container, string, error). */
  datatype Service = Service(con: Option<Container>, port: string, err: Option<string>)

  /** The request NewContainer passes to GenericContainer: image, ports, wait
      strategy and environment copied, every other field left at its zero
      value, and the container to be started. */
  function Forwarded(req: ContainerRequest): (g: GenericContainerRequest)
    ensures g.started
    ensures g.containerRequest.image == req.image && g.containerRequest.exposedPorts == req.exposedPorts
    ensures g.containerRequest.waitingFor == req.waitingFor && g.containerRequest.env == req.env
    ensures g.containerRequest.otherFields == map[]
  {
    GenericContainerRequest(ContainerRequest(req.image, req.exposedPorts, req.waitingFor, req.env, map[]), true)
  }

  /** GenericContainer's answer returned as it is, as NewContainer does. */
  function FromReply(reply: StartReply): Launched
  {
    match reply
    case Started(c) => Launched(Some(c), None)
    case StartFailed(created, cause) => Launched(created, Some(cause))
  }

  /** The request passes both of NewContainer's checks. */
  predicate Launchable(req: ContainerRequest)
  {
    TrimSpace(req.image) != "" && |req.exposedPorts| != 0
  }

  /** NewContainer: reject a blank image, then an empty port list, and only then
      ask the runtime to start the forwarded request. */
  function NewContainer(rt: Runtime, req: ContainerRequest): (r: Launched)
    ensures (forall i :: 0 <= i < |req.image| ==> req.image[i] in GO_SPACES) ==>
      r == Launched(None, Some(NO_IMAGE_ERROR))
    ensures (exists i :: 0 <= i < |req.image| && req.image[i] !in GO_SPACES) && req.exposedPorts == [] ==>
      r == Launched(None, Some(NO_PORT_ERROR))
    ensures Launchable(req) ==> r == FromReply(rt.genericContainer(Forwarded(req)))
  {
    if TrimSpace(req.image) == "" then
      Launched(None, Some(NO_IMAGE_ERROR))
    else if |req.exposedPorts| == 0 then
      Launched(None, Some(NO_PORT_ERROR))
    else
      FromReply(rt.genericContainer(Forwarded(req)))
  }

  /** A rejected request never reaches the runtime: the answer is the same
      whatever the runtime would have done. */
  lemma RejectionIgnoresRuntime(rt1: Runtime, rt2: Runtime, req: ContainerRequest)
    requires !Launchable(req)
    ensures NewContainer(rt1, req) == NewContainer(rt2, req)
    ensures NewContainer(rt1, req).con == None && NewContainer(rt1, req).err.Some?
  {
  }

  /** The image check comes first: a blank image with no ports reports the image. */
  lemma ImageCheckFirst(rt: Runtime, req: ContainerRequest)
    requires forall i :: 0 <= i < |req.image| ==> req.image[i] in GO_SPACES
    requires req.exposedPorts == []
    ensures NewContainer(rt, req).err == Some(NO_IMAGE_ERROR)
  {
  }

  /** NewContainer succeeds exactly when the request is launchable and the runtime starts it. */
  lemma NewContainerSucceeds(rt: Runtime, req: ContainerRequest)
    ensures NewContainer(rt, req).err.None? <==>
      Launchable(req) && rt.genericContainer(Forwarded(req)).Started?
  {
  }

  /** Compose a launch and a port lookup with no partial success: the handle is
      returned only together with a resolved port. */
  function BringUp(rt: Runtime, req: ContainerRequest, profile: string, port: string): (r: Service)
    ensures r.con.Some? <==> r.err.None?
    ensures r.err.Some? ==> r.con == None && r.port == ""
    ensures NewContainer(rt, req).err.Some? ==>
      r.err == Some(CreateErrorPrefix(profile) + NewContainer(rt, req).err.value)
    ensures NewContainer(rt, req).err.None? ==>
      NewContainer(rt, req).con.Some? &&
      match rt.mappedPort(NewContainer(rt, req).con.value, port)
      case Err(cause) => r.err == Some(PORT_ERROR_PREFIX + cause)
      case Ok(p) => r == Service(NewContainer(rt, req).con, PortNumber(p), None)
  {
    var launched := NewContainer(rt, req);
    if launched.err.Some? then
      Service(None, "", Some(CreateErrorPrefix(profile) + launched.err.value))
    else
      match rt.mappedPort(launched.con.value, port)
      case Err(cause) => Service(None, "", Some(PORT_ERROR_PREFIX + cause))
      case Ok(p) => Service(launched.con, PortNumber(p), None)
  }

  // ---------------------------------------------------------------------------
  // Localstack profile.

  /** The Localstack request of this file: it waits for the log line "Ready". */
  function LocalstackRequest(awsRegion: string, awsServices: string): (req: ContainerRequest)
    ensures req.image == "localstack/localstack:latest" && req.exposedPorts == ["4566/tcp"]
    ensures req.waitingFor == ForLog("Ready")
    ensures req.env.Keys == {"DEFAULT_REGION", "SERVICES", "KINESIS_PROVIDER", "DOCKER_HOST", "DATA_DIR", "DEBUG"}
    ensures req.env["DEFAULT_REGION"] == awsRegion && req.env["SERVICES"] == awsServices
  {
    ContainerRequest("localstack/localstack:latest", ["4566/tcp"], ForLog("Ready"),
                     Terralocacon.LocalstackEnv(awsRegion, awsServices), map[])
  }

  /** The Localstack profile passes NewContainer's checks for every region and service list. */
  lemma LocalstackLaunchable(awsRegion: string, awsServices: string)
    ensures Launchable(LocalstackRequest(awsRegion, awsServices))
  {
    assert LocalstackRequest(awsRegion, awsServices).image[0] !in GO_SPACES;
  }

  /** NewLocalstackContainer: launch the Localstack profile and look up the port mapped to 4566. */
  function NewLocalstackContainer(rt: Runtime, awsRegion: string, awsServices: string): (r: Service)
    ensures r.con.Some? <==> r.err.None?
    ensures r.err.Some? ==> r.con == None && r.port == ""
    ensures var reply := rt.genericContainer(Forwarded(LocalstackRequest(awsRegion, awsServices)));
      match reply
      case StartFailed(_, cause) => r.err == Some(CreateErrorPrefix("localstack") + cause)
      case Started(c) =>
        match rt.mappedPort(c, "4566")
        case Err(cause) => r.err == Some(PORT_ERROR_PREFIX + cause)
        case Ok(p) => r == Service(Some(c), PortNumber(p), None)
  {
    LocalstackLaunchable(awsRegion, awsServices);
    BringUp(rt, LocalstackRequest(awsRegion, awsServices), "localstack", "4566")
  }

  // ---------------------------------------------------------------------------
  // MongoDB profile.

  /** The MongoDB request: root credentials in the environment, ready on "ready for start up.". */
  function MongoRequest(username: string, password: string): (req: ContainerRequest)
    ensures req.image == "mongo:latest" && req.exposedPorts == ["27017/tcp"]
    ensures req.waitingFor == ForLog("ready for start up.")
    ensures req.env.Keys == {"MONGO_INITDB_ROOT_USERNAME", "MONGO_INITDB_ROOT_PASSWORD"}
    ensures req.env["MONGO_INITDB_ROOT_USERNAME"] == username && req.env["MONGO_INITDB_ROOT_PASSWORD"] == password
  {
    ContainerRequest("mongo:latest", ["27017/tcp"], ForLog("ready for start up."),
                     map["MONGO_INITDB_ROOT_USERNAME" := username, "MONGO_INITDB_ROOT_PASSWORD" := password],
                     map[])
  }

  /** The MongoDB profile passes NewContainer's checks for every pair of credentials. */
  lemma MongoLaunchable(username: string, password: string)
    ensures Launchable(MongoRequest(username, password))
  {
    assert MongoRequest(username, password).image[0] !in GO_SPACES;
  }

  /** NewMongoDBContainer: launch the MongoDB profile and look up the port mapped to 27017. */
  function NewMongoDBContainer(rt: Runtime, username: string, password: string): (r: Service)
    ensures r.con.Some? <==> r.err.None?
    ensures r.err.Some? ==> r.con == None && r.port == ""
    ensures var reply := rt.genericContainer(Forwarded(MongoRequest(username, password)));
      match reply
      case StartFailed(_, cause) => r.err == Some(CreateErrorPrefix("mongo") + cause)
      case Started(c) =>
        match rt.mappedPort(c, "27017")
        case Err(cause) => r.err == Some(PORT_ERROR_PREFIX + cause)
        case Ok(p) => r == Service(Some(c), PortNumber(p), None)
  {
    MongoLaunchable(username, password);
    BringUp(rt, MongoRequest(username, password), "mongo", "27017")
  }

  /** The two files' Localstack profiles agree on image, ports and environment
      and differ only in the log line they wait for. */
  lemma LocalstackProfilesAgree(awsRegion: string, awsServices: string)
    ensures var here := LocalstackRequest(awsRegion, awsServices);
      var there := Terralocacon.LocalstackRequest(awsRegion, awsServices);
      here.image == there.image && here.exposedPorts == there.exposedPorts && here.env == there.env &&
      here.waitingFor == ForLog("Ready") && there.waitingFor == ForLog("Ready.")
  {
  }
}
