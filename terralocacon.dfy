/** terralocacon.go: patching the Terraform file `localstack.tf` so that its
    Localstack endpoint points at the port the running container was mapped to. */
module Terralocacon {
  import opened Results
  import opened GoStrings
  import opened Testcontainers

  /** The path used when the caller passes a blank one, and the path that is read in every case. */
  const DEFAULT_CONFIG_PATH := "./local/localstack.tf"
  /** The file name a caller-supplied path must contain. */
  const CONFIG_FILE_NAME := "localstack.tf"
  /** The endpoint baked into the file, which is rewritten. */
  const PLACEHOLDER := "localhost:4566"
  /** nat.NewPort("tcp", "4566"): the container port whose mapping is looked up. */
  const INTERNAL_PORT := "4566/tcp"

  // ---------------------------------------------------------------------------
  // The request NewLocalstackContainer builds in this file (its fixed profile).

  function LocalstackEnv(awsRegion: string, awsServices: string): map<string, string>
  {
    map[
      "DEFAULT_REGION" := awsRegion,
      "SERVICES" := awsServices,
      "KINESIS_PROVIDER" := "kinesalite",
      "DOCKER_HOST" := "unix:///var/run/docker.sock",
      "DATA_DIR" := "/tmp/localstack/data",
      "DEBUG" := "1"]
  }

  /** The Localstack request of this file: it waits for the log line "Ready.". */
  function LocalstackRequest(awsRegion: string, awsServices: string): (req: ContainerRequest)
    ensures req.env.Keys == {"DEFAULT_REGION", "SERVICES", "KINESIS_PROVIDER", "DOCKER_HOST", "DATA_DIR", "DEBUG"}
    ensures req.env["DEFAULT_REGION"] == awsRegion && req.env["SERVICES"] == awsServices
  {
    ContainerRequest("localstack/localstack:latest", ["4566/tcp"], ForLog("Ready."),
                     LocalstackEnv(awsRegion, awsServices), map[])
  }

  // ---------------------------------------------------------------------------
  // Path check.

  /** The path after defaulting: blank means only spaces; other white space is kept. */
  function NormalisePath(arg: string): (path: string)
    ensures (forall i :: 0 <= i < |arg| ==> arg[i] == ' ') ==> path == DEFAULT_CONFIG_PATH
    ensures (exists i :: 0 <= i < |arg| && arg[i] != ' ') ==> path == arg
  {
    if Trim(arg, {' '}) == "" then DEFAULT_CONFIG_PATH else arg
  }

  /** The path argument passes the naming check. */
  predicate PathAccepted(arg: string)
  {
    Contains(NormalisePath(arg), CONFIG_FILE_NAME)
  }

  /** The error for a path that does not name localstack.tf. */
  function PathError(path: string): string
  {
    "localstack.tf file is not found in a given directory: " + path
  }

  /** A blank (all-space) argument, the empty one included, is defaulted and accepted. */
  lemma BlankPathAccepted(arg: string)
    requires forall i :: 0 <= i < |arg| ==> arg[i] == ' '
    ensures NormalisePath(arg) == DEFAULT_CONFIG_PATH && PathAccepted(arg)
  {
    assert OccursAt(DEFAULT_CONFIG_PATH, CONFIG_FILE_NAME, 8);
  }

  /** A tab is not trimmed: a path made of a tab is kept as it is and rejected. */
  lemma TabPathRejected()
    ensures NormalisePath("\t") == "\t" && !PathAccepted("\t")
  {
    assert "\t"[0] != ' ';
  }

  /** An accepted path names localstack.tf; any other path is rejected. */
  lemma AcceptedPathsNameTheFile(arg: string)
    requires exists i :: 0 <= i < |arg| && arg[i] != ' '
    ensures PathAccepted(arg) <==> exists i :: OccursAt(arg, CONFIG_FILE_NAME, i)
  {
    assert NormalisePath(arg) == arg;
    ContainsSpec(arg, CONFIG_FILE_NAME);
  }

  // ---------------------------------------------------------------------------
  // Line substitution.

  /** The live endpoint for an external port number. */
  function Endpoint(externalPort: string): string
  {
    "localhost:" + externalPort
  }

  /** One line after patching: its first placeholder, if any, becomes `endpoint`. */
  function PatchLine(line: string, endpoint: string): (r: string)
    ensures !Contains(line, PLACEHOLDER) ==> r == line
    ensures Contains(line, PLACEHOLDER) ==> |r| == |line| - |PLACEHOLDER| + |endpoint|
    ensures PLACEHOLDER <= line ==> r == endpoint + line[|PLACEHOLDER|..]
  {
    if Contains(line, PLACEHOLDER) then ReplaceFirst(line, PLACEHOLDER, endpoint) else line
  }

  /** All lines after patching, line by line. */
  function PatchAll(lines: seq<string>, endpoint: string): (r: seq<string>)
    ensures |r| == |lines|
  {
    seq(|lines|, i requires 0 <= i < |lines| => PatchLine(lines[i], endpoint))
  }

  /** The file text after patching: split on "\n", patch each line, join with "\n". */
  function Patched(text: string, endpoint: string): (r: string)
    ensures '\n' !in text ==> r == PatchLine(text, endpoint)
  {
    SplitWithoutSep(text, '\n');
    Join(PatchAll(Split(text, '\n'), endpoint), '\n')
  }

  /** In a line whose first placeholder follows `pre`, exactly that occurrence is
      replaced: `pre` and everything after it, later placeholders included, stay. */
  lemma PatchLineFirstOnly(pre: string, post: string, endpoint: string)
    requires forall j :: 0 <= j < |pre| ==> !OccursAt(pre + PLACEHOLDER + post, PLACEHOLDER, j)
    ensures PatchLine(pre + PLACEHOLDER + post, endpoint) == pre + endpoint + post
  {
    var line := pre + PLACEHOLDER + post;
    assert line[|pre|..|pre| + |PLACEHOLDER|] == PLACEHOLDER;
    assert FirstOccurrence(line, PLACEHOLDER, |pre|);
    ContainsSpec(line, PLACEHOLDER);
    ReplaceFirstSpec(line, PLACEHOLDER, endpoint);
    assert line[..|pre|] == pre && line[|pre| + |PLACEHOLDER|..] == post;
  }

  /** A line without the placeholder is left byte-identical. */
  lemma PatchLineUntouched(line: string, endpoint: string)
    requires forall j :: !OccursAt(line, PLACEHOLDER, j)
    ensures PatchLine(line, endpoint) == line
  {
    ContainsSpec(line, PLACEHOLDER);
  }

  /** Patching keeps the number of lines, and line i of the output is line i of
      the input patched: unchanged when it has no placeholder. */
  lemma {:induction false} PatchedLines(text: string, endpoint: string)
    requires '\n' !in endpoint
    ensures |Split(Patched(text, endpoint), '\n')| == |Split(text, '\n')|
    ensures forall i :: 0 <= i < |Split(text, '\n')| ==>
      Split(Patched(text, endpoint), '\n')[i] == PatchLine(Split(text, '\n')[i], endpoint)
    ensures forall i :: 0 <= i < |Split(text, '\n')| && !Contains(Split(text, '\n')[i], PLACEHOLDER) ==>
      Split(Patched(text, endpoint), '\n')[i] == Split(text, '\n')[i]
  {
    var lines := Split(text, '\n');
    var patched := PatchAll(lines, endpoint);
    forall i | 0 <= i < |patched| ensures '\n' !in patched[i] {
      if Contains(lines[i], PLACEHOLDER) {
        ReplaceFirstKeepsOut(lines[i], PLACEHOLDER, endpoint, '\n');
      }
    }
    SplitJoin(patched, '\n');
  }

  /** A file without any placeholder is written back exactly as it was read. */
  lemma PatchedIdentity(text: string, endpoint: string)
    requires forall i :: 0 <= i < |Split(text, '\n')| ==> !Contains(Split(text, '\n')[i], PLACEHOLDER)
    ensures Patched(text, endpoint) == text
  {
    assert PatchAll(Split(text, '\n'), endpoint) == Split(text, '\n');
    JoinSplit(text, '\n');
  }

  /** A worked case: with external port 32768, the line
      `  endpoint = "localhost:4566"` becomes `  endpoint = "localhost:32768"`. */
  lemma EndpointLineExample()
    ensures PatchLine("  endpoint = \"localhost:4566\"", "localhost:32768") == "  endpoint = \"localhost:32768\""
  {
    var pre, post := "  endpoint = \"", "\"";
    assert pre + "localhost:32768" + post == "  endpoint = \"localhost:32768\"";
    assert pre + PLACEHOLDER + post == "  endpoint = \"localhost:4566\"";
    assert 'l' !in pre;
    forall j | 0 <= j < |pre| ensures !OccursAt(pre + PLACEHOLDER + post, PLACEHOLDER, j) {
      assert (pre + PLACEHOLDER + post)[j] == pre[j] != 'l' == PLACEHOLDER[0];
    }
    PatchLineFirstOnly(pre, post, "localhost:32768");
  }

  /** The loop of MakeTerraformTempDir: overwrite each line holding the
      placeholder with its first occurrence replaced by `endpoint`. */
  method SubstituteEndpoint(lines: array<string>, endpoint: string)
    modifies lines
    ensures lines[..] == PatchAll(old(lines[..]), endpoint)
  {
    var original := lines[..];
    ghost var target := PatchAll(original, endpoint);
    for i := 0 to lines.Length
      invariant forall k :: 0 <= k < i ==> lines[k] == target[k]
      invariant forall k :: i <= k < lines.Length ==> lines[k] == original[k]
    {
      var line := original[i];
      if Contains(line, PLACEHOLDER) {
        lines[i] := ReplaceFirst(line, PLACEHOLDER, endpoint);
      }
      assert lines[i] == target[i];
    }
    assert lines[..] == target;
  }

  // ---------------------------------------------------------------------------
  // The outside world and MakeTerraformTempDir.

  /** An I/O request MakeTerraformTempDir makes, as recorded by the host. */
  datatype Call = Read(path: string) | PortLookup(port: string) | MakeTemp | Write(path: string, data: string)

  /** The error os.ReadFile reports for a missing file. */
  function ReadError(path: string): string
  {
    "open " + path + ": no such file or directory"
  }

  /** The error MappedPort reports for a port the container does not expose. */
  const PORT_NOT_FOUND := "port not found"

  /** The machine the test runs on: its file system, the port mappings the
      runtime reports for the container, the answer os.MkdirTemp gives, the
      fault os.WriteFile reports (if any), and the log of requests made. */
  class Host {
    var files: map<string, string>
    var calls: seq<Call>
    const mapped: map<string, string>
    const mkdirAnswer: Result<string>
    const writeFault: Option<string>

    constructor (files: map<string, string>, mapped: map<string, string>,
                 mkdirAnswer: Result<string>, writeFault: Option<string>)
      ensures this.files == files && this.mapped == mapped
      ensures this.mkdirAnswer == mkdirAnswer && this.writeFault == writeFault
      ensures calls == []
    {
      this.files := files;
      this.mapped := mapped;
      this.mkdirAnswer := mkdirAnswer;
      this.writeFault := writeFault;
      calls := [];
    }

    /** os.ReadFile. */
    method ReadFile(path: string) returns (r: Result<string>)
      modifies this`calls
      ensures calls == old(calls) + [Read(path)]
      ensures r == if path in files then Ok(files[path]) else Err(ReadError(path))
    {
      calls := calls + [Read(path)];
      r := if path in files then Ok(files[path]) else Err(ReadError(path));
    }

    /** Container.MappedPort: the host binding of an internal port. */
    method MappedPort(port: string) returns (r: Result<string>)
      modifies this`calls
      ensures calls == old(calls) + [PortLookup(port)]
      ensures r == if port in mapped then Ok(mapped[port]) else Err(PORT_NOT_FOUND)
    {
      calls := calls + [PortLookup(port)];
      r := if port in mapped then Ok(mapped[port]) else Err(PORT_NOT_FOUND);
    }

    /** os.MkdirTemp("", ""). */
    method MkdirTemp() returns (r: Result<string>)
      modifies this`calls
      ensures calls == old(calls) + [MakeTemp]
      ensures r == mkdirAnswer
    {
      calls := calls + [MakeTemp];
      r := mkdirAnswer;
    }

    /** os.WriteFile: stores `data` at `path` unless the host reports a fault. */
    method WriteFile(path: string, data: string) returns (err: Option<string>)
      modifies this
      ensures calls == old(calls) + [Write(path, data)]
      ensures err == writeFault
      ensures files == if writeFault.None? then old(files)[path := data] else old(files)
    {
      calls := calls + [Write(path, data)];
      err := writeFault;
      if writeFault.None? {
        files := files[path := data];
      }
    }
  }

  /** The steps of MakeTerraformTempDir after the path check: read
      ./local/localstack.tf, look up the port mapped to 4566/tcp, patch the
      endpoints, and write the result to <tempDir>/localstack.tf. The steps run
      in that order, the first failure ends the run, and every failure returns
      two empty strings. */
  method PatchIntoTempDir(host: Host) returns (tempDir: string, endpoint: string, err: Option<string>)
    modifies host
    ensures err.Some? ==> tempDir == "" && endpoint == "" && host.files == old(host.files)
    ensures DEFAULT_CONFIG_PATH !in old(host.files) ==>
      err == Some(ReadError(DEFAULT_CONFIG_PATH)) &&
      host.calls == old(host.calls) + [Read(DEFAULT_CONFIG_PATH)]
    ensures DEFAULT_CONFIG_PATH in old(host.files) && INTERNAL_PORT !in host.mapped ==>
      err == Some(PORT_NOT_FOUND) &&
      host.calls == old(host.calls) + [Read(DEFAULT_CONFIG_PATH), PortLookup(INTERNAL_PORT)]
    ensures DEFAULT_CONFIG_PATH in old(host.files) && INTERNAL_PORT in host.mapped && host.mkdirAnswer.Err? ==>
      err == Some(host.mkdirAnswer.msg) &&
      host.calls == old(host.calls) + [Read(DEFAULT_CONFIG_PATH), PortLookup(INTERNAL_PORT), MakeTemp]
    ensures DEFAULT_CONFIG_PATH in old(host.files) && INTERNAL_PORT in host.mapped && host.mkdirAnswer.Ok? ==>
      var live := Endpoint(PortNumber(host.mapped[INTERNAL_PORT]));
      var output := host.mkdirAnswer.value + "/localstack.tf";
      var data := Patched(old(host.files)[DEFAULT_CONFIG_PATH], live);
      host.calls == old(host.calls) +
        [Read(DEFAULT_CONFIG_PATH), PortLookup(INTERNAL_PORT), MakeTemp, Write(output, data)] &&
      err == host.writeFault &&
      (err.None? ==> tempDir == host.mkdirAnswer.value && endpoint == live &&
                     host.files == old(host.files)[output := data])
  {
    ghost var before := host.calls;
    var rawFile := host.ReadFile(DEFAULT_CONFIG_PATH);
    if rawFile.Err? {
      return "", "", Some(rawFile.msg);
    }

    var externalPort := host.MappedPort(INTERNAL_PORT);
    assert host.calls == before + [Read(DEFAULT_CONFIG_PATH), PortLookup(INTERNAL_PORT)];
    if externalPort.Err? {
      return "", "", Some(externalPort.msg);
    }

    var localhostEndpoint := Endpoint(PortNumber(externalPort.value));
    var original := Split(rawFile.value, '\n');
    var lines := new string[|original|](i requires 0 <= i < |original| => original[i]);
    assert lines[..] == original;
    SubstituteEndpoint(lines, localhostEndpoint);

    var dir := host.MkdirTemp();
    assert host.calls == before + [Read(DEFAULT_CONFIG_PATH), PortLookup(INTERNAL_PORT), MakeTemp];
    if dir.Err? {
      return "", "", Some(dir.msg);
    }

    var modifiedLines := Join(lines[..], '\n');
    var writeErr := host.WriteFile(dir.value + "/localstack.tf", modifiedLines);
    if writeErr.Some? {
      return "", "", writeErr;
    }

    return dir.value, localhostEndpoint, None;
  }

  /** MakeTerraformTempDir: the path check, then the steps of PatchIntoTempDir.
      A rejected path returns the path error before any I/O request is made; an
      accepted one, whatever it was, leads to the read of ./local/localstack.tf
      and the chain of PatchIntoTempDir. */
  method MakeTerraformTempDir(host: Host, localstackFileDir: string)
    returns (tempDir: string, endpoint: string, err: Option<string>)
    modifies host
    ensures !PathAccepted(localstackFileDir) ==>
      tempDir == "" && endpoint == "" && err == Some(PathError(NormalisePath(localstackFileDir))) &&
      host.calls == old(host.calls) && host.files == old(host.files)
    ensures PathAccepted(localstackFileDir) && DEFAULT_CONFIG_PATH !in old(host.files) ==>
      tempDir == "" && endpoint == "" && err == Some(ReadError(DEFAULT_CONFIG_PATH)) &&
      host.calls == old(host.calls) + [Read(DEFAULT_CONFIG_PATH)] && host.files == old(host.files)
    ensures PathAccepted(localstackFileDir) && DEFAULT_CONFIG_PATH in old(host.files) &&
            INTERNAL_PORT !in host.mapped ==>
      tempDir == "" && endpoint == "" && err == Some(PORT_NOT_FOUND) &&
      host.calls == old(host.calls) + [Read(DEFAULT_CONFIG_PATH), PortLookup(INTERNAL_PORT)] &&
      host.files == old(host.files)
    ensures PathAccepted(localstackFileDir) && DEFAULT_CONFIG_PATH in old(host.files) &&
            INTERNAL_PORT in host.mapped && host.mkdirAnswer.Err? ==>
      tempDir == "" && endpoint == "" && err == Some(host.mkdirAnswer.msg) &&
      host.calls == old(host.calls) + [Read(DEFAULT_CONFIG_PATH), PortLookup(INTERNAL_PORT), MakeTemp] &&
      host.files == old(host.files)
    ensures PathAccepted(localstackFileDir) && DEFAULT_CONFIG_PATH in old(host.files) &&
            INTERNAL_PORT in host.mapped && host.mkdirAnswer.Ok? ==>
      var live := Endpoint(PortNumber(host.mapped[INTERNAL_PORT]));
      var output := host.mkdirAnswer.value + "/localstack.tf";
      var data := Patched(old(host.files)[DEFAULT_CONFIG_PATH], live);
      host.calls == old(host.calls) +
        [Read(DEFAULT_CONFIG_PATH), PortLookup(INTERNAL_PORT), MakeTemp, Write(output, data)] &&
      err == host.writeFault &&
      (err.Some? ==> tempDir == "" && endpoint == "" && host.files == old(host.files)) &&
      (err.None? ==> tempDir == host.mkdirAnswer.value && endpoint == live &&
                     host.files == old(host.files)[output := data])
  {
    var path := localstackFileDir;
    if Trim(path, {' '}) == "" {
      path := DEFAULT_CONFIG_PATH;
    }
    if !Contains(path, CONFIG_FILE_NAME) {
      return "", "", Some(PathError(path));
    }
    tempDir, endpoint, err := PatchIntoTempDir(host);
  }
}
