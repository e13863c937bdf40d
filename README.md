# terralocacon in Dafny

A verified model of terralocacon, a Go helper for integration tests that
starts throw-away Localstack and MongoDB containers and points a Terraform
configuration at them. The model covers two pieces of logic:

* **The Terraform endpoint patcher** (`MakeTerraformTempDir`, terralocacon.go). It
  checks the caller's path argument and reads `./local/localstack.tf`. It looks up the
  host port mapped to `4566/tcp` and, in every line, replaces the first `localhost:4566`
  with `localhost:<port>`. The result is written to `<tempDir>/localstack.tf`. The model
  is imperative. `Terralocacon.Host` is a class that stands for the machine: its file
  system (a `map` the write updates), the port mappings the runtime reports, the answer
  `os.MkdirTemp` gives, a fault `os.WriteFile` may report, and a log of every I/O
  request made. The line loop is an in-place method over an `array` of lines.
* **The validating launcher and the service profiles** (custom_containers.go).
  `NewContainer` rejects a blank image, then an empty port list, and only then asks the
  runtime to start the request. `NewLocalstackContainer` and `NewMongoDBContainer` build
  fixed requests, launch them and look up the mapped port. All three are pure functions
  over a `Runtime` oracle. The oracle is a datatype holding the runtime's answers to
  `GenericContainer` and `MappedPort`.

Modules:

| module | file | what it holds |
|---|---|---|
| `Results` | results.dfy | `Option` (Go's nil) and `Result` (a Go `(T, error)` pair) |
| `GoStrings` | gostrings.dfy | the `strings` functions terralocacon calls: `Contains`, `Replace(…, 1)`, `Trim`, `TrimSpace`, `Split`, `Join`; `Index` is internal to `Contains` and `Replace` |
| `Testcontainers` | testcontainers.dfy | request types, the runtime oracle, `nat.Port.Port()` |
| `Terralocacon` | terralocacon.dfy | terralocacon.go |
| `CustomContainers` | custom_containers.dfy | custom_containers.go |

The two Go files are one package, but both define `NewContainer`, `TerminateContainer`
and `NewLocalstackContainer`, with different signatures. They cannot be built together,
so each is its own module here. Strings are sequences of Unicode characters, taken as
Go's runes.

Details of the code that the model keeps as they are:

* The path argument is checked only for the text `localstack.tf`; it is not checked
  for existence.
* The file read is always `./local/localstack.tf`.
* There is no separate permission step: the mode is passed to `os.WriteFile`.
* terralocacon.go's Localstack request waits for the log text `"Ready."`;
  custom_containers.go's waits for `"Ready"`.

## Model

| member | source | states |
|---|---|---|
| `GoStrings.Index` | terralocacon.go:84 | the helper under strings.Contains: -1, or an index at which the pattern still fits inside the string |
| `GoStrings.IndexFromSpec` | terralocacon.go:84 | searching from k finds the leftmost occurrence at or after k, or -1 when there is none from k on |
| `GoStrings.IndexSpec` | terralocacon.go:84 | -1 exactly when the pattern occurs nowhere; otherwise the leftmost index at which it occurs |
| `GoStrings.Contains` | terralocacon.go:62 | a contained pattern is no longer than the string; a prefix of the string is contained in it |
| `GoStrings.ContainsSpec` | terralocacon.go:62 | true exactly when the pattern occurs at some index |
| `GoStrings.ReplaceFirst` | terralocacon.go:85 | unchanged when the pattern is absent; otherwise the length grows by the replacement's and shrinks by the pattern's; a pattern at the start is replaced there |
| `GoStrings.ReplaceFirstSpec` | terralocacon.go:85 | with no occurrence the string is unchanged; otherwise the text before the leftmost occurrence, then the replacement, then everything after that occurrence |
| `GoStrings.ReplaceFirstKeepsOut` | terralocacon.go:85 | a character in neither the line nor the replacement is not in the result |
| `GoStrings.TrimLeft` | terralocacon.go:59 | the result is a suffix; everything dropped is in the cutset; what remains does not start with a cutset character |
| `GoStrings.TrimRight` | terralocacon.go:59 | the result is a prefix; everything dropped is in the cutset; what remains does not end with a cutset character |
| `GoStrings.Trim` | terralocacon.go:59 | empty exactly when every character is in the cutset; a non-empty result starts and ends outside the cutset |
| `GoStrings.TrimSpace` | custom_containers.go:14 | empty exactly when every character is Unicode white space |
| `GoStrings.Split` | terralocacon.go:82 | at least one piece; no piece contains the separator |
| `GoStrings.SplitFirstPiece` | terralocacon.go:82 | the first piece is a prefix of the text, followed by the separator when it is shorter than the text |
| `GoStrings.SplitCount` | terralocacon.go:82 | a string with n separators splits into n + 1 pieces |
| `GoStrings.Join` | terralocacon.go:94 | the first piece is a prefix of the joined text |
| `GoStrings.JoinShape` | terralocacon.go:94 | with two or more pieces the separator follows the first piece; the joined text ends with the last piece |
| `GoStrings.SplitWithoutSep` | terralocacon.go:82 | a text without the separator is one piece, the text itself |
| `GoStrings.JoinSplit` | terralocacon.go:94 | joining the pieces of a split gives back the original text |
| `GoStrings.SplitCons` | terralocacon.go:82 | a leading non-separator character is glued to the first piece of the rest |
| `GoStrings.SplitAfterPlainPrefix` | terralocacon.go:82 | a separator-free prefix is glued to the first piece of the rest |
| `GoStrings.SplitJoin` | terralocacon.go:94 | splitting a join of separator-free pieces gives back the pieces |
| `Testcontainers.PortNumber` | terralocacon.go:81 | nat.Port.Port(): the prefix before the first '/', containing no '/' |
| `Terralocacon.LocalstackRequest` | terralocacon.go:33-47 | the six env keys, with DEFAULT_REGION and SERVICES taken from the arguments |
| `Terralocacon.NormalisePath` | terralocacon.go:59-61 | an argument of only spaces (or empty) becomes ./local/localstack.tf; any argument with another character, a tab included, is kept |
| `Terralocacon.BlankPathAccepted` | terralocacon.go:59-64 | a blank argument is defaulted and passes the name check |
| `Terralocacon.TabPathRejected` | terralocacon.go:59-64 | a tab is not trimmed, so "\t" is kept and rejected |
| `Terralocacon.AcceptedPathsNameTheFile` | terralocacon.go:62-64 | a non-blank argument is accepted exactly when it contains localstack.tf |
| `Terralocacon.PatchLine` | terralocacon.go:84-85 | a line without the placeholder is unchanged; a patched line grows by the endpoint's length less the placeholder's; a placeholder at the start of the line is replaced there |
| `Terralocacon.Patched` | terralocacon.go:82-94 | a text with no newline is patched as a single line |
| `Terralocacon.PatchAll` | terralocacon.go:82-87 | one output line per input line |
| `Terralocacon.PatchLineFirstOnly` | terralocacon.go:84-85 | in a line `pre + "localhost:4566" + post` whose first placeholder follows `pre`, the result is `pre + endpoint + post`: later placeholders stay |
| `Terralocacon.PatchLineUntouched` | terralocacon.go:84 | a line without the placeholder is unchanged |
| `Terralocacon.PatchedLines` | terralocacon.go:82-94 | for an endpoint without a newline, the output has as many lines as the input; line i is line i patched, byte-identical when it has no placeholder |
| `Terralocacon.PatchedIdentity` | terralocacon.go:82-94 | a file with no placeholder is written back exactly as read |
| `Terralocacon.EndpointLineExample` | terralocacon.go:84-85 | `  endpoint = "localhost:4566"` becomes `  endpoint = "localhost:32768"` |
| `Terralocacon.SubstituteEndpoint` | terralocacon.go:83-87 | the array afterwards holds every original line patched |
| `Terralocacon.Host.ReadFile` | terralocacon.go:66 | logs the read; the file's text if it exists, the os.ReadFile error otherwise |
| `Terralocacon.Host.MappedPort` | terralocacon.go:76 | logs the lookup; the mapping of the port if there is one, an error otherwise |
| `Terralocacon.Host.MkdirTemp` | terralocacon.go:89 | logs the request; the host's answer |
| `Terralocacon.Host.WriteFile` | terralocacon.go:95 | logs the write; the host's fault, and the file stored when there is none |
| `Terralocacon.PatchIntoTempDir` | terralocacon.go:66-100 | read, port lookup, mkdir, write run in that order; the first failure stops the chain with its error and two empty strings; on success the endpoint is "localhost:" + port, the data written is the patched file, the path is tempDir + "/localstack.tf" and tempDir is returned |
| `Terralocacon.MakeTerraformTempDir` | terralocacon.go:58-101 | a rejected path returns the path error before any I/O request; an accepted path, whatever it was, reads ./local/localstack.tf and then follows the same chain and results |
| `CustomContainers.Forwarded` | custom_containers.go:22-30 | image, ports, wait strategy and env copied unchanged, other fields at zero, Started true |
| `CustomContainers.NewContainer` | custom_containers.go:13-33 | an all-white-space image gives nil and the image error; a non-blank image with no ports gives nil and the port error; otherwise the runtime's answer to the forwarded request |
| `CustomContainers.RejectionIgnoresRuntime` | custom_containers.go:14-20 | a rejected request gets the same answer from every runtime: no runtime call is made; the handle is nil |
| `CustomContainers.ImageCheckFirst` | custom_containers.go:14-20 | a blank image with no ports reports the image error |
| `CustomContainers.NewContainerSucceeds` | custom_containers.go:13-33 | success exactly when the request is launchable and the runtime starts it |
| `CustomContainers.LocalstackRequest` | custom_containers.go:42-54 | image localstack/localstack:latest, port 4566/tcp, waiting for "Ready", the six env keys with DEFAULT_REGION and SERVICES taken from the arguments |
| `CustomContainers.LocalstackLaunchable` | custom_containers.go:42-54 | the Localstack profile always passes NewContainer's checks |
| `CustomContainers.BringUp` | custom_containers.go:56-66 | (the same steps as lines 81-91) a handle exactly when there is no error; errors come with a nil handle and an empty port; a NewContainer error is returned with the profile's create prefix; after a successful launch, a lookup failure gets the port prefix and a lookup success gives the handle and the port number |
| `CustomContainers.NewLocalstackContainer` | custom_containers.go:41-67 | a handle exactly when there is no error; errors come with a nil handle and an empty port; a start failure gives "failed to create localstack container: " + cause; a lookup failure gives "failed to get the external port of created container: " + cause; on success the handle and the number of the port mapped to 4566 |
| `CustomContainers.MongoRequest` | custom_containers.go:71-79 | image mongo:latest, port 27017/tcp, waiting for "ready for start up.", the two root-credential env keys set to the arguments |
| `CustomContainers.MongoLaunchable` | custom_containers.go:71-79 | the MongoDB profile always passes NewContainer's checks |
| `CustomContainers.NewMongoDBContainer` | custom_containers.go:70-92 | as for Localstack, with prefix "failed to create mongo container: " and port 27017 |
| `CustomContainers.LocalstackProfilesAgree` | custom_containers.go:42-54 | both files' Localstack requests share image, ports and env; they wait for "Ready" and "Ready." respectively |

## Left out

- The container runtime (`GenericContainer`, `MappedPort`, `wait.ForLog`, image pulls, readiness waiting): it appears only as the oracle's answers. Its own error messages are stand-ins.
- `TerminateContainer` (both files): a single pass-through call to the runtime.
- terralocacon.go's own `NewContainer` (lines 19-30) and the call at line 47: only the request that `NewLocalstackContainer` builds is modelled, as `Terralocacon.LocalstackRequest`.
- `NewTerraformOpts`, `Apply`, `Destroy` (terralocacon.go:104-122): wrappers that run Terraform through terratest.
- `nat.NewPort("tcp", "4566")` (terralocacon.go:71-74): on these constants it always gives "4566/tcp", so its error branch cannot be taken. It is the constant `INTERNAL_PORT`.
- File-system details: temp-directory uniqueness (a promise of the OS), the file mode passed to `os.WriteFile`, directories, and partial writes. A failed write leaves the modelled files unchanged.
- Context cancellation and timeouts.
- Go strings are byte sequences; the model uses sequences of characters. `Index` counts characters where Go's `strings.Index` counts bytes (on `"é localhost:4566"` the model gives 2 and Go gives 3), but `Index` is internal to `Contains` and `ReplaceFirst` and no position ever leaves those two functions, so on valid UTF-8 their results agree with Go's. A file or path that is not valid UTF-8, which Go patches byte for byte, is outside the model.
- Host.ReadFile: the only read failure modelled is a missing file, with the fixed message `ReadError(path)` (a stand-in for the `os.ReadFile` text); other read errors such as a permission failure, which Go returns as received, are not modelled.
- `Split` and `Join` are modelled for one-character separators only, which is what terralocacon uses.
- NewLocalstackContainer: a non-empty (numeric) port on success is not proved. It holds only when the runtime reports a non-empty port number, which is the runtime's promise.
- NewMongoDBContainer: the same as NewLocalstackContainer; also, custom_containers_test.go:61 calls it with one argument while it takes three.
