# Flocker: the dataset-creation rule and the log-export script, in Dafny

This project models two small parts of Flocker.

**The control service's dataset API, as its integration tests pin it down.**
A cluster's desired configuration is an immutable `Deployment`: a set of
`Node`s, each holding `Manifestation`s of `Dataset`s. A configuration
persistence service holds the current deployment. `save` replaces it once the
durable write has succeeded, and `get` reads it.

`POST /datasets` handles a JSON body in this order:
- It validates the body against a reconstruction of the `definitions/datasets` schema (the declared properties, `primary` required, and a type per property). A violation gets 400 and the list of violations.
- It rejects a dataset id that is already in use with 409.
- It rejects a primary hostname that names no node with 400.
- Otherwise it builds a new deployment, copy-on-write. The named node gains a new primary manifestation of a new dataset.

The new deployment is saved, and the answer is `{primary, metadata, dataset_id}`. `GET /version` answers the package version under `flocker`. The files:
- `deployment.dfy` holds the values and the transformation.
- `persistence.dfy` holds the persistence service, a class with one field.
- `httpapi.dfy` holds the body model, the schema check, the decision function and the API class.
- `httpapi_tests.dfy` holds the test scenarios, written as client methods whose contracts are what each scenario asserts.

**The `flocker-log-export` diagnostics script.** The script does the following:
- It parses each line of `systemctl list-unit-files` or `initctl list` into a service name and status. The split is at the first run of whitespace.
- It keeps the services whose name starts with `flocker-`.
- It picks the host's platform by matching the distribution string `name.lower() + "-" + version` against the supported labels `centos-7` and `ubuntu-14.04`.
- It names the archive directory and the files inside it.
- It writes the service-status file.
- It runs the steps of `create` in a fixed order. A `finally` clause then removes the directory.

The files:
- `fields.dfy` holds the line splitting.
- `services.dfy` holds the listings, the filter and the status text.
- `platforms.dfy` holds the platform table and its search.
- `archive.dfy` holds the paths, the plan of `create`, the try/finally method and the Upstart member selection.
- `logexport_examples.dfy` holds concrete instances.

Several parts are inputs to the model rather than computed:
- Every side effect of `create` is an `Action` in a trace. Whether an action raises is decided by a caller-supplied oracle `fails`.
- The output of the listing commands is a list of lines.
- The host name and time suffix is an opaque string.
- `os.uname()` is a list of strings.
- `os.path.isfile` is a predicate.
- `platform.dist()` gives the name and version as parameters.
- The generated UUID is the parameter `freshId`.

## Model

| member | source | states |
|---|---|---|
| `Model.DatasetIds` | flocker/control/test/test_httpapi.py:231-234 | the ids are exactly those of some manifestation of some node: each manifestation's id is included, and each included id has a witness |
| `Model.AddManifestationOn` | flocker/control/test/test_httpapi.py:192-201 | the copy-on-write step; no contract of its own, its properties are the `AddManifestationOn...` lemmas below |
| `Model.AddManifestationOnNodes` | flocker/control/test/test_httpapi.py:192-201 | after adding a manifestation on a hostname, nodes of other hostnames are kept, the nodes of that hostname gain exactly the manifestation, and every new node comes from an old one |
| `Model.AddManifestationOnHostnames` | flocker/control/test/test_httpapi.py:192-201 | adding a manifestation keeps the set of hostnames |
| `Model.AddManifestationOnIds` | flocker/control/test/test_httpapi.py:218-219 | adding a manifestation on an existing hostname adds exactly its id to the dataset ids |
| `Model.AddManifestationOnHostnamesUnique` | flocker/control/test/test_httpapi.py:167-173 | adding a manifestation keeps hostnames unique, so the node of a hostname stays a single node |
| `Model.AddManifestationOnIdsUnique` | flocker/control/test/test_httpapi.py:137-143 | adding a manifestation whose id is not in use keeps every dataset id on one manifestation of one node |
| `Model.AddManifestationOnWellFormed` | flocker/control/test/test_httpapi.py:137-143 | adding a manifestation with a fresh id keeps the deployment well-formed (unique hostnames, one manifestation per id) |
| `Model.AddManifestationOnPlaces` | flocker/control/test/test_httpapi.py:192-201 | after adding a fresh-id manifestation on an existing hostname, a node of that hostname holds it, and it is the only manifestation with its id |
| `Persistence.ConfigurationPersistenceService.constructor` | flocker/control/test/test_httpapi.py:109-111 | a new service holds the initial deployment |
| `Persistence.ConfigurationPersistenceService.Get` | flocker/control/test/test_httpapi.py:168-169 | `get` returns the current deployment and changes nothing |
| `Persistence.ConfigurationPersistenceService.Save` | flocker/control/test/test_httpapi.py:149-156 | `save` reports the outcome of the durable write; the current deployment becomes the saved one exactly when the write succeeded, and stays as it was otherwise |
| `HttpApi.Get` | flocker/control/test/test_httpapi.py:130 | looking up a body property finds nothing exactly when it is absent; a found value is the one given by the last member with that key, as a decoded JSON object keeps it |
| `HttpApi.Extras` | flocker/control/test/test_httpapi.py:129-134 | the undeclared properties of a body, each exactly once: everything listed is present and undeclared, and every present undeclared property is listed |
| `HttpApi.InvalidValues` | flocker/control/test/test_httpapi.py:123-128 | no type violation is reported exactly when every declared property present has a value of its declared type |
| `HttpApi.Validate` | flocker/control/test/test_httpapi.py:123-135 | the body has no violations exactly when it conforms to the schema: an object, only declared properties, `primary` present, values well typed |
| `HttpApi.Messages` | flocker/control/test/test_httpapi.py:133-134 | one message per violation, in the same order |
| `HttpApi.Message` | flocker/control/test/test_httpapi.py:133-134 | no contract of its own: the additional-properties text is fixed by `HttpApiTests.JunkMessages` |
| `HttpApi.MetadataOf` | flocker/control/test/test_httpapi.py:224-226 | a metadata mapping holds only keys the `metadata` object gives |
| `HttpApi.RequestedId` | flocker/control/test/test_httpapi.py:137-164 | no contract of its own: the supplied `dataset_id`, else the generated one; `HttpApi.CreateDatasetConflict` and `HttpApi.CreateDatasetRoundTrip` are stated over it |
| `HttpApi.RequestedManifestation` | flocker/control/test/test_httpapi.py:192-201 | no contract of its own: the new primary manifestation; `HttpApi.CreateDatasetSuccess` and `HttpApi.CreateDatasetRoundTrip` state where it is placed and what it carries |
| `HttpApi.CreateDataset` | flocker/control/test/test_httpapi.py:117-222 | a rejection is a 400 or a 409 error envelope and a commit is a 200 result; which rejection happens when is stated by the four `CreateDataset...` lemmas below |
| `HttpApi.CreateDatasetSchemaViolation` | flocker/control/test/test_httpapi.py:123-135 | a body is answered 400 with the schema description and its violation messages, committing nothing, exactly when it violates the schema |
| `HttpApi.CreateDatasetConflict` | flocker/control/test/test_httpapi.py:137-164 | a valid body is answered 409 "The provided dataset_id is already in use.", committing nothing, exactly when its dataset id is already in the deployment |
| `HttpApi.CreateDatasetUnknownPrimary` | flocker/control/test/test_httpapi.py:178-190 | a valid body with an unused id is answered 400 "The provided primary node is not part of the cluster.", committing nothing, exactly when its primary names no node |
| `HttpApi.CreateDatasetCommits` | flocker/control/test/test_httpapi.py:117-222 | a new deployment is committed exactly when the body conforms, its id is unused and its primary is a node |
| `HttpApi.CreateDatasetSuccess` | flocker/control/test/test_httpapi.py:192-219 | a commit answers 200 with `{primary, metadata, dataset_id}`, adds exactly the new id, keeps the hostnames and every other node, gives the primary node the new manifestation, and preserves well-formedness |
| `HttpApi.CreateDatasetRoundTrip` | flocker/control/test/test_httpapi.py:214-219 | the returned dataset id identifies exactly one manifestation of the committed deployment: primary, on the requested node, with the requested metadata |
| `HttpApi.MinimalCreateDataset` | flocker/control/test/test_httpapi.py:192-219 | a body holding only `primary`, naming a node of a deployment without datasets, commits and answers `{primary: node, metadata: {}}` plus the fresh id, and the deployment's ids become exactly that id |
| `HttpApi.DatasetAPIUserV1.constructor` | flocker/control/test/test_httpapi.py:109-111 | the API object serves the given persistence service and version |
| `HttpApi.VersionResponse` | flocker/control/test/test_httpapi.py:105-106 | no contract of its own: `HttpApi.DatasetAPIUserV1.Version` and `HttpApiTests.TestVersion` state the answer |
| `HttpApi.DatasetAPIUserV1.Version` | flocker/control/test/test_httpapi.py:101-106 | `GET /version` answers 200 with exactly `{flocker: version}` |
| `HttpApi.DatasetAPIUserV1.CreateDatasetConfiguration` | flocker/control/test/test_httpapi.py:117-222 | `POST /datasets` answers the decision's response. A rejection leaves the stored deployment unchanged. A commit is stored when the write succeeds; when it fails, the answer is 500 and the old deployment stays |
| `HttpApiTests.SaveThenGet` | flocker/control/test/test_httpapi.py:202-204 | `save(d)` followed by `get()` returns `d` |
| `HttpApiTests.TestVersion` | flocker/control/test/test_httpapi.py:101-106 | the version scenario answers 200 and the success envelope holding the version under `flocker` |
| `HttpApiTests.JunkBodyViolations` | flocker/control/test/test_httpapi.py:130 | the body `{primary, junk}` has exactly one violation: the undeclared property `junk` |
| `HttpApiTests.JunkMessages` | flocker/control/test/test_httpapi.py:133-134 | the single undeclared property `junk` is reported as "Additional properties are not allowed (u'junk' was unexpected)" |
| `HttpApiTests.TestWrongSchema` | flocker/control/test/test_httpapi.py:123-135 | the wrong-schema scenario answers 400 with the schema description and the single error "Additional properties are not allowed (u'junk' was unexpected)" |
| `HttpApiTests.CollisionRejected` | flocker/control/test/test_httpapi.py:137-164 | on node A holding a manifestation of an id, a body asking for that id again is rejected with 409 and the conflict description |
| `HttpApiTests.TestDatasetIdCollision` | flocker/control/test/test_httpapi.py:137-176 | the collision scenario answers 409 with the conflict description, and the stored deployment is still node A holding exactly the pre-existing manifestation |
| `HttpApiTests.TestUnknownPrimaryNode` | flocker/control/test/test_httpapi.py:178-190 | the unknown-primary scenario answers 400 with the unknown-node description and the configuration stays empty |
| `HttpApiTests.TestMinimalCreateDataset` | flocker/control/test/test_httpapi.py:192-222 | the minimal scenario answers 200 with primary node A and empty metadata, and the stored ids are exactly the returned id |
| `Fields.SkipSpace` | docs/using/administering/flocker-log-export.py:131 | the end of a whitespace run: everything skipped is whitespace and the next character is not |
| `Fields.SkipWord` | docs/using/administering/flocker-log-export.py:131 | the end of a field: nothing skipped is whitespace and the next character is |
| `Fields.SplitOnce` | docs/using/administering/flocker-log-export.py:131 | `line.split(None, 1)` gives at most two parts; how many and which first part are stated by `Fields.SplitOnceFields` |
| `Fields.SplitOnceFields` | docs/using/administering/flocker-log-export.py:131 | a line without fields splits into no part, a line with one field into one part, any other line into two; the first part is the first field |
| `Fields.ParseLine` | docs/using/administering/flocker-log-export.py:131 | a line that cannot be unpacked into two parts fails carrying the line |
| `Fields.ParseLineShape` | docs/using/administering/flocker-log-export.py:130-132 | a parsed name is non-empty and holds no whitespace; a parsed status is non-empty and starts with a non-blank |
| `Fields.SkipSpaceAt` | docs/using/administering/flocker-log-export.py:131 | skipping whitespace stops exactly at the first non-blank |
| `Fields.SkipWordAt` | docs/using/administering/flocker-log-export.py:131 | skipping a field stops exactly at the first blank |
| `Fields.SkipSpaceSuffix` | docs/using/administering/flocker-log-export.py:131 | skipping whitespace in a suffix stops where it stops in the whole line |
| `Fields.SkipWordSuffix` | docs/using/administering/flocker-log-export.py:131 | skipping a field in a suffix stops where it stops in the whole line |
| `Fields.WordsFromSuffix` | docs/using/administering/flocker-log-export.py:131 | the fields of a suffix are the fields of the line from that index on |
| `Fields.WordsFromSkip` | docs/using/administering/flocker-log-export.py:131 | leading whitespace does not change the fields found |
| `Fields.ParseLineFields` | docs/using/administering/flocker-log-export.py:130-132 | a line parses exactly when it has at least two whitespace-separated fields; the name is the first field and the status holds exactly the other fields |
| `Fields.ParseLineOfFields` | docs/using/administering/flocker-log-export.py:130-132 | optional whitespace, a name, whitespace, then a status starting with a non-blank parse to exactly that name and status |
| `Services.AllServices` | docs/using/administering/flocker-log-export.py:125-132 | the entries are those of the lines, in order, up to the first line that cannot be unpacked. A listing is malformed exactly when it stops early, and then it names that line |
| `Services.FilterFlocker` | docs/using/administering/flocker-log-export.py:134-140 | the result holds only `flocker-` entries, keeps their order, and holds each `flocker-` entry exactly as many times as the input does |
| `Services.FilterFlockerAppend` | docs/using/administering/flocker-log-export.py:155-161 | filtering a concatenation is concatenating the filtered parts |
| `Services.FilterFlockerSingle` | docs/using/administering/flocker-log-export.py:159-161 | one entry is kept exactly when its name starts with `flocker-` |
| `Services.FlockerServices` | docs/using/administering/flocker-log-export.py:134-140 | the Flocker listing raises where the full listing raises and holds exactly its `flocker-` entries, each as often as the full listing does, in order |
| `Services.StatusText` | docs/using/administering/flocker-log-export.py:85-88 | no contract of its own: `Services.ServiceStatusContent` is proved to compute it, and `StatusTextAppend` and `StatusLineReparses` state its properties |
| `Services.StatusLine` | docs/using/administering/flocker-log-export.py:88 | no contract of its own: `Services.StatusLineReparses` states that a written line parses back to its entry |
| `Services.StatusTextAppend` | docs/using/administering/flocker-log-export.py:85-88 | the status text of a concatenation is the concatenation of the status texts |
| `Services.StatusLineReparses` | docs/using/administering/flocker-log-export.py:85-88 | a line written to the service-status file for a parsed entry parses back to that entry |
| `Services.ServiceStatusContent` | docs/using/administering/flocker-log-export.py:85-88 | the loop writes `name + " " + status + "\n"` for every entry, in order |
| `Platforms.LabelsDistinct` | docs/using/administering/flocker-log-export.py:240-253 | no two supported platforms share a label |
| `Platforms.Label` | docs/using/administering/flocker-log-export.py:257 | no contract of its own: `Platforms.LabelsDistinct`, `Platforms.LabelsNotPrefixes` and `Platforms.PlatformByLabel` state its properties |
| `Platforms.PlatformByLabel` | docs/using/administering/flocker-log-export.py:256-259 | the label map holds every supported platform under its label, and nothing else |
| `Platforms.LowerChar` | docs/using/administering/flocker-log-export.py:279 | an upper-case ASCII letter becomes its own lower-case letter, and every other character is left alone |
| `Platforms.Lower` | docs/using/administering/flocker-log-export.py:279 | lowering leaves no upper-case letter, keeps the length, and leaves a string without upper-case letters unchanged |
| `Platforms.LowerIdempotent` | docs/using/administering/flocker-log-export.py:279 | lowering twice is lowering once |
| `Platforms.LowerAppend` | docs/using/administering/flocker-log-export.py:279 | lowering a concatenation is concatenating the lowered parts |
| `Platforms.Distribution` | docs/using/administering/flocker-log-export.py:279 | no contract of its own: `Platforms.DistributionIgnoresCase` states its properties |
| `Platforms.DistributionIgnoresCase` | docs/using/administering/flocker-log-export.py:279 | the distribution string is the same whatever the case of the detected name, and starts with the lowered name and `-` |
| `Platforms.PrefixesComparable` | docs/using/administering/flocker-log-export.py:281 | two prefixes of one string are prefixes of one another |
| `Platforms.LabelsNotPrefixes` | docs/using/administering/flocker-log-export.py:240-259 | neither supported label is a prefix of the other |
| `Platforms.AtMostOneMatch` | docs/using/administering/flocker-log-export.py:280-282 | at most one supported label is a prefix of any distribution string, so the order of the search does not matter |
| `Platforms.CurrentPlatform` | docs/using/administering/flocker-log-export.py:273-284 | a platform is found exactly when some label is a prefix of the distribution string; it is the only such platform; otherwise the failure carries the distribution string |
| `DebugArchive.PathJoin` | docs/using/administering/flocker-log-export.py:52-55 | an absolute second part replaces the first; otherwise exactly one `/` separates them and the result starts with the first part |
| `DebugArchive.PathJoinSuffix` | docs/using/administering/flocker-log-export.py:52-55 | the joined path always ends with the second part |
| `DebugArchive.PathJoinInjective` | docs/using/administering/flocker-log-export.py:52-55 | under a fixed non-empty relative directory, two names that join to the same path are the same name |
| `DebugArchive.Archive.ArchiveName` | docs/using/administering/flocker-log-export.py:38-40 | no contract of its own: its shape is stated by `DebugArchive.LogfilePathShape` |
| `DebugArchive.Archive.ArchivePath` | docs/using/administering/flocker-log-export.py:41 | no contract of its own: `DebugArchive.Create` returns it followed by `.tar` |
| `DebugArchive.Archive.LogfilePath` | docs/using/administering/flocker-log-export.py:43-55 | no contract of its own: `DebugArchive.LogfilePathShape` and `DebugArchive.LogfilePathInjective` state its properties |
| `DebugArchive.LogfilePathShape` | docs/using/administering/flocker-log-export.py:34-55 | for a relative label and a suffix not ending in `/`, the file path is `clusterhq_flocker_logs_<suffix>/<label>-<suffix>` |
| `DebugArchive.LogfilePathInjective` | docs/using/administering/flocker-log-export.py:43-55 | distinct labels give distinct file paths, for every label and suffix |
| `DebugArchive.LogfilePathsDistinct` | docs/using/administering/flocker-log-export.py:43-55 | different labels never share a file of the archive |
| `DebugArchive.Exports` | docs/using/administering/flocker-log-export.py:75-80 | one export per Flocker service, in order, each into the file for that service's name; services with different names export into different files |
| `DebugArchive.ExportsAppend` | docs/using/administering/flocker-log-export.py:75-80 | the exports of a concatenation of listings are the exports of each part, in order |
| `DebugArchive.JoinSpace` | docs/using/administering/flocker-log-export.py:101 | no contract of its own: it is the content of the `uname` file in `DebugArchive.Tail` |
| `DebugArchive.Tail` | docs/using/administering/flocker-log-export.py:90-114 | no contract of its own: `DebugArchive.RunTail` runs it and `DebugArchive.CreateInOrder` places it in the order of `create` |
| `DebugArchive.CreatePlan` | docs/using/administering/flocker-log-export.py:72-114 | no contract of its own: `DebugArchive.RunBody` is proved to run it, and `DebugArchive.BodyFollowsPlan` and `DebugArchive.CreateInOrder` state its properties |
| `DebugArchive.CreatePlanFor` | docs/using/administering/flocker-log-export.py:72-114 | no contract of its own: the plan of `CreatePlan` for the two listings as `flocker_services` and `all_services` produce them; `DebugArchive.RunBody` and `DebugArchive.CreateInOrder` are stated over it |
| `DebugArchive.Execute` | docs/using/administering/flocker-log-export.py:73-117 | steps run in order until one raises: the steps run are a prefix of the plan; nothing raises exactly when all of them ran; otherwise the last step run is the one that raised, and no earlier one did |
| `DebugArchive.ExecuteStopsAt` | docs/using/administering/flocker-log-export.py:73-117 | when the steps before step n pass and step n raises, exactly the steps up to n run |
| `DebugArchive.BodyOutcome` | docs/using/administering/flocker-log-export.py:73-117 | no contract of its own: a raising step comes first, then the unpacking error of a malformed listing line; `DebugArchive.BodyFollowsPlan` states when it succeeds and `DebugArchive.RunBody` is proved to compute it |
| `DebugArchive.Perform` | docs/using/administering/flocker-log-export.py:73-114 | one step runs after the steps before it passed; if it raises, the plan stops there |
| `DebugArchive.RunExports` | docs/using/administering/flocker-log-export.py:75-80 | the export loop either runs all exports without a failure, or stops at the first export that raises |
| `DebugArchive.RunTail` | docs/using/administering/flocker-log-export.py:90-114 | docker version, docker info, uname, os-release and the tar run in that order, up to the first one that raises |
| `DebugArchive.RunAfterExports` | docs/using/administering/flocker-log-export.py:81-114 | syslog and the service-status file follow, and the rest follows when the full listing is well formed; the outcome is that of the plan |
| `DebugArchive.RunBody` | docs/using/administering/flocker-log-export.py:73-114 | the `try` block's steps and its exception are those of running the plan built from the two listings |
| `DebugArchive.Create` | docs/using/administering/flocker-log-export.py:65-118 | makedirs comes first, and if it raises nothing else runs. Otherwise the `try` block runs and the directory is always removed last. A removal failure takes precedence over the block's exception; with neither, the result is the archive path + `.tar` |
| `DebugArchive.CreateInOrder` | docs/using/administering/flocker-log-export.py:72-114 | with well-formed listings and no failures the steps are the Flocker exports, then syslog, service-status, docker version, docker info, uname, os-release and the tar |
| `DebugArchive.BodyFollowsPlan` | docs/using/administering/flocker-log-export.py:73-117 | the steps run are always the first steps of the plan, and the block succeeds exactly when no listing is malformed and no step raises |
| `DebugArchive.Existing` | docs/using/administering/flocker-log-export.py:207-209 | the kept candidates are exactly those whose file exists, in the order of the candidate list |
| `DebugArchive.UpstartCandidates` | docs/using/administering/flocker-log-export.py:201-206 | no contract of its own: `DebugArchive.UpstartMembers` states which of its two files are added, in which order and under which names |
| `DebugArchive.UpstartExportFlocker` | docs/using/administering/flocker-log-export.py:195-209 | the tar is at target + `.tar.gz` and its members are the existing candidates in order |
| `DebugArchive.UpstartMembers` | docs/using/administering/flocker-log-export.py:200-209 | the upstart log is added as `<svc>-upstart.log` if it exists, then the eliot log as `<svc>-eliot.log` if it exists |
| `LogExportExamples.UnitFileLine` | docs/using/administering/flocker-log-export.py:129-132 | a `systemctl` line with a run of blanks parses into its unit name and state |
| `LogExportExamples.UbuntuHost` | docs/using/administering/flocker-log-export.py:273-284 | `Ubuntu` `14.04` selects the Ubuntu platform (the name is lowered first) |
| `LogExportExamples.FedoraHost` | docs/using/administering/flocker-log-export.py:273-284 | `fedora` `22` fails with the distribution string `fedora-22` |

## Left out

- The HTTP transport, the Twisted agent, reactor and Deferred chaining, and JSON encoding. The body is given decoded and the response as a value.
- The API handler and the persistence service's implementation are not part of this model; only their tests are. The model takes the behaviour from what the tests assert.
- How the persistence service writes to disk. Its outcome is the input `written`, and the service holds the current deployment in memory.
- Concurrency and subscribers of the persistence service. Each request is modelled as one atomic read, decide and write.
- Random UUID generation. The generated id is the parameter `freshId`.
- `CreateDataset` checks for a conflict on the effective id: the supplied id, or the generated one when none is supplied. A description that checks only a supplied id differs here only when a generated UUID collides. Checking the effective id keeps the one-manifestation-per-id invariant unconditional.
- The order between a conflict and an unknown primary node is conflict first. No test fixes it, because no test triggers both.
- `HttpApi.Repr` writes a Python 2 `repr` of a unicode string as `u'...'` around the string. This matches Python 2 only for names without quotes, backslashes or non-ASCII characters, so the one message the tests fix would differ for such names.
- The value rules of the schema (`HttpApi.ValidValue`) are a reconstruction: the `definitions/datasets` schema itself is not part of this model. In particular `dataset_id` accepts any string, not only a UUID.
- `HttpApi.Message`: only the additional-properties text and the 400 descriptions are fixed by the tests. The texts for a non-object body, a missing `primary` and a wrongly typed value are illustrative, not the validation library's.
- The order of violations of different kinds (undeclared properties, then the missing `primary`, then wrongly typed values) is the model's own; the tests fix only a body with a single violation.
- `HttpApi.Extras` reports extra properties once each, in the order they first appear. The validation library's own order of several extra properties is not modelled.
- `HttpApi.MetadataOf`: metadata and `maximum_size` are carried into the new dataset. Their scenario has no assertions, so nothing more is stated about them.
- Applications on nodes. A node's manifestations are its `other_manifestations`.
- `Model.AddManifestationOn` adds the manifestation to every node of the hostname. This is a single node on a well-formed deployment, which the lemmas require where it matters.
- `create_api_service`, its listening port and service wiring.
- All subprocess and shell calls, and all file, gzip and tar writes. Every side effect is an `Action` whose failure comes from the oracle `fails`.
- The text of the journald commands. That exporter's steps are only `ExportFlocker` and `ExportAll` actions.
- `UpstartLogExporter.export_all` and `JournaldLogExporter.export_all`, which only copy or compress the system log. Both are the `ExportAll` action.
- Failures of the listing commands themselves, and the contents of their output. The listings are given as lines.
- `str.splitlines` is not modelled. Each listing is given as its list of lines.
- `time()`, `gethostname()` and `platform.dist()`. Their results are inputs.
- `os.path.abspath` normalisation. The archive path is the working directory joined with the archive name, and the working directory is given.
- `make_archive`'s own result. The returned path is the archive path followed by `.tar`, which is what the standard library returns for a `tar` archive of a relative base name.
- A partial write of the service-status file. When the write itself raises, the step fails as a whole.
- The service manager and log exporter of a `FlockerDebugArchive` are not fields of `DebugArchive.Archive`: the listing lines and the export actions given to `create` take their place.
- `main`'s error message, exit status and printing of the archive path.
- `Platforms.Lower`: `str.lower` is modelled for ASCII only, as on a byte string in the C locale.
