/**
 * The dataset API of the control service: the `/version` endpoint and the
 * `POST /datasets` endpoint that validates a request body, checks it against
 * the current deployment and either rejects it or commits a new deployment
 * holding a new primary manifestation.
 */
module HttpApi {
  import opened Wrappers
  import opened Model
  import opened Persistence

  // ---------------------------------------------------------------------
  // Decoded JSON request bodies

  /** A decoded JSON value; an object keeps its members in the order given. */
  datatype Json =
    | JNull
    | JBool(b: bool)
    | JInt(i: int)
    | JString(s: string)
    | JArray(items: seq<Json>)
    | JObject(members: seq<(string, Json)>)

  type Members = seq<(string, Json)>

  /** The property names of a JSON object. */
  function Keys(ms: Members): set<string> {
    set i | 0 <= i < |ms| :: ms[i].0
  }

  /** The value of `key`: the last one given, as a decoded dictionary keeps it. */
  function Get(ms: Members, key: string): (r: Option<Json>)
    ensures r.None? <==> key !in Keys(ms)
    ensures r.Some? ==>
      exists i :: 0 <= i < |ms| && ms[i] == (key, r.value) && forall j :: i < j < |ms| ==> ms[j].0 != key
  {
    if ms == [] then None
    else if ms[|ms| - 1].0 == key then Some(ms[|ms| - 1].1)
    else
      assert Keys(ms) == Keys(ms[..|ms| - 1]) + {ms[|ms| - 1].0};
      Get(ms[..|ms| - 1], key)
  }

  // ---------------------------------------------------------------------
  // The `definitions/datasets` schema

  const PrimaryKey := "primary"
  const DatasetIdKey := "dataset_id"
  const MetadataKey := "metadata"
  const MaximumSizeKey := "maximum_size"

  /** The properties a dataset creation body may carry. */
  const DatasetProperties: set<string> := {PrimaryKey, DatasetIdKey, MetadataKey, MaximumSizeKey}

  /** One violation of the schema. */
  datatype SchemaError =
    | NotAnObject
    | AdditionalProperties(names: seq<string>)
    | RequiredProperty(name: string)
    | InvalidProperty(name: string)

  /** Whether `v` is an acceptable value for the declared property `key`. */
  predicate ValidValue(key: string, v: Json) {
    if key == MetadataKey then
      v.JObject? && forall k :: k in Keys(v.members) ==> Get(v.members, k).value.JString?
    else if key == MaximumSizeKey then
      v.JInt? && v.i >= 0
    else
      v.JString?
  }

  /**
   * The properties of `ms` not declared by the schema and not in `seen`,
   * each once, in order of first appearance.
   */
  function Extras(ms: Members, seen: set<string>): (r: seq<string>)
    ensures forall i :: 0 <= i < |r| ==> r[i] in Keys(ms) && r[i] !in DatasetProperties && r[i] !in seen
    ensures forall k :: k in Keys(ms) && k !in DatasetProperties && k !in seen ==> k in r
    ensures forall i, j :: 0 <= i < j < |r| ==> r[i] != r[j]
    decreases |ms|
  {
    if ms == [] then []
    else
      var k := ms[0].0;
      assert Keys(ms) == {k} + Keys(ms[1..]);
      if k in DatasetProperties || k in seen then Extras(ms[1..], seen)
      else [k] + Extras(ms[1..], seen + {k})
  }

  /** The declared properties present with a value of the wrong type, in schema order. */
  function InvalidValues(ms: Members): (errors: seq<SchemaError>)
    ensures errors == [] <==>
      forall k :: k in DatasetProperties && k in Keys(ms) ==> ValidValue(k, Get(ms, k).value)
  {
    Invalid(ms, PrimaryKey) + Invalid(ms, DatasetIdKey) + Invalid(ms, MetadataKey) + Invalid(ms, MaximumSizeKey)
  }

  function Invalid(ms: Members, key: string): seq<SchemaError> {
    match Get(ms, key)
    case Some(v) => if ValidValue(key, v) then [] else [InvalidProperty(key)]
    case None => []
  }

  /** The schema, stated declaratively. */
  ghost predicate ConformsToSchema(body: Json) {
    && body.JObject?
    && Keys(body.members) <= DatasetProperties
    && PrimaryKey in Keys(body.members)
    && forall k :: k in Keys(body.members) ==> ValidValue(k, Get(body.members, k).value)
  }

  /** The violations of the schema by `body`, in the order they are reported. */
  function Validate(body: Json): (errors: seq<SchemaError>)
    ensures errors == [] <==> ConformsToSchema(body)
  {
    if !body.JObject? then [NotAnObject]
    else
      var ms := body.members;
      var extras := Extras(ms, {});
      assert extras != [] ==> extras[0] in Keys(ms) && extras[0] !in DatasetProperties;
      forall k | k in Keys(ms) && k !in DatasetProperties ensures extras != [] {
        assert k in extras;
      }
      (if extras == [] then [] else [AdditionalProperties(extras)])
      + (if PrimaryKey in Keys(ms) then [] else [RequiredProperty(PrimaryKey)])
      + InvalidValues(ms)
  }

  /** A Python 2 `repr` of a unicode string holding no quote or backslash. */
  function Repr(s: string): string {
    "u'" + s + "'"
  }

  /** The `repr`s of `names`, joined by ", ". */
  function ReprList(names: seq<string>): string {
    if names == [] then ""
    else if |names| == 1 then Repr(names[0])
    else Repr(names[0]) + ", " + ReprList(names[1..])
  }

  /** The human-readable text of one violation. */
  function Message(e: SchemaError): string {
    match e
    case NotAnObject => "The request body is not of type u'object'"
    case AdditionalProperties(names) =>
      "Additional properties are not allowed (" + ReprList(names)
      + (if |names| == 1 then " was" else " were") + " unexpected)"
    case RequiredProperty(name) => Repr(name) + " is a required property"
    case InvalidProperty(name) => "The value of " + Repr(name) + " does not match its schema"
  }

  function Messages(errors: seq<SchemaError>): (texts: seq<string>)
    ensures |texts| == |errors|
    ensures forall i :: 0 <= i < |errors| ==> texts[i] == Message(errors[i])
  {
    if errors == [] then [] else [Message(errors[0])] + Messages(errors[1..])
  }

  // ---------------------------------------------------------------------
  // Responses

  const OK := 200
  const BAD_REQUEST := 400
  const CONFLICT := 409
  const INTERNAL_SERVER_ERROR := 500

  const SchemaDescription := "The provided JSON doesn't match the required schema."
  const ConflictDescription := "The provided dataset_id is already in use."
  const UnknownPrimaryDescription := "The provided primary node is not part of the cluster."

  /** What a successful request returns under `result`. */
  datatype Payload =
    | VersionInfo(flocker: string)
    | DatasetInfo(primary: string, metadata: map<string, string>, dataset_id: string)

  /** The JSON envelope of a response. */
  datatype Envelope =
    | GoodResult(result: Payload)
    | BadResult(description: string, errors: Option<seq<string>>)
    | ServerError

  datatype Response = Response(code: int, envelope: Envelope)

  /** The decision on a request: reject it, or commit a new deployment and answer. */
  datatype Decision =
    | Reject(response: Response)
    | Commit(deployment: Deployment, response: Response)

  // ---------------------------------------------------------------------
  // GET /version

  /** The answer of `/version`: the service's version under `flocker`. */
  function VersionResponse(version: string): Response {
    Response(OK, GoodResult(VersionInfo(version)))
  }

  // ---------------------------------------------------------------------
  // POST /datasets

  /** The metadata mapping of a `metadata` object's members (string values only). */
  function MetadataOf(ms: Members): (md: map<string, string>)
    ensures forall k :: k in md ==> k in Keys(ms)
  {
    if ms == [] then map[]
    else
      var last := ms[|ms| - 1];
      assert Keys(ms) == Keys(ms[..|ms| - 1]) + {last.0};
      var rest := MetadataOf(ms[..|ms| - 1]);
      if last.1.JString? then rest[last.0 := last.1.s] else rest
  }

  /** The node named by `primary`. */
  function RequestedPrimary(ms: Members): string {
    match Get(ms, PrimaryKey)
    case Some(JString(s)) => s
    case _ => ""
  }

  /** The dataset id of the request: the one supplied, or the freshly generated one. */
  function RequestedId(ms: Members, freshId: string): string {
    match Get(ms, DatasetIdKey)
    case Some(JString(s)) => s
    case _ => freshId
  }

  /** The metadata of the request, empty when none is supplied. */
  function RequestedMetadata(ms: Members): map<string, string> {
    match Get(ms, MetadataKey)
    case Some(JObject(md)) => MetadataOf(md)
    case _ => map[]
  }

  function RequestedMaximumSize(ms: Members): Option<nat> {
    match Get(ms, MaximumSizeKey)
    case Some(JInt(i)) => if i >= 0 then Some(i) else None
    case _ => None
  }

  /** The new primary manifestation a valid request asks for. */
  function RequestedManifestation(ms: Members, freshId: string): Manifestation {
    Manifestation(
      Dataset(RequestedId(ms, freshId), RequestedMetadata(ms), RequestedMaximumSize(ms)),
      true)
  }

  /**
   * The create-dataset rule on the current deployment `d`: schema
   * violations, then a dataset id already in use, then an unknown primary
   * node are rejected; otherwise the new primary manifestation is placed on
   * the primary node.  `freshId` is the id generated for a request that
   * supplies none.
   */
  function CreateDataset(d: Deployment, body: Json, freshId: string): (r: Decision)
    ensures r.Reject? ==> r.response.envelope.BadResult? && (r.response.code == BAD_REQUEST || r.response.code == CONFLICT)
    ensures r.Commit? ==> r.response.code == OK && r.response.envelope.GoodResult?
  {
    var errors := Validate(body);
    if errors != [] then
      Reject(Response(BAD_REQUEST, BadResult(SchemaDescription, Some(Messages(errors)))))
    else
      var ms := body.members;
      var id := RequestedId(ms, freshId);
      var primary := RequestedPrimary(ms);
      if id in DatasetIds(d) then
        Reject(Response(CONFLICT, BadResult(ConflictDescription, None)))
      else if primary !in Hostnames(d) then
        Reject(Response(BAD_REQUEST, BadResult(UnknownPrimaryDescription, None)))
      else
        Commit(
          AddManifestationOn(d, primary, RequestedManifestation(ms, freshId)),
          Response(OK, GoodResult(DatasetInfo(primary, RequestedMetadata(ms), id))))
  }

  /** A body that violates the schema is answered 400 with every violation, and nothing is saved. */
  lemma CreateDatasetSchemaViolation(d: Deployment, body: Json, freshId: string)
    ensures !ConformsToSchema(body) <==>
      CreateDataset(d, body, freshId)
        == Reject(Response(BAD_REQUEST, BadResult(SchemaDescription, Some(Messages(Validate(body))))))
  {
  }

  /** A valid body whose dataset id is in use is answered 409, and nothing is saved. */
  lemma CreateDatasetConflict(d: Deployment, body: Json, freshId: string)
    requires ConformsToSchema(body)
    ensures RequestedId(body.members, freshId) in DatasetIds(d) <==>
      CreateDataset(d, body, freshId) == Reject(Response(CONFLICT, BadResult(ConflictDescription, None)))
  {
  }

  /** A valid body with a fresh id naming no node is answered 400, and nothing is saved. */
  lemma CreateDatasetUnknownPrimary(d: Deployment, body: Json, freshId: string)
    requires ConformsToSchema(body)
    requires RequestedId(body.members, freshId) !in DatasetIds(d)
    ensures RequestedPrimary(body.members) !in Hostnames(d) <==>
      CreateDataset(d, body, freshId) == Reject(Response(BAD_REQUEST, BadResult(UnknownPrimaryDescription, None)))
  {
  }

  /** A new deployment is committed exactly when none of the rejections applies. */
  lemma CreateDatasetCommits(d: Deployment, body: Json, freshId: string)
    ensures CreateDataset(d, body, freshId).Commit? <==>
      && ConformsToSchema(body)
      && RequestedId(body.members, freshId) !in DatasetIds(d)
      && RequestedPrimary(body.members) in Hostnames(d)
  {
  }

  /**
   * A committed creation answers 200 with `{primary, metadata, dataset_id}`,
   * adds exactly the new id to the deployment's ids, keeps every node of
   * another hostname as it was, places the new primary manifestation on the
   * primary node, and keeps the deployment well-formed.
   */
  lemma CreateDatasetSuccess(d: Deployment, body: Json, freshId: string)
    requires CreateDataset(d, body, freshId).Commit?
    ensures var ms := body.members;
      var id := RequestedId(ms, freshId);
      var primary := RequestedPrimary(ms);
      var next := CreateDataset(d, body, freshId).deployment;
      && CreateDataset(d, body, freshId).response
           == Response(OK, GoodResult(DatasetInfo(primary, RequestedMetadata(ms), id)))
      && DatasetIds(next) == DatasetIds(d) + {id}
      && Hostnames(next) == Hostnames(d)
      && (forall n :: n in d.nodes && n.hostname != primary ==> n in next.nodes)
      && (forall n :: n in d.nodes && n.hostname == primary ==>
            Node(primary, n.other_manifestations + {RequestedManifestation(ms, freshId)}) in next.nodes)
      && (WellFormed(d) ==> WellFormed(next))
  {
    var ms := body.members;
    var primary := RequestedPrimary(ms);
    var m := RequestedManifestation(ms, freshId);
    AddManifestationOnNodes(d, primary, m);
    AddManifestationOnIds(d, primary, m);
    AddManifestationOnHostnames(d, primary, m);
    if WellFormed(d) {
      AddManifestationOnWellFormed(d, primary, m);
    }
  }

  /**
   * After a committed creation on a well-formed deployment, the returned
   * dataset id identifies exactly one manifestation of the saved deployment:
   * a primary one, on the requested node, carrying the requested metadata.
   */
  lemma CreateDatasetRoundTrip(d: Deployment, body: Json, freshId: string, next: Deployment, info: Payload)
    requires WellFormed(d)
    requires CreateDataset(d, body, freshId) == Commit(next, Response(OK, GoodResult(info)))
    ensures info.DatasetInfo?
    ensures exists n, m :: n in next.nodes && m in n.Manifestations() && m.dataset.dataset_id == info.dataset_id
    ensures forall n, m :: n in next.nodes && m in n.Manifestations() && m.dataset.dataset_id == info.dataset_id ==>
      n.hostname == info.primary && m.primary && m.dataset.metadata == info.metadata
    ensures forall n1, m1, n2, m2 ::
      n1 in next.nodes && m1 in n1.Manifestations() && m1.dataset.dataset_id == info.dataset_id &&
      n2 in next.nodes && m2 in n2.Manifestations() && m2.dataset.dataset_id == info.dataset_id
      ==> n1 == n2 && m1 == m2
  {
    var ms := body.members;
    var primary := RequestedPrimary(ms);
    var m := RequestedManifestation(ms, freshId);
    assert next == AddManifestationOn(d, primary, m);
    assert info == DatasetInfo(primary, m.dataset.metadata, m.dataset.dataset_id);
    AddManifestationOnPlaces(d, primary, m);
    AddManifestationOnWellFormed(d, primary, m);
  }

  /**
   * A minimal body naming an existing node, on a deployment with no
   * datasets, answers `{primary, metadata: {}}` plus the fresh id, and leaves
   * exactly that id in the deployment.
   */
  lemma MinimalCreateDataset(d: Deployment, node: string, freshId: string)
    requires node in Hostnames(d) && DatasetIds(d) == {}
    ensures var decision := CreateDataset(d, JObject([(PrimaryKey, JString(node))]), freshId);
      && decision.Commit?
      && decision.response == Response(OK, GoodResult(DatasetInfo(node, map[], freshId)))
      && DatasetIds(decision.deployment) == {freshId}
  {
    var body := JObject([(PrimaryKey, JString(node))]);
    assert body.members[0].0 == PrimaryKey;
    assert Keys(body.members) == {PrimaryKey};
    assert ConformsToSchema(body);
    CreateDatasetSuccess(d, body, freshId);
  }

  // ---------------------------------------------------------------------
  // The API object

  /** The dataset API, served against a persistence service. */
  class DatasetAPIUserV1 {
    const persistence: ConfigurationPersistenceService
    /** The package's `__version__`. */
    const version: string

    constructor (persistence: ConfigurationPersistenceService, version: string)
      ensures this.persistence == persistence && this.version == version
    {
      this.persistence := persistence;
      this.version := version;
    }

    /** `GET /version`: the version under `flocker`; nothing is read or changed. */
    method Version() returns (r: Response)
      ensures r == Response(OK, GoodResult(VersionInfo(version)))
    {
      r := VersionResponse(version);
    }

    /**
     * `POST /datasets`: decide on the current deployment, and save the new
     * deployment when the decision commits one.  `written` is the outcome of
     * the durable write; a failed write answers 500 and keeps the old
     * deployment.
     */
    method CreateDatasetConfiguration(body: Json, freshId: string, written: bool) returns (r: Response)
      modifies persistence
      ensures match CreateDataset(old(persistence.current), body, freshId)
        case Reject(response) =>
          r == response && persistence.current == old(persistence.current)
        case Commit(next, response) =>
          if written then r == response && persistence.current == next
          else r == Response(INTERNAL_SERVER_ERROR, ServerError) && persistence.current == old(persistence.current)
    {
      var current := persistence.Get();
      var decision := CreateDataset(current, body, freshId);
      match decision
      case Reject(response) =>
        r := response;
      case Commit(next, response) =>
        var committed := persistence.Save(next, written);
        if committed {
          r := response;
        } else {
          r := Response(INTERNAL_SERVER_ERROR, ServerError);
        }
    }
  }
}
