/**
 * The integration scenarios of the dataset API, as client code: each method
 * builds a fresh persistence service and API object, drives them as the
 * scenario does, and its contract is what the scenario asserts.
 */
module HttpApiTests {
  import opened Wrappers
  import opened Model
  import opened Persistence
  import opened HttpApi

  const NODE_A := "10.0.0.1"

  /** `save(d)` followed by `get()` returns `d`. */
  method SaveThenGet(service: ConfigurationPersistenceService, d: Deployment) returns (got: Deployment)
    modifies service
    ensures got == d && service.current == d
  {
    var committed := service.Save(d, true);
    got := service.Get();
  }

  /** `/version` answers the version under `flocker`. */
  method TestVersion(version: string) returns (r: Response)
    ensures r.code == OK && r.envelope == GoodResult(VersionInfo(version))
  {
    var service := new ConfigurationPersistenceService(EmptyDeployment);
    var api := new DatasetAPIUserV1(service, version);
    r := api.Version();
  }

  /** The body of the wrong-schema scenario. */
  const JunkBody := JObject([(PrimaryKey, JString(NODE_A)), ("junk", JString("garbage"))])

  /** The violations of `JunkBody`: the one undeclared property. */
  lemma JunkBodyViolations()
    ensures Validate(JunkBody) == [AdditionalProperties(["junk"])]
  {
    assert JunkBody.members[0].0 == PrimaryKey && JunkBody.members[1].0 == "junk";
    assert Keys(JunkBody.members) == {PrimaryKey, "junk"};
    assert JunkBody.members[1..][1..] == [];
    assert "junk" !in DatasetProperties;
    assert Extras(JunkBody.members[1..], {}) == ["junk"];
  }

  /** The message reporting the single undeclared property `junk`. */
  lemma JunkMessages()
    ensures Messages([AdditionalProperties(["junk"])])
      == ["Additional properties are not allowed (u'junk' was unexpected)"]
  {
    assert ReprList(["junk"]) == "u'junk'";
    assert Message(AdditionalProperties(["junk"]))
      == "Additional properties are not allowed (u'junk' was unexpected)";
  }

  /** A body with the undeclared property `junk` is a schema violation naming it. */
  method TestWrongSchema(freshId: string) returns (r: Response)
    ensures r == Response(BAD_REQUEST, BadResult(
      "The provided JSON doesn't match the required schema.",
      Some(["Additional properties are not allowed (u'junk' was unexpected)"])))
  {
    var service := new ConfigurationPersistenceService(EmptyDeployment);
    var api := new DatasetAPIUserV1(service, "");
    JunkBodyViolations();
    JunkMessages();
    r := api.CreateDatasetConfiguration(JunkBody, freshId, true);
  }

  /** The deployment of the collision scenario: node A holding one primary manifestation of `datasetId`. */
  function CollisionDeployment(datasetId: string): Deployment {
    Deployment({Node(NODE_A, {Manifestation(Dataset(datasetId, map[], None), true)})})
  }

  /** The body of the collision scenario: node A and the id already in use. */
  function CollisionBody(datasetId: string): Json {
    JObject([(PrimaryKey, JString(NODE_A)), (DatasetIdKey, JString(datasetId))])
  }

  /** Asking again for an id in use is rejected as a conflict. */
  lemma CollisionRejected(datasetId: string, freshId: string)
    ensures CreateDataset(CollisionDeployment(datasetId), CollisionBody(datasetId), freshId)
      == Reject(Response(CONFLICT, BadResult(ConflictDescription, None)))
  {
    var body := CollisionBody(datasetId);
    var existing := Manifestation(Dataset(datasetId, map[], None), true);
    assert body.members[0].0 == PrimaryKey && body.members[1].0 == DatasetIdKey;
    assert Keys(body.members) == {PrimaryKey, DatasetIdKey};
    assert ConformsToSchema(body);
    assert RequestedId(body.members, freshId) == datasetId;
    assert datasetId in DatasetIds(CollisionDeployment(datasetId)) by {
      assert existing in Node(NODE_A, {existing}).Manifestations();
    }
    CreateDatasetConflict(CollisionDeployment(datasetId), body, freshId);
  }

  /**
   * A dataset id already used by a manifestation is a conflict, and the
   * node still holds exactly the manifestation it held.
   */
  method TestDatasetIdCollision(datasetId: string, freshId: string) returns (r: Response, after: Deployment)
    ensures r == Response(CONFLICT, BadResult("The provided dataset_id is already in use.", None))
    ensures after.nodes == {Node(NODE_A, {Manifestation(Dataset(datasetId, map[], None), true)})}
  {
    var service := new ConfigurationPersistenceService(EmptyDeployment);
    var api := new DatasetAPIUserV1(service, "");
    var saved := service.Save(CollisionDeployment(datasetId), true);
    CollisionRejected(datasetId, freshId);
    r := api.CreateDatasetConfiguration(CollisionBody(datasetId), freshId, true);
    after := service.Get();
  }

  /** A primary naming no node of the (empty) cluster is a bad request; nothing is saved. */
  method TestUnknownPrimaryNode(freshId: string) returns (r: Response, after: Deployment)
    ensures r == Response(BAD_REQUEST, BadResult("The provided primary node is not part of the cluster.", None))
    ensures after == EmptyDeployment
  {
    var service := new ConfigurationPersistenceService(EmptyDeployment);
    var api := new DatasetAPIUserV1(service, "");
    var body := JObject([(PrimaryKey, JString(NODE_A))]);
    assert body.members[0].0 == PrimaryKey;
    assert Keys(body.members) == {PrimaryKey};
    assert ConformsToSchema(body);
    r := api.CreateDatasetConfiguration(body, freshId, true);
    after := service.Get();
  }

  /**
   * A body naming only the primary node creates a dataset: the answer is
   * `{primary, metadata: {}}` plus a dataset id, and that id is the only one
   * in the saved deployment.
   */
  method TestMinimalCreateDataset(freshId: string) returns (r: Response, after: Deployment)
    ensures r.code == OK && r.envelope.GoodResult? && r.envelope.result.DatasetInfo?
    ensures r.envelope.result.primary == NODE_A && r.envelope.result.metadata == map[]
    ensures DatasetIds(after) == {r.envelope.result.dataset_id}
  {
    var service := new ConfigurationPersistenceService(EmptyDeployment);
    var api := new DatasetAPIUserV1(service, "");
    var initial := Deployment({Node(NODE_A, {})});
    var saved := service.Save(initial, true);
    assert NODE_A in Hostnames(initial) by {
      assert Node(NODE_A, {}) in initial.nodes;
    }
    var body := JObject([(PrimaryKey, JString(NODE_A))]);
    MinimalCreateDataset(initial, NODE_A, freshId);
    r := api.CreateDatasetConfiguration(body, freshId, true);
    after := service.Get();
  }
}
