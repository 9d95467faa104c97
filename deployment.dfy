/**
 * The desired-configuration values of the control service: a deployment
 * is a set of nodes, each node holds manifestations, each manifestation
 * places a dataset on its node.  All of them are immutable values; a change
 * of configuration builds a new deployment.
 */
module Model {
  import opened Wrappers

  /** A dataset, identified by its `dataset_id`. */
  datatype Dataset = Dataset(dataset_id: string, metadata: map<string, string>, maximum_size: Option<nat>)

  /** A copy of a dataset's data on some node; `primary` marks the authoritative one. */
  datatype Manifestation = Manifestation(dataset: Dataset, primary: bool)

  /** A cluster node and the manifestations placed on it. */
  datatype Node = Node(hostname: string, other_manifestations: set<Manifestation>) {
    /** All manifestations on the node; without applications these are `other_manifestations`. */
    function Manifestations(): set<Manifestation> {
      other_manifestations
    }
  }

  /** The whole desired configuration of the cluster. */
  datatype Deployment = Deployment(nodes: set<Node>)

  /** The empty configuration a fresh persistence service starts from. */
  const EmptyDeployment := Deployment({})

  /**
   * The ids of all datasets placed anywhere in the deployment: the id of
   * every manifestation of every node, and nothing else.
   */
  function DatasetIds(d: Deployment): (ids: set<string>)
    ensures forall n, m :: n in d.nodes && m in n.Manifestations() ==> m.dataset.dataset_id in ids
    ensures forall id :: id in ids ==>
      exists n, m :: n in d.nodes && m in n.Manifestations() && m.dataset.dataset_id == id
  {
    set n, m | n in d.nodes && m in n.Manifestations() :: m.dataset.dataset_id
  }

  /** The hostnames of the deployment's nodes. */
  function Hostnames(d: Deployment): set<string> {
    set n | n in d.nodes :: n.hostname
  }

  /** Nodes are unique by hostname. */
  ghost predicate HostnamesUnique(d: Deployment) {
    forall n1, n2 :: n1 in d.nodes && n2 in d.nodes && n1.hostname == n2.hostname ==> n1 == n2
  }

  /** No two manifestations anywhere in the deployment share a dataset id. */
  ghost predicate IdsUnique(d: Deployment) {
    forall n1, m1, n2, m2 ::
      n1 in d.nodes && m1 in n1.Manifestations() &&
      n2 in d.nodes && m2 in n2.Manifestations() &&
      m1.dataset.dataset_id == m2.dataset.dataset_id
      ==> n1 == n2 && m1 == m2
  }

  /** The invariants every stored deployment keeps. */
  ghost predicate WellFormed(d: Deployment) {
    HostnamesUnique(d) && IdsUnique(d)
  }

  /** The node after `m` was added to its manifestations (a copy; `n` is unchanged). */
  function WithManifestation(n: Node, m: Manifestation): Node {
    n.(other_manifestations := n.other_manifestations + {m})
  }

  /**
   * The deployment in which the node called `hostname` additionally holds
   * `m` and every other node is as before.
   */
  function AddManifestationOn(d: Deployment, hostname: string, m: Manifestation): Deployment {
    Deployment(set n | n in d.nodes :: if n.hostname == hostname then WithManifestation(n, m) else n)
  }

  /** What the nodes of `AddManifestationOn(d, h, m)` are, node by node. */
  lemma AddManifestationOnNodes(d: Deployment, h: string, m: Manifestation)
    ensures forall n :: n in d.nodes && n.hostname != h ==> n in AddManifestationOn(d, h, m).nodes
    ensures forall n :: n in d.nodes && n.hostname == h ==> WithManifestation(n, m) in AddManifestationOn(d, h, m).nodes
    ensures forall n' :: n' in AddManifestationOn(d, h, m).nodes ==>
      exists n :: n in d.nodes && n' == (if n.hostname == h then WithManifestation(n, m) else n)
  {
  }

  /** Adding a manifestation keeps the set of hostnames. */
  lemma AddManifestationOnHostnames(d: Deployment, h: string, m: Manifestation)
    ensures Hostnames(AddManifestationOn(d, h, m)) == Hostnames(d)
  {
    AddManifestationOnNodes(d, h, m);
    var d' := AddManifestationOn(d, h, m);
    forall x | x in Hostnames(d) ensures x in Hostnames(d') {
      var n :| n in d.nodes && n.hostname == x;
      var n' := if n.hostname == h then WithManifestation(n, m) else n;
      assert n' in d'.nodes && n'.hostname == x;
    }
  }

  /**
   * Placing `m` on an existing node adds exactly `m`'s dataset id to the
   * deployment's dataset ids.
   */
  lemma AddManifestationOnIds(d: Deployment, h: string, m: Manifestation)
    requires h in Hostnames(d)
    ensures DatasetIds(AddManifestationOn(d, h, m)) == DatasetIds(d) + {m.dataset.dataset_id}
  {
    AddManifestationOnNodes(d, h, m);
    var d' := AddManifestationOn(d, h, m);
    forall x | x in DatasetIds(d') ensures x in DatasetIds(d) + {m.dataset.dataset_id} {
      var n', mf :| n' in d'.nodes && mf in n'.Manifestations() && mf.dataset.dataset_id == x;
      var n :| n in d.nodes && n' == (if n.hostname == h then WithManifestation(n, m) else n);
      if mf != m {
        assert mf in n.Manifestations();
      }
    }
    forall x | x in DatasetIds(d) + {m.dataset.dataset_id} ensures x in DatasetIds(d') {
      if x in DatasetIds(d) {
        var n, mf :| n in d.nodes && mf in n.Manifestations() && mf.dataset.dataset_id == x;
        var n' := if n.hostname == h then WithManifestation(n, m) else n;
        assert n' in d'.nodes && mf in n'.Manifestations();
      } else {
        var n :| n in d.nodes && n.hostname == h;
        assert WithManifestation(n, m) in d'.nodes;
        assert m in WithManifestation(n, m).Manifestations();
      }
    }
  }

  /** Adding a manifestation keeps nodes unique by hostname. */
  lemma AddManifestationOnHostnamesUnique(d: Deployment, h: string, m: Manifestation)
    requires HostnamesUnique(d)
    ensures HostnamesUnique(AddManifestationOn(d, h, m))
  {
    AddManifestationOnNodes(d, h, m);
    var d' := AddManifestationOn(d, h, m);
    forall n1', n2' | n1' in d'.nodes && n2' in d'.nodes && n1'.hostname == n2'.hostname
      ensures n1' == n2'
    {
      var n1 :| n1 in d.nodes && n1' == (if n1.hostname == h then WithManifestation(n1, m) else n1);
      var n2 :| n2 in d.nodes && n2' == (if n2.hostname == h then WithManifestation(n2, m) else n2);
      assert n1.hostname == n2.hostname;
    }
  }

  /**
   * The node a node of `AddManifestationOn(d, h, m)` came from, and where
   * each of its manifestations came from.
   */
  lemma Origin(d: Deployment, h: string, m: Manifestation, n': Node, mf: Manifestation) returns (n: Node)
    requires n' in AddManifestationOn(d, h, m).nodes && mf in n'.Manifestations()
    requires m.dataset.dataset_id !in DatasetIds(d)
    ensures n in d.nodes && n' == (if n.hostname == h then WithManifestation(n, m) else n)
    ensures mf != m ==> mf in n.Manifestations()
    ensures mf == m ==> n.hostname == h
  {
    AddManifestationOnNodes(d, h, m);
    n :| n in d.nodes && n' == (if n.hostname == h then WithManifestation(n, m) else n);
    assert n.hostname != h ==> mf in n.Manifestations();
  }

  /** One instance of `IdsUnique` for the deployment after the addition. */
  lemma AddManifestationOnPairUnique(d: Deployment, h: string, m: Manifestation,
                                     n1': Node, m1: Manifestation, n2': Node, m2: Manifestation)
    requires WellFormed(d)
    requires m.dataset.dataset_id !in DatasetIds(d)
    requires n1' in AddManifestationOn(d, h, m).nodes && m1 in n1'.Manifestations()
    requires n2' in AddManifestationOn(d, h, m).nodes && m2 in n2'.Manifestations()
    requires m1.dataset.dataset_id == m2.dataset.dataset_id
    ensures n1' == n2' && m1 == m2
  {
    var n1 := Origin(d, h, m, n1', m1);
    var n2 := Origin(d, h, m, n2', m2);
    // a manifestation already present cannot share its id with the new one
    assert m1 != m ==> m1.dataset.dataset_id in DatasetIds(d);
    assert m2 != m ==> m2.dataset.dataset_id in DatasetIds(d);
    assert n1 == n2;
  }

  /**
   * Adding a manifestation whose dataset id is not yet used, on a deployment
   * whose hostnames are unique, keeps dataset ids unique.
   */
  lemma AddManifestationOnIdsUnique(d: Deployment, h: string, m: Manifestation)
    requires WellFormed(d)
    requires m.dataset.dataset_id !in DatasetIds(d)
    ensures IdsUnique(AddManifestationOn(d, h, m))
  {
    var d' := AddManifestationOn(d, h, m);
    forall n1', m1, n2', m2 |
      n1' in d'.nodes && m1 in n1'.Manifestations() &&
      n2' in d'.nodes && m2 in n2'.Manifestations() &&
      m1.dataset.dataset_id == m2.dataset.dataset_id
      ensures n1' == n2' && m1 == m2
    {
      AddManifestationOnPairUnique(d, h, m, n1', m1, n2', m2);
    }
  }

  /**
   * On a well-formed deployment, placing a manifestation whose dataset id is
   * not yet used keeps the deployment well-formed.
   */
  lemma AddManifestationOnWellFormed(d: Deployment, h: string, m: Manifestation)
    requires WellFormed(d)
    requires m.dataset.dataset_id !in DatasetIds(d)
    ensures WellFormed(AddManifestationOn(d, h, m))
  {
    AddManifestationOnHostnamesUnique(d, h, m);
    AddManifestationOnIdsUnique(d, h, m);
  }

  /**
   * After placing `m`, whose id was unused, on an existing node, the
   * manifestations carrying that id are exactly `m`, on a node of that
   * hostname.
   */
  lemma AddManifestationOnPlaces(d: Deployment, h: string, m: Manifestation)
    requires h in Hostnames(d)
    requires m.dataset.dataset_id !in DatasetIds(d)
    ensures exists n :: n in AddManifestationOn(d, h, m).nodes && n.hostname == h && m in n.Manifestations()
    ensures forall n, mf ::
      n in AddManifestationOn(d, h, m).nodes && mf in n.Manifestations() && mf.dataset.dataset_id == m.dataset.dataset_id
      ==> n.hostname == h && mf == m
  {
    AddManifestationOnNodes(d, h, m);
    var n0 :| n0 in d.nodes && n0.hostname == h;
    assert WithManifestation(n0, m) in AddManifestationOn(d, h, m).nodes;
    forall n, mf | n in AddManifestationOn(d, h, m).nodes && mf in n.Manifestations() && mf.dataset.dataset_id == m.dataset.dataset_id
      ensures n.hostname == h && mf == m
    {
      var origin := Origin(d, h, m, n, mf);
      assert mf != m ==> mf.dataset.dataset_id in DatasetIds(d);
    }
  }
}
