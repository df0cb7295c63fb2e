/**
 * The DynTree engine's state and its index, limit and subgraph contracts.
 *
 * The topology (serialisation names, partition, traversals, FT-sensor joint
 * names) is fixed at construction; the joint arrays, the measured wrenches
 * and the subgraph tables are the state its methods update in place.
 */
module DynTrees {
  import opened Options
  import opened Sequences
  import opened JointLimits
  import opened Partitions
  import opened SubGraphs
  import opened SensorMeasurements

  /** A wrench with zero force and zero torque. */
  const ZeroWrench := Wrench(Vector3(0.0, 0.0, 0.0), Vector3(0.0, 0.0, 0.0))

  class DynTree {
    const NrOfDOFs: nat
    const NrOfLinks: nat
    const NrOfFTSensors: nat

    /** Link and DOF names in serialisation order: the global index is the position. */
    const linkNames: seq<string>
    const dofNames: seq<string>
    const partition: seq<TreePart>
    const kinematic_traversal: Traversal
    const dynamic_traversal: Traversal
    /** The fixed joints that carry an FT sensor, in sensor-index order. */
    const ft_sensor_names: seq<string>

    /** Joint positions, speeds and accelerations, and the position limits. */
    const q: array<real>
    const dq: array<real>
    const ddq: array<real>
    const q_min: array<real>
    const q_max: array<real>
    /** Marks the DOFs whose position setAng clips to [q_min, q_max]. */
    const constrained: array<bool>
    const constrained_count: int

    /** One measured wrench per FT sensor. */
    const measured_wrenches: array<Wrench>

    var NrOfDynamicSubGraphs: int
    var link2subgraph_index: seq<int>
    var link_is_subgraph_root: seq<bool>
    var subgraph_index2root_link: seq<int>

    /** The fixed description of the tree. */
    ghost predicate Topology() {
      && |linkNames| == NrOfLinks && |dofNames| == NrOfDOFs
      && ValidPartition(partition, NrOfLinks, NrOfDOFs)
      && ValidTraversal(kinematic_traversal, NrOfLinks)
      && ValidTraversal(dynamic_traversal, NrOfLinks)
      && |ft_sensor_names| == NrOfFTSensors
    }

    /** Every joint array has one entry per DOF, no two of them alias, and constrained_count counts the mask. */
    ghost predicate StateShape()
      reads constrained
    {
      && q.Length == NrOfDOFs && dq.Length == NrOfDOFs && ddq.Length == NrOfDOFs
      && q_min.Length == NrOfDOFs && q_max.Length == NrOfDOFs && constrained.Length == NrOfDOFs
      && q != dq && q != ddq && dq != ddq
      && q != q_min && q != q_max && dq != q_min && dq != q_max && ddq != q_min && ddq != q_max
      && constrained_count == CountTrue(constrained[..])
      && measured_wrenches.Length == NrOfFTSensors
    }

    /** The subgraph tables describe the dynamic traversal cut at the joints named ft_names. */
    ghost predicate SubGraphStructure(ft_names: seq<string>)
      reads this
    {
      && Topology()
      && NrOfDynamicSubGraphs == |subgraph_index2root_link|
      && TablesConsistent(NrOfLinks, link2subgraph_index, link_is_subgraph_root, subgraph_index2root_link)
      && CutAtSensors(dynamic_traversal, NrOfLinks, SensorCut(dynamic_traversal, NrOfLinks, ft_names),
                      link2subgraph_index, link_is_subgraph_root, subgraph_index2root_link)
    }

    ghost predicate Valid()
      reads this, constrained
    {
      Topology() && StateShape() && SubGraphStructure(ft_sensor_names)
    }

    /**
     * An engine for the given tree: joint positions, speeds and accelerations
     * start at zero, every measured wrench at zero, and the subgraph tables
     * are built from the FT-sensor joints.
     */
    constructor (linkNames: seq<string>, dofNames: seq<string>, partition: seq<TreePart>,
                 kinematic_traversal: Traversal, dynamic_traversal: Traversal,
                 joint_sensor_names: seq<string>,
                 q_min: seq<real>, q_max: seq<real>, constrained: seq<bool>)
      requires ValidPartition(partition, |linkNames|, |dofNames|)
      requires ValidTraversal(kinematic_traversal, |linkNames|)
      requires ValidTraversal(dynamic_traversal, |linkNames|)
      requires |q_min| == |dofNames| && |q_max| == |dofNames| && |constrained| == |dofNames|
      ensures Valid()
      ensures fresh(q) && fresh(dq) && fresh(ddq) && fresh(this.q_min) && fresh(this.q_max)
      ensures fresh(this.constrained) && fresh(measured_wrenches)
      ensures this.linkNames == linkNames && this.dofNames == dofNames && this.partition == partition
      ensures this.kinematic_traversal == kinematic_traversal && this.dynamic_traversal == dynamic_traversal
      ensures ft_sensor_names == joint_sensor_names
      ensures forall i :: 0 <= i < |dofNames| ==>
                this.q_min[i] == q_min[i] && this.q_max[i] == q_max[i] && this.constrained[i] == constrained[i]
      ensures forall i :: 0 <= i < |dofNames| ==> q[i] == 0.0 && dq[i] == 0.0 && ddq[i] == 0.0
      ensures forall s :: 0 <= s < |joint_sensor_names| ==> measured_wrenches[s] == ZeroWrench
    {
      var n := |dofNames|;
      NrOfDOFs := n;
      NrOfLinks := |linkNames|;
      NrOfFTSensors := |joint_sensor_names|;
      this.linkNames := linkNames;
      this.dofNames := dofNames;
      this.partition := partition;
      this.kinematic_traversal := kinematic_traversal;
      this.dynamic_traversal := dynamic_traversal;
      ft_sensor_names := joint_sensor_names;
      q := new real[n](_ => 0.0);
      dq := new real[n](_ => 0.0);
      ddq := new real[n](_ => 0.0);
      this.q_min := new real[n](i requires 0 <= i < n => q_min[i]);
      this.q_max := new real[n](i requires 0 <= i < n => q_max[i]);
      this.constrained := new bool[n](i requires 0 <= i < n => constrained[i]);
      constrained_count := CountTrue(constrained);
      measured_wrenches := new Wrench[|joint_sensor_names|](_ => ZeroWrench);
      new;
      assert this.constrained[..] == constrained;
      BuildSubGraphStructure(joint_sensor_names);
    }

    /**
     * buildSubGraphStructure: cut the dynamic traversal at the joints named
     * ft_names and fill the three subgraph tables from the pieces.
     */
    method BuildSubGraphStructure(ft_names: seq<string>)
      requires Topology()
      modifies this
      ensures SubGraphStructure(ft_names)
    {
      var cut := SensorCut(dynamic_traversal, NrOfLinks, ft_names);
      var sg, isRoot, roots := ComputeSubGraphTables(dynamic_traversal, NrOfLinks, cut);
      link2subgraph_index := sg;
      link_is_subgraph_root := isRoot;
      subgraph_index2root_link := roots;
      NrOfDynamicSubGraphs := |roots|;
    }

    /** getNrOfDOFs: the internal DOFs, one per entry of the joint arrays. */
    function GetNrOfDOFs(): (r: nat)
      requires Valid()
      reads this, constrained
      ensures r == q.Length && r == |dofNames|
    {
      NrOfDOFs
    }

    /** getNrOfLinks */
    function GetNrOfLinks(): (r: nat)
      requires Valid()
      reads this, constrained
      ensures r == |linkNames| && r == |dynamic_traversal.order|
    {
      NrOfLinks
    }

    /** getLinkIndex(link_name): the global index of the link so named, or -1. */
    function GetLinkIndex(link_name: string): (r: int)
      requires Topology()
      ensures -1 <= r < NrOfLinks
      ensures r >= 0 ==> linkNames[r] == link_name
      ensures r == -1 <==> link_name !in linkNames
    {
      IndexOf(linkNames, link_name)
    }

    /** getDOFIndex(dof_name): the global index of the DOF so named, or -1. */
    function GetDOFIndex(dof_name: string): (r: int)
      requires Topology()
      ensures -1 <= r < NrOfDOFs
      ensures r >= 0 ==> dofNames[r] == dof_name
      ensures r == -1 <==> dof_name !in dofNames
    {
      IndexOf(dofNames, dof_name)
    }

    /** getLinkIndex(part_id, local_link_index) */
    function GetLinkIndexByPartId(part_id: int, local_link_index: int): (r: int)
      requires Topology()
      ensures -1 <= r < NrOfLinks
      ensures r >= 0 <==> exists p :: 0 <= p < |partition| && partition[p].id == part_id
                                   && 0 <= local_link_index < |partition[p].links|
      ensures forall p :: (0 <= p < |partition| && partition[p].id == part_id
                           && 0 <= local_link_index < |partition[p].links|) ==> r == partition[p].links[local_link_index]
    {
      var p := FindPart(partition, ById(part_id));
      if p < 0 then -1 else LocalToGlobal(partition[p].links, local_link_index)
    }

    /** getDOFIndex(part_id, local_DOF_index) */
    function GetDOFIndexByPartId(part_id: int, local_DOF_index: int): (r: int)
      requires Topology()
      ensures -1 <= r < NrOfDOFs
      ensures r >= 0 <==> exists p :: 0 <= p < |partition| && partition[p].id == part_id
                                   && 0 <= local_DOF_index < |partition[p].dofs|
      ensures forall p :: (0 <= p < |partition| && partition[p].id == part_id
                           && 0 <= local_DOF_index < |partition[p].dofs|) ==> r == partition[p].dofs[local_DOF_index]
    {
      var p := FindPart(partition, ById(part_id));
      if p < 0 then -1 else LocalToGlobal(partition[p].dofs, local_DOF_index)
    }

    /** getLinkIndex(part_name, local_link_index) */
    function GetLinkIndexByPartName(part_name: string, local_link_index: int): (r: int)
      requires Topology()
      ensures -1 <= r < NrOfLinks
      ensures r >= 0 <==> exists p :: 0 <= p < |partition| && partition[p].name == part_name
                                   && 0 <= local_link_index < |partition[p].links|
      ensures forall p :: (0 <= p < |partition| && partition[p].name == part_name
                           && 0 <= local_link_index < |partition[p].links|) ==> r == partition[p].links[local_link_index]
    {
      var p := FindPart(partition, ByName(part_name));
      if p < 0 then -1 else LocalToGlobal(partition[p].links, local_link_index)
    }

    /** getDOFIndex(part_name, local_DOF_index) */
    function GetDOFIndexByPartName(part_name: string, local_DOF_index: int): (r: int)
      requires Topology()
      ensures -1 <= r < NrOfDOFs
      ensures r >= 0 <==> exists p :: 0 <= p < |partition| && partition[p].name == part_name
                                   && 0 <= local_DOF_index < |partition[p].dofs|
      ensures forall p :: (0 <= p < |partition| && partition[p].name == part_name
                           && 0 <= local_DOF_index < |partition[p].dofs|) ==> r == partition[p].dofs[local_DOF_index]
    {
      var p := FindPart(partition, ByName(part_name));
      if p < 0 then -1 else LocalToGlobal(partition[p].dofs, local_DOF_index)
    }

    /**
     * The global DOF indices a part_name argument selects, in part-local
     * order: every DOF for "", the named part's DOFs otherwise, None for an
     * unknown part.
     */
    function TargetDOFs(part_name: string): (r: Option<seq<int>>)
      requires Topology()
      ensures r.Some? ==> AllBelow(r.value, NrOfDOFs) && Distinct(r.value)
      ensures part_name == "" ==> r == Some(Range(NrOfDOFs))
      ensures part_name != "" ==> (r.Some? <==> exists p :: 0 <= p < |partition| && partition[p].name == part_name)
      ensures part_name != "" ==> forall p :: 0 <= p < |partition| && partition[p].name == part_name ==>
                                    r == Some(partition[p].dofs)
    {
      if part_name == "" then Some(Range(NrOfDOFs))
      else
        var p := FindPart(partition, ByName(part_name));
        if p < 0 then None else Some(partition[p].dofs)
    }

    /**
     * The private setAng(q, i): store the effective position of DOF i (the
     * value clipped to its limits when the DOF is constrained) and return it.
     */
    method SetAngAt(v: real, i: int) returns (r: real)
      requires StateShape() && 0 <= i < NrOfDOFs
      modifies q
      ensures r == EffectivePosition(v, constrained[i], q_min[i], q_max[i])
      ensures q[..] == old(q[..])[i := r]
    {
      r := EffectivePosition(v, constrained[i], q_min[i], q_max[i]);
      q[i] := r;
    }

    /** The effective positions of values written to the DOFs dofs. */
    function EffectivePositions(values: seq<real>, dofs: seq<int>): (r: seq<real>)
      requires StateShape() && AllBelow(dofs, NrOfDOFs) && |values| == |dofs|
      reads constrained, q_min, q_max
      ensures |r| == |dofs|
      ensures forall k :: 0 <= k < |dofs| ==>
                r[k] == EffectivePosition(values[k], constrained[dofs[k]], q_min[dofs[k]], q_max[dofs[k]])
    {
      seq(|dofs|, k requires 0 <= k < |dofs| reads constrained, q_min, q_max =>
        EffectivePosition(values[k], constrained[dofs[k]], q_min[dofs[k]], q_max[dofs[k]]))
    }

    /**
     * setAng(_q, part_name): set the positions of the part's DOFs (of every
     * DOF for ""), each through the limit rule, and return the effective
     * positions. An unknown part or a vector of the wrong size is refused
     * with None and leaves the state as it was.
     */
    method SetAng(values: seq<real>, part_name: string) returns (r: Option<seq<real>>)
      requires Valid()
      modifies q
      ensures Valid()
      ensures TargetDOFs(part_name).None? || |values| != |TargetDOFs(part_name).value| ==>
                r.None? && q[..] == old(q[..])
      ensures TargetDOFs(part_name).Some? && |values| == |TargetDOFs(part_name).value| ==>
                && r == Some(EffectivePositions(values, TargetDOFs(part_name).value))
                && q[..] == Scatter(old(q[..]), TargetDOFs(part_name).value, r.value)
      ensures r.Some? ==> GetAng(part_name) == r
    {
      var target := TargetDOFs(part_name);
      if target.None? || |values| != |target.value| {
        return None;
      }
      var applied := SetAngs(values, target.value);
      GatherScatter(old(q[..]), target.value, applied);
      r := Some(applied);
    }

    /** Set the DOFs dofs, one by one through the private setAng, to values. */
    method SetAngs(values: seq<real>, dofs: seq<int>) returns (applied: seq<real>)
      requires StateShape() && AllBelow(dofs, NrOfDOFs) && Distinct(dofs) && |values| == |dofs|
      modifies q
      ensures applied == EffectivePositions(values, dofs)
      ensures q[..] == Scatter(old(q[..]), dofs, applied)
    {
      ghost var full := EffectivePositions(values, dofs);
      applied := [];
      var k := 0;
      while k < |dofs|
        invariant 0 <= k <= |dofs|
        invariant full == EffectivePositions(values, dofs)
        invariant applied == full[..k]
        invariant q[..] == Scatter(old(q[..]), dofs[..k], full[..k])
      {
        ghost var before := q[..];
        var e := SetAngAt(values[k], dofs[k]);
        ScatterStep(old(q[..]), dofs, full, k, before, q[..]);
        assert e == full[k];
        assert full[..k + 1] == applied + [e];
        applied := applied + [e];
        k := k + 1;
      }
      assert dofs[..k] == dofs && full[..k] == full;
    }

    /** setAng leaves values that already respect the limits of their DOFs as they are. */
    lemma EffectivePositionsInBounds(values: seq<real>, dofs: seq<int>)
      requires Valid() && AllBelow(dofs, NrOfDOFs) && |values| == |dofs|
      requires forall k :: 0 <= k < |dofs| && constrained[dofs[k]] ==> q_min[dofs[k]] <= values[k] <= q_max[dofs[k]]
      ensures EffectivePositions(values, dofs) == values
    {
    }

    /** Setting the effective positions again yields them unchanged: setAng is idempotent. */
    lemma EffectivePositionsIdempotent(values: seq<real>, dofs: seq<int>)
      requires Valid() && AllBelow(dofs, NrOfDOFs) && |values| == |dofs|
      requires forall k :: 0 <= k < |dofs| && constrained[dofs[k]] ==> q_min[dofs[k]] <= q_max[dofs[k]]
      ensures EffectivePositions(EffectivePositions(values, dofs), dofs) == EffectivePositions(values, dofs)
    {
      var e := EffectivePositions(values, dofs);
      forall k | 0 <= k < |dofs|
        ensures EffectivePositions(e, dofs)[k] == e[k]
      {
        EffectivePositionIdempotent(values[k], constrained[dofs[k]], q_min[dofs[k]], q_max[dofs[k]]);
      }
    }

    /** getAng(part_name): the positions of the part's DOFs (of every DOF for ""), None for an unknown part. */
    function GetAng(part_name: string): (r: Option<seq<real>>)
      requires Valid()
      reads this, constrained, q
      ensures r.Some? <==> TargetDOFs(part_name).Some?
      ensures r.Some? ==> (&& |r.value| == |TargetDOFs(part_name).value|
                           && forall k :: 0 <= k < |r.value| ==> r.value[k] == q[TargetDOFs(part_name).value[k]])
    {
      match TargetDOFs(part_name)
      case None => None
      case Some(dofs) => Some(Gather(q[..], dofs))
    }

    /**
     * setDAng(_dq, part_name): set the speeds of the part's DOFs (of every
     * DOF for ""); speeds are not limited, so the effective values are the
     * given ones.
     */
    method SetDAng(values: seq<real>, part_name: string) returns (r: Option<seq<real>>)
      requires Valid()
      modifies dq
      ensures Valid()
      ensures r.Some? <==> TargetDOFs(part_name).Some? && |values| == |TargetDOFs(part_name).value|
      ensures r.None? ==> dq[..] == old(dq[..])
      ensures r.Some? ==> r.value == values && dq[..] == Scatter(old(dq[..]), TargetDOFs(part_name).value, values)
      ensures r.Some? ==> GetDAng(part_name) == r
    {
      var target := TargetDOFs(part_name);
      if target.None? || |values| != |target.value| {
        return None;
      }
      WriteAt(dq, target.value, values);
      GatherScatter(old(dq[..]), target.value, values);
      r := Some(values);
    }

    /** getDAng(part_name) */
    function GetDAng(part_name: string): (r: Option<seq<real>>)
      requires Valid()
      reads this, constrained, dq
      ensures r.Some? <==> TargetDOFs(part_name).Some?
      ensures r.Some? ==> (&& |r.value| == |TargetDOFs(part_name).value|
                           && forall k :: 0 <= k < |r.value| ==> r.value[k] == dq[TargetDOFs(part_name).value[k]])
    {
      match TargetDOFs(part_name)
      case None => None
      case Some(dofs) => Some(Gather(dq[..], dofs))
    }

    /** setD2Ang(_ddq, part_name): as SetDAng, on the accelerations. */
    method SetD2Ang(values: seq<real>, part_name: string) returns (r: Option<seq<real>>)
      requires Valid()
      modifies ddq
      ensures Valid()
      ensures r.Some? <==> TargetDOFs(part_name).Some? && |values| == |TargetDOFs(part_name).value|
      ensures r.None? ==> ddq[..] == old(ddq[..])
      ensures r.Some? ==> r.value == values && ddq[..] == Scatter(old(ddq[..]), TargetDOFs(part_name).value, values)
      ensures r.Some? ==> GetD2Ang(part_name) == r
    {
      var target := TargetDOFs(part_name);
      if target.None? || |values| != |target.value| {
        return None;
      }
      WriteAt(ddq, target.value, values);
      GatherScatter(old(ddq[..]), target.value, values);
      r := Some(values);
    }

    /** getD2Ang(part_name) */
    function GetD2Ang(part_name: string): (r: Option<seq<real>>)
      requires Valid()
      reads this, constrained, ddq
      ensures r.Some? <==> TargetDOFs(part_name).Some?
      ensures r.Some? ==> (&& |r.value| == |TargetDOFs(part_name).value|
                           && forall k :: 0 <= k < |r.value| ==> r.value[k] == ddq[TargetDOFs(part_name).value[k]])
    {
      match TargetDOFs(part_name)
      case None => None
      case Some(dofs) => Some(Gather(ddq[..], dofs))
    }

    /**
     * setSensorMeasurement(sensor_index, ftm): store the force-first
     * 6-vector ftm as the wrench of sensor sensor_index; false, with nothing
     * changed, for an unknown sensor or a vector that is not 6 long.
     */
    method SetSensorMeasurement(sensor_index: int, ftm: seq<real>) returns (ok: bool)
      requires Valid()
      modifies measured_wrenches
      ensures Valid()
      ensures ok <==> 0 <= sensor_index < NrOfFTSensors && |ftm| == 6
      ensures ok ==> measured_wrenches[..] == old(measured_wrenches[..])[sensor_index := WrenchFromFT(ftm)]
      ensures !ok ==> measured_wrenches[..] == old(measured_wrenches[..])
      ensures ok ==> GetSensorMeasurement(sensor_index) == Some(ftm)
    {
      if !(0 <= sensor_index < NrOfFTSensors && |ftm| == 6) {
        return false;
      }
      measured_wrenches[sensor_index] := WrenchFromFT(ftm);
      FTRoundTrip(ftm);
      ok := true;
    }

    /** getSensorMeasurement(sensor_index): the stored wrench of the sensor, force first; None for an unknown sensor. */
    function GetSensorMeasurement(sensor_index: int): (r: Option<seq<real>>)
      requires Valid()
      reads this, constrained, measured_wrenches
      ensures r.Some? <==> 0 <= sensor_index < NrOfFTSensors
      ensures r.Some? ==> |r.value| == 6 && WrenchFromFT(r.value) == measured_wrenches[sensor_index]
    {
      if 0 <= sensor_index < NrOfFTSensors then Some(FTFromWrench(measured_wrenches[sensor_index])) else None
    }

    /** getSubGraphIndex(link_index): the dynamic subgraph the link belongs to. */
    function GetSubGraphIndex(link_index: int): (r: int)
      requires Valid() && 0 <= link_index < NrOfLinks
      reads this, constrained
      ensures 0 <= r < NrOfDynamicSubGraphs
      ensures link2subgraph_index[subgraph_index2root_link[r]] == r
      ensures !link_is_subgraph_root[link_index] ==>
                0 <= dynamic_traversal.parent[link_index] < NrOfLinks
                && r == link2subgraph_index[dynamic_traversal.parent[link_index]]
    {
      assert ParentLink(dynamic_traversal, link_index) == dynamic_traversal.parent[link_index];
      link2subgraph_index[link_index]
    }

    /**
     * isSubGraphRoot(link_index): the link is the root of its subgraph, which
     * holds exactly when it is the dynamic base or hangs from an FT-sensor joint.
     */
    function IsSubGraphRoot(link_index: int): (b: bool)
      requires Valid() && 0 <= link_index < NrOfLinks
      reads this, constrained
      ensures b <==> subgraph_index2root_link[GetSubGraphIndex(link_index)] == link_index
      ensures b <==> (|| dynamic_traversal.parent[link_index] == -1
                      || dynamic_traversal.parentJointName[link_index] in ft_sensor_names)
    {
      link_is_subgraph_root[link_index]
    }
  }

  /** Write values[k] into a[dofs[k]] for every k. */
  method WriteAt(a: array<real>, dofs: seq<int>, values: seq<real>)
    requires AllBelow(dofs, a.Length) && Distinct(dofs) && |values| == |dofs|
    modifies a
    ensures a[..] == Scatter(old(a[..]), dofs, values)
  {
    var k := 0;
    while k < |dofs|
      invariant 0 <= k <= |dofs|
      invariant a[..] == Scatter(old(a[..]), dofs[..k], values[..k])
    {
      ghost var before := a[..];
      a[dofs[k]] := values[k];
      ScatterStep(old(a[..]), dofs, values, k, before, a[..]);
      k := k + 1;
    }
    assert dofs[..k] == dofs && values[..k] == values;
  }
}
