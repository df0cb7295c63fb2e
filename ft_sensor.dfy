/**
 * An internal six-axis force/torque sensor. It sits on a fixed joint of the
 * tree graph, between a `parent` and a `child` link, and H_parent_sensor maps
 * its measurement f_s into the parent frame: the wrench the child exerts on
 * the parent, expressed in the parent frame, is f_p = H_parent_sensor * f_s.
 *
 * The C++ FTSensor never changes after construction, so it is a value here and
 * its members are functions.
 */
module FTSensors {
  import opened Options
  import opened SpatialAlgebras
  import opened TreeGraphs

  datatype FTSensor<F(!new)> = FTSensor(
    tree_graph: TreeGraph<F>,
    fixed_joint_name: string,
    H_parent_sensor: F,
    parent: int,
    child: int,
    sensor_id: int
  )
  {
    function GetParent(): int { parent }

    function GetChild(): int { child }

    function GetH_parent_sensor(): F { H_parent_sensor }

    /** Both links of the sensor exist in the tree graph (getLink is valid on them). */
    predicate LinksInGraph() {
      tree_graph.HasLink(parent) && tree_graph.HasLink(child)
    }

    /** The parent link's pose relative to the child link at joint position 0. */
    function H_child_parent(): F
      requires LinksInGraph()
    {
      tree_graph.pose(parent, child, 0.0)
    }

    /**
     * What the projection asks of its inputs: the sensor indexes the
     * measurements, and the link is the parent, or it is the child of a
     * fixed joint whose links exist. Any other input fails an assertion.
     */
    predicate CanProjectOn<W>(current_link: int, measured_wrenches: seq<W>) {
      && 0 <= sensor_id < |measured_wrenches|
      && (current_link == parent
          || (LinksInGraph() && tree_graph.FixedJoint(child, parent) && current_link == child))
    }

    /**
     * The wrench the sensor measures as exerted on the subgraph that
     * current_link belongs to: the measurement in the parent frame for the
     * parent, carried on into the child frame for the child.
     */
    function GetWrenchExcertedOnSubGraph<W(!new)>(alg: SpatialAlgebra<F, W>, current_link: int, measured_wrenches: seq<W>): (r: W)
      requires CanProjectOn(current_link, measured_wrenches)
      ensures current_link == parent ==> r == alg.act(H_parent_sensor, measured_wrenches[sensor_id])
      ensures current_link != parent && tree_graph.FixedJoint(parent, child) && Lawful(alg) ==>
                r == alg.act(GetH_child_sensor(alg), measured_wrenches[sensor_id])
    {
      if current_link == parent then
        alg.act(H_parent_sensor, measured_wrenches[sensor_id])
      else
        alg.act(H_child_parent(), alg.act(H_parent_sensor, measured_wrenches[sensor_id]))
    }

    /** The sensor frame seen from the child link; both directions of the joint must be fixed. */
    function GetH_child_sensor<W(!new)>(alg: SpatialAlgebra<F, W>): (r: F)
      requires LinksInGraph()
      requires tree_graph.FixedJoint(child, parent) && tree_graph.FixedJoint(parent, child)
      ensures ActionCompatible(alg) ==>
                forall w: W :: alg.act(r, w) == alg.act(H_child_parent(), alg.act(H_parent_sensor, w))
    {
      alg.compose(H_child_parent(), H_parent_sensor)
    }
  }

  /** The constructor without a transform: the sensor frame is the parent frame. */
  function NewFTSensor<F(!new), W>(alg: SpatialAlgebra<F, W>, tree_graph: TreeGraph<F>, fixed_joint_name: string,
                             parent: int, child: int, sensor_id: int): (s: FTSensor<F>)
    ensures s.GetH_parent_sensor() == alg.identity
    ensures s.GetParent() == parent && s.GetChild() == child && s.sensor_id == sensor_id
    ensures s.tree_graph == tree_graph && s.fixed_joint_name == fixed_joint_name
  {
    FTSensor(tree_graph, fixed_joint_name, alg.identity, parent, child, sensor_id)
  }

  /** The constructor with an explicit parent-to-sensor transform. */
  function NewFTSensorWithTransform<F(!new)>(tree_graph: TreeGraph<F>, fixed_joint_name: string, H_parent_sensor: F,
                                       parent: int, child: int, sensor_id: int): (s: FTSensor<F>)
    ensures s.GetH_parent_sensor() == H_parent_sensor
    ensures s.GetParent() == parent && s.GetChild() == child && s.sensor_id == sensor_id
    ensures s.tree_graph == tree_graph && s.fixed_joint_name == fixed_joint_name
  {
    FTSensor(tree_graph, fixed_joint_name, H_parent_sensor, parent, child, sensor_id)
  }

  /** On the parent side the measurement is mapped by H_parent_sensor alone: f_p = H_p_s f_s. */
  lemma ParentSideProjection<F(!new), W(!new)>(alg: SpatialAlgebra<F, W>, s: FTSensor<F>, measured_wrenches: seq<W>)
    requires 0 <= s.sensor_id < |measured_wrenches|
    ensures s.CanProjectOn(s.GetParent(), measured_wrenches)
    ensures s.GetWrenchExcertedOnSubGraph(alg, s.GetParent(), measured_wrenches)
         == alg.act(s.GetH_parent_sensor(), measured_wrenches[s.sensor_id])
  {
  }

  /**
   * On the child side the result is the parent-side result carried across the
   * fixed joint by H_child_parent. (A sensor whose parent and child coincide
   * always takes the parent side.)
   */
  lemma ChildSideProjection<F(!new), W(!new)>(alg: SpatialAlgebra<F, W>, s: FTSensor<F>, measured_wrenches: seq<W>)
    requires 0 <= s.sensor_id < |measured_wrenches|
    requires s.LinksInGraph() && s.tree_graph.FixedJoint(s.child, s.parent) && s.child != s.parent
    ensures s.CanProjectOn(s.GetChild(), measured_wrenches)
    ensures s.GetWrenchExcertedOnSubGraph(alg, s.GetChild(), measured_wrenches)
         == alg.act(s.H_child_parent(), s.GetWrenchExcertedOnSubGraph(alg, s.GetParent(), measured_wrenches))
  {
  }

  /** The child-side projection is the measurement mapped by getH_child_sensor(). */
  lemma ChildSideAgreesWithH_child_sensor<F(!new), W(!new)>(alg: SpatialAlgebra<F, W>, s: FTSensor<F>, measured_wrenches: seq<W>)
    requires Lawful(alg)
    requires 0 <= s.sensor_id < |measured_wrenches|
    requires s.LinksInGraph() && s.child != s.parent
    requires s.tree_graph.FixedJoint(s.child, s.parent) && s.tree_graph.FixedJoint(s.parent, s.child)
    ensures s.GetWrenchExcertedOnSubGraph(alg, s.GetChild(), measured_wrenches)
         == alg.act(s.GetH_child_sensor(alg), measured_wrenches[s.sensor_id])
  {
  }

  /** A sensor built without a transform hands the raw measurement to its parent link. */
  lemma IdentitySensorPassesMeasurement<F(!new), W(!new)>(alg: SpatialAlgebra<F, W>, tree_graph: TreeGraph<F>,
                                                          name: string, parent: int, child: int, sensor_id: int,
                                                          measured_wrenches: seq<W>)
    requires Lawful(alg)
    requires 0 <= sensor_id < |measured_wrenches|
    ensures NewFTSensor(alg, tree_graph, name, parent, child, sensor_id)
              .GetWrenchExcertedOnSubGraph(alg, parent, measured_wrenches) == measured_wrenches[sensor_id]
  {
  }

  /** A sensor built without a transform: getH_child_sensor() acts as H_child_parent. */
  lemma IdentitySensorChildFrame<F(!new), W(!new)>(alg: SpatialAlgebra<F, W>, tree_graph: TreeGraph<F>,
                                                   name: string, parent: int, child: int, sensor_id: int, w: W)
    requires Lawful(alg)
    requires tree_graph.HasLink(parent) && tree_graph.HasLink(child)
    requires tree_graph.FixedJoint(child, parent) && tree_graph.FixedJoint(parent, child)
    ensures var s := NewFTSensor(alg, tree_graph, name, parent, child, sensor_id);
            alg.act(s.GetH_child_sensor(alg), w) == alg.act(s.H_child_parent(), w)
  {
  }
}
